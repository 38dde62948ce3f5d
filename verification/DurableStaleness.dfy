/** When is an expired reservation final?  A `stale` answer read under FOR SHARE is; one
    read by the unlocked poll is not, and this module says exactly when it is.  It also
    says exactly when the verifier, whose four statements each see a snapshot of their
    own, accepts while completions go on. */
module DurableStaleness {
  import opened HashChain
  import opened PostgresAudit
  import opened DurableProtocol
  import opened DurableInvariant
  import opened DurableSteps
  import opened DurableAgreement

  // ----- Joining runs -----

  lemma {:induction false} RunsThen(cfg: Config, s: State, xs: seq<Step>, t: State, ys: seq<Step>, u: State)
    requires Runs(cfg, s, xs, t) && Runs(cfg, t, ys, u)
    ensures Runs(cfg, s, xs + ys, u)
    decreases |xs|
  {
    if |xs| == 0 {
      assert xs + ys == ys;
    } else {
      RunsThen(cfg, Next(cfg, s, xs[0]), xs[1..], t, ys, u);
      assert (xs + ys)[1..] == xs[1..] + ys;
    }
  }

  lemma ReachTrans(cfg: Config, s: State, t: State, u: State)
    requires CanReach(cfg, s, t) && CanReach(cfg, t, u)
    ensures CanReach(cfg, s, u)
  {
    var xs :| Runs(cfg, s, xs, t);
    var ys :| Runs(cfg, t, ys, u);
    RunsThen(cfg, s, xs, t, ys, u);
  }

  lemma StepReaches(cfg: Config, s: State, step: Step)
    requires Enabled(cfg, s, step)
    ensures CanReach(cfg, s, Next(cfg, s, step))
  {
    var t := Next(cfg, s, step);
    assert [step][1..] == [];
    assert Runs(cfg, t, [], t);
    assert Runs(cfg, s, [step], t);
  }

  lemma ReachableThen(cfg: Config, s: State, t: State)
    requires Reachable(cfg, s) && CanReach(cfg, s, t)
    ensures Reachable(cfg, t)
  {
    var clock :| CanReach(cfg, InitialState(clock), s);
    ReachTrans(cfg, InitialState(clock), s, t);
  }

  // ----- When an expired reservation can still complete -----

  /** A completion past the expiry check that has not ended: its client is still driving
      it, or COMMIT has been sent. */
  predicate MayComplete(a: Caller)
  {
    || (a.main.Committing? && a.main.work.StagedHead?)
    || (a.phase.Completing? && a.main.Open? && CompletionWork(a.main.work))
  }

  predicate Expired(s: State, k: Key)
  {
    k in s.db.rows && s.db.rows[k].state.Reserved? && s.db.rows[k].expiresAt <= s.clock
  }

  predicate IsCompleted(s: State, k: Key) { k in s.db.rows && s.db.rows[k].state.Completed? }

  predicate CompletionUnderWay(s: State, k: Key)
  {
    exists c :: c in s.callers && s.callers[c].key == k && MayComplete(s.callers[c])
  }

  /** The key will never be completed. */
  predicate Dead(s: State, k: Key)
  {
    || (k in s.db.rows && s.db.rows[k].state.Failed?)
    || (Expired(s, k) && !CompletionUnderWay(s, k))
  }

  lemma OthersAreUnmoved(cfg: Config, s: State, step: Step, c: CallerId)
    requires Enabled(cfg, s, step) && c in s.callers && (step.Tick? || c != Actor(step))
    ensures c in Next(cfg, s, step).callers && Next(cfg, s, step).callers[c] == s.callers[c]
  {
  }

  lemma CommitEndsCompletion(s: State, sid: Session)
    requires sid.c in s.callers && TxOf(s.callers[sid.c], sid).Committing? && ShapeOk(s.callers[sid.c])
    ensures !MayComplete(s.callers[sid.c]) ==> !MayComplete(AfterCommit(s, sid).callers[sid.c])
  {
  }

  lemma MoveStartsNone(cfg: Config, s: State, step: Step)
    requires Enabled(cfg, s, step) && !step.Tick? && !step.Commit? && Actor(step) in s.callers && ShapeOk(s.callers[Actor(step)])
    requires !MayComplete(s.callers[Actor(step)]) && MayComplete(Moved(cfg, s, step))
    ensures step.LockRow? && LockRowError(s, s.callers[step.c]).None?
  {
  }

  /** No step but the row lock brings a completion under way, and the row lock refuses
      an expired reservation. */
  lemma MayCompleteOrigin(cfg: Config, s: State, step: Step, c: CallerId)
    requires Enabled(cfg, s, step) && c in s.callers && ShapeOk(s.callers[c]) && c in Next(cfg, s, step).callers
    requires !MayComplete(s.callers[c]) && MayComplete(Next(cfg, s, step).callers[c])
    ensures step == LockRow(c) && LockRowError(s, s.callers[c]).None?
  {
    if step.Tick? || c != Actor(step) {
      OthersAreUnmoved(cfg, s, step, c);
    } else if step.Commit? {
      CommitEndsCompletion(s, step.sid);
    } else {
      MoveStartsNone(cfg, s, step);
    }
  }

  lemma CommitKeepsUncompleted(cfg: Config, s: State, sid: Session, k: Key)
    requires Enabled(cfg, s, Commit(sid)) && CallerOk(cfg, s, sid.c)
    requires k in s.db.rows && !s.db.rows[k].state.Completed?
    requires s.callers[sid.c].key == k ==> !MayComplete(s.callers[sid.c])
    ensures k in AfterCommit(s, sid).db.rows
            && (AfterCommit(s, sid).db.rows[k] == s.db.rows[k] || AfterCommit(s, sid).db.rows[k].state.Failed?)
  {
  }

  lemma CommitKeepsFailed(cfg: Config, s: State, sid: Session, k: Key)
    requires Enabled(cfg, s, Commit(sid)) && CallerOk(cfg, s, sid.c)
    requires k in s.db.rows && s.db.rows[k].state.Failed?
    ensures k in AfterCommit(s, sid).db.rows && AfterCommit(s, sid).db.rows[k] == s.db.rows[k]
  {
  }

  lemma StepKeepsUncompleted(cfg: Config, s: State, step: Step, k: Key)
    requires CallersOk(cfg, s) && Dead(s, k) && Enabled(cfg, s, step)
    ensures k in Next(cfg, s, step).db.rows
    ensures Next(cfg, s, step).db.rows[k] == s.db.rows[k] || Next(cfg, s, step).db.rows[k].state.Failed?
  {
    if step.Commit? {
      assert CallerOk(cfg, s, step.sid.c);
      if s.db.rows[k].state.Reserved? {
        CommitKeepsUncompleted(cfg, s, step.sid, k);
      } else {
        CommitKeepsFailed(cfg, s, step.sid, k);
      }
    }
  }

  lemma NewcomerStartsNone(cfg: Config, s: State, step: Step, c: CallerId)
    requires Enabled(cfg, s, step) && c !in s.callers && c in Next(cfg, s, step).callers
    ensures !MayComplete(Next(cfg, s, step).callers[c])
  {
  }

  lemma KeyIsKept(cfg: Config, s: State, step: Step, c: CallerId)
    requires Enabled(cfg, s, step) && c in s.callers
    ensures c in Next(cfg, s, step).callers && Next(cfg, s, step).callers[c].key == s.callers[c].key
  {
  }

  lemma StepStartsNone(cfg: Config, s: State, step: Step, k: Key)
    requires CallersOk(cfg, s) && Expired(s, k) && !CompletionUnderWay(s, k) && Enabled(cfg, s, step)
    ensures !CompletionUnderWay(Next(cfg, s, step), k)
  {
    var t := Next(cfg, s, step);
    forall c | c in t.callers && t.callers[c].key == k ensures !MayComplete(t.callers[c]) {
      if c !in s.callers {
        NewcomerStartsNone(cfg, s, step, c);
      } else {
        KeyIsKept(cfg, s, step, c);
        assert CallerOk(cfg, s, c) && !MayComplete(s.callers[c]);
        if MayComplete(t.callers[c]) { MayCompleteOrigin(cfg, s, step, c); }
      }
    }
  }

  lemma StepKeepsDead(cfg: Config, s: State, step: Step, k: Key)
    requires CallersOk(cfg, s) && Dead(s, k) && Enabled(cfg, s, step)
    ensures Dead(Next(cfg, s, step), k)
  {
    StepKeepsUncompleted(cfg, s, step, k);
    if s.db.rows[k].state.Reserved? {
      StepStartsNone(cfg, s, step, k);
    }
    assert Next(cfg, s, step).clock >= s.clock;
  }

  lemma {:induction false} DeadNeverCompletes(cfg: Config, s: State, steps: seq<Step>, t: State, k: Key)
    requires Inv(cfg, s) && Dead(s, k) && Runs(cfg, s, steps, t)
    ensures !IsCompleted(t, k)
    decreases |steps|
  {
    if |steps| > 0 {
      StepKeepsInv(cfg, s, steps[0]);
      StepKeepsDead(cfg, s, steps[0], k);
      DeadNeverCompletes(cfg, Next(cfg, s, steps[0]), steps[1..], t, k);
    }
  }

  /** `reserve` answers `stale` only if no completion is under way, so the key never
      completes in any continuation. */
  lemma LockedStaleIsFinal(cfg: Config, s: State, c: CallerId, t: State)
    requires Reachable(cfg, s) && Enabled(cfg, s, ShareRow(c))
    requires AfterShareRow(cfg, s, s.callers[c]).phase == ReserveCommit(StaleSeen)
    requires CanReach(cfg, s, t)
    ensures !IsCompleted(t, s.callers[c].key)
  {
    var k := s.callers[c].key;
    ReachableInv(cfg, s);
    forall d | d in s.callers && s.callers[d].key == k ensures !MayComplete(s.callers[d]) {
      assert !LocksRow(s.callers[d]);
    }
    var steps :| Runs(cfg, s, steps, t);
    DeadNeverCompletes(cfg, s, steps, t, k);
  }

  // ----- A completion under way can finish -----

  /** How many steps the completion still has to take. */
  function Remaining(s: State, a: Caller): nat
    requires MayComplete(a)
  {
    if a.main.Committing? then 0
    else match a.main.work
      case StagedHead(_) => 1
      case StagedRow(_) => 2
      case StagedEvent(_) => 3
      case LockedHead(_) => 4
      case LockedRow => if HeadFree(s) then 5 else 6
  }

  /** This identifier and time give an event on the present head that repeats nothing of
      a committed one. */
  predicate GivesEvent(cfg: Config, s: State, a: Caller, eventId: nat, occurredAt: nat)
    requires a.phase.Completing? && PRIMARY in s.db.heads
  {
    var built := EventOf(cfg, s.db.heads[PRIMARY], a, eventId, a.phase.response, occurredAt);
    built.Ok? && UniqueAmong(s.db.events, built.value)
  }

  ghost predicate EventAvailable(cfg: Config, s: State, a: Caller)
    requires a.phase.Completing?
  {
    PRIMARY in s.db.heads && exists eventId, occurredAt :: GivesEvent(cfg, s, a, eventId, occurredAt)
  }

  /** The completion has its event, or can build one. */
  ghost predicate CanBuild(cfg: Config, s: State, a: Caller)
    requires MayComplete(a)
  {
    EventIn(a.main.work) || EventAvailable(cfg, s, a)
  }

  lemma InsertAvailable(cfg: Config, s: State, c: CallerId) returns (step: Step)
    requires c in s.callers && CallerOk(cfg, s, c) && MayComplete(s.callers[c])
    requires s.callers[c].main.Open? && s.callers[c].main.work.LockedHead? && EventAvailable(cfg, s, s.callers[c])
    ensures Enabled(cfg, s, step) && Nearer(s, Next(cfg, s, step), c)
    ensures EventIn(Next(cfg, s, step).callers[c].main.work)
  {
    var eventId, occurredAt :| GivesEvent(cfg, s, s.callers[c], eventId, occurredAt);
    step := InsertEvent(c, eventId, occurredAt);
  }

  predicate SameRequest(a: Caller, b: Caller) { b.key == a.key && b.digest == a.digest && b.phase == a.phase }

  lemma StaysAvailable(cfg: Config, s: State, t: State, a: Caller, b: Caller)
    requires t.db == s.db && a.phase.Completing? && SameRequest(a, b) && EventAvailable(cfg, s, a)
    ensures EventAvailable(cfg, t, b)
  {
    var eventId, occurredAt :| GivesEvent(cfg, s, a, eventId, occurredAt);
    assert GivesEvent(cfg, t, b, eventId, occurredAt);
  }

  /** Take the head lock, or have whoever holds it abort. */
  lemma AdvanceToHead(cfg: Config, s: State, c: CallerId) returns (step: Step)
    requires DbOk(cfg.hashing, s.db) && HeadHeldOnce(s)
    requires c in s.callers && MayComplete(s.callers[c]) && s.callers[c].main == Open(LockedRow)
    ensures Enabled(cfg, s, step)
    ensures var t := Next(cfg, s, step);
            && c in t.callers && t.callers[c].key == s.callers[c].key
            && MayComplete(t.callers[c]) && Remaining(t, t.callers[c]) < Remaining(s, s.callers[c])
            && t.db == s.db && SameRequest(s.callers[c], t.callers[c])
  {
    if HeadFree(s) {
      step := LockHead(c);
    } else {
      var d :| d in s.callers && HoldsHead(s.callers[d].main);
      step := Abort(Main(d));
      assert HeadFree(Next(cfg, s, step));
    }
  }

  /** The row is completed, or the caller is still on its way and nearer to it. */
  predicate Nearer(s: State, t: State, c: CallerId)
    requires c in s.callers && MayComplete(s.callers[c])
  {
    && c in t.callers && t.callers[c].key == s.callers[c].key
    && (IsCompleted(t, s.callers[c].key)
        || (MayComplete(t.callers[c]) && Remaining(t, t.callers[c]) < Remaining(s, s.callers[c])))
  }

  lemma CommitCompletes(cfg: Config, s: State, c: CallerId)
    requires c in s.callers && CallerOk(cfg, s, c) && MayComplete(s.callers[c]) && s.callers[c].main.Committing?
    ensures Enabled(cfg, s, Commit(Main(c))) && Nearer(s, Next(cfg, s, Commit(Main(c))), c)
  {
  }

  lemma StagedAdvances(cfg: Config, s: State, c: CallerId) returns (step: Step)
    requires c in s.callers && CallerOk(cfg, s, c) && MayComplete(s.callers[c]) && !s.callers[c].main.Committing?
    requires var w := s.callers[c].main.work; w.StagedHead? || w.StagedRow? || w.StagedEvent?
    ensures Enabled(cfg, s, step) && Nearer(s, Next(cfg, s, step), c)
    ensures MayComplete(Next(cfg, s, step).callers[c]) ==> EventIn(Next(cfg, s, step).callers[c].main.work)
  {
    match s.callers[c].main.work {
      case StagedHead(_) => step := SendCommit(Main(c));
      case StagedRow(_) => step := UpdateHead(c);
      case StagedEvent(_) => step := UpdateRow(c);
    }
  }

  /** One more step towards the commit. */
  lemma Advance(cfg: Config, s: State, c: CallerId) returns (step: Step)
    requires DbOk(cfg.hashing, s.db) && HeadHeldOnce(s)
    requires c in s.callers && CallerOk(cfg, s, c) && MayComplete(s.callers[c]) && CanBuild(cfg, s, s.callers[c])
    ensures Enabled(cfg, s, step) && Nearer(s, Next(cfg, s, step), c)
    ensures var t := Next(cfg, s, step);
            IsCompleted(t, s.callers[c].key) || CanBuild(cfg, t, t.callers[c])
  {
    var a := s.callers[c];
    if a.main.Committing? {
      CommitCompletes(cfg, s, c);
      step := Commit(Main(c));
    } else if a.main.work.LockedRow? {
      step := AdvanceToHead(cfg, s, c);
      StaysAvailable(cfg, s, Next(cfg, s, step), a, Next(cfg, s, step).callers[c]);
    } else if a.main.work.LockedHead? {
      step := InsertAvailable(cfg, s, c);
    } else {
      step := StagedAdvances(cfg, s, c);
    }
  }

  ghost predicate HeadHeldOnce(s: State)
  {
    forall c, d :: c in s.callers && d in s.callers && HoldsHead(s.callers[c].main) && HoldsHead(s.callers[d].main) ==> c == d
  }

  lemma OneHeadHolder(s: State)
    requires LocksOk(s)
    ensures HeadHeldOnce(s)
  {
    forall c, d | c in s.callers && d in s.callers && HoldsHead(s.callers[c].main) && HoldsHead(s.callers[d].main)
      ensures c == d
    {
      assert c != d ==> Apart(s.callers[c], s.callers[d]);
    }
  }

  /** A completion past its row lock can be driven to its commit, if it has its event or
      some identifier and time give it one that repeats nothing. */
  lemma {:induction false} CanFinish(cfg: Config, s: State, c: CallerId) returns (t: State)
    requires Inv(cfg, s) && c in s.callers && MayComplete(s.callers[c]) && CanBuild(cfg, s, s.callers[c])
    ensures CanReach(cfg, s, t) && IsCompleted(t, s.callers[c].key)
    decreases Remaining(s, s.callers[c])
  {
    OneHeadHolder(s);
    assert CallerOk(cfg, s, c);
    var step := Advance(cfg, s, c);
    var n := Next(cfg, s, step);
    StepReaches(cfg, s, step);
    if IsCompleted(n, s.callers[c].key) {
      t := n;
    } else {
      StepKeepsInv(cfg, s, step);
      t := CanFinish(cfg, n, c);
      ReachTrans(cfg, s, n, t);
    }
  }

  /** Without a completion under way an expired reservation never completes. */
  lemma ExpiredNeedsCompletion(cfg: Config, s: State, k: Key, t: State)
    requires Reachable(cfg, s) && Expired(s, k) && !CompletionUnderWay(s, k) && CanReach(cfg, s, t)
    ensures !IsCompleted(t, k)
  {
    ReachableInv(cfg, s);
    var steps :| Runs(cfg, s, steps, t);
    DeadNeverCompletes(cfg, s, steps, t, k);
  }

  /** Every completion of this key under way has its event or can build one. */
  ghost predicate EventsAvailable(cfg: Config, s: State, k: Key)
  {
    forall c :: c in s.callers && s.callers[c].key == k && MayComplete(s.callers[c]) ==> CanBuild(cfg, s, s.callers[c])
  }

  /** An expired reservation can still complete if and only if a completion is past its
      row lock and has not ended: this is when a `stale` answer of the unlocked poll is
      not final. */
  lemma ExpiredCompletesIff(cfg: Config, s: State, k: Key)
    requires Reachable(cfg, s) && Expired(s, k) && EventsAvailable(cfg, s, k)
    ensures (exists t :: CanReach(cfg, s, t) && IsCompleted(t, k)) <==> CompletionUnderWay(s, k)
  {
    if CompletionUnderWay(s, k) {
      ReachableInv(cfg, s);
      var c :| c in s.callers && s.callers[c].key == k && MayComplete(s.callers[c]);
      var t := CanFinish(cfg, s, c);
    } else {
      forall t | CanReach(cfg, s, t) ensures !IsCompleted(t, k) { ExpiredNeedsCompletion(cfg, s, k, t); }
    }
  }

  // ----- Verification while completions go on -----

  lemma AllArePrimary(cfg: Config, s: State)
    requires Reachable(cfg, s)
    ensures PrimaryEvents(s.db.events) == s.db.events && ChainIntact(cfg.hashing, s.db.events) && RowsMatchEvents(s.db)
    ensures s.db.heads == map[PRIMARY := ChainHead(|s.db.events|, Head(StoredHash, s.db.events))]
  {
    TablesKnown(cfg, s);
  }

  /** The verifier's four statements, at four moments of one run, accept if and only if no
      completion committed between the first and the third. */
  lemma VerifierAcceptsIff(cfg: Config, s1: State, s2: State, s3: State, s4: State)
    requires Reachable(cfg, s1) && CanReach(cfg, s1, s2) && CanReach(cfg, s2, s3) && CanReach(cfg, s3, s4)
    ensures Sound(cfg.hashing, s1.db, s2.db, s3.db, s4.db) <==> |s1.db.events| == |s3.db.events|
  {
    ReachableThen(cfg, s1, s2);
    ReachableThen(cfg, s2, s3);
    ReachableThen(cfg, s3, s4);
    ReachTrans(cfg, s1, s2, s3);
    EventsGrow(cfg, s1, s3);
    AllArePrimary(cfg, s1);
    AllArePrimary(cfg, s2);
    AllArePrimary(cfg, s3);
    AllArePrimary(cfg, s4);
  }

  lemma EventsGrow(cfg: Config, s: State, t: State)
    requires Reachable(cfg, s) && CanReach(cfg, s, t)
    ensures s.db.events <= t.db.events
  {
    ReachLater(cfg, s, t);
  }
}

/** What can always be had: from every reachable state, whatever is under way, a retry of a
    completed key can get its result, a first request and its owner can succeed, and a
    failing owner can mark its row. */
module DurableService {
  import opened Wrappers
  import opened HashChain
  import opened PostgresAudit
  import opened DurableProtocol
  import opened DurableInvariant
  import opened DurableSteps
  import opened DurableAgreement
  import opened DurableStaleness

  lemma Then(cfg: Config, s: State, t: State, step: Step, u: State)
    requires CanReach(cfg, s, t) && Enabled(cfg, t, step) && u == Next(cfg, t, step)
    ensures CanReach(cfg, s, u)
  {
    StepReaches(cfg, t, step);
    ReachTrans(cfg, s, t, u);
  }

  lemma Stays(cfg: Config, s: State)
    ensures CanReach(cfg, s, s)
  {
    assert Runs(cfg, s, [], s);
  }

  // ----- Everyone else can stop -----

  predicate Stopped(a: Caller)
  {
    !HasConn(a.phase) && !HasGate(a.phase) && !Live(a.main) && !Live(a.recovery)
  }

  /** No other caller holds a lock, a connection or a gate. */
  predicate Alone(s: State, c: CallerId)
  {
    forall d :: d in s.callers && d != c ==> Stopped(s.callers[d])
  }

  lemma CrashStops(cfg: Config, s: State, d: CallerId) returns (a: Caller)
    requires d in s.callers
    ensures CanReach(cfg, s, With(s, d, a))
    ensures !HasConn(a.phase) && !HasGate(a.phase) && a == s.callers[d].(phase := a.phase)
  {
    a := s.callers[d];
    Stays(cfg, s);
    if a.phase.Finished? || a.phase.Crashed? {
      assert With(s, d, a) == s;
    } else {
      a := a.(phase := Crashed);
      Then(cfg, s, s, Crash(d), With(s, d, a));
    }
  }

  lemma AbortStops(cfg: Config, s: State, sid: Session) returns (tx: Tx)
    requires sid.c in s.callers
    ensures CanReach(cfg, s, With(s, sid.c, WithTx(s.callers[sid.c], sid, tx))) && !Live(tx)
  {
    tx := TxOf(s.callers[sid.c], sid);
    Stays(cfg, s);
    if Live(tx) {
      tx := Ended(tx.work, false);
      Then(cfg, s, s, Abort(sid), With(s, sid.c, WithTx(s.callers[sid.c], sid, tx)));
    } else {
      assert With(s, sid.c, WithTx(s.callers[sid.c], sid, tx)) == s;
    }
  }

  lemma OneStops(cfg: Config, s: State, d: CallerId) returns (a: Caller)
    requires d in s.callers
    ensures CanReach(cfg, s, With(s, d, a)) && Stopped(a)
  {
    a := CrashStops(cfg, s, d);
    var t := With(s, d, a);
    var main := AbortStops(cfg, t, Main(d));
    ReachTrans(cfg, s, t, With(t, d, a.(main := main)));
    a := a.(main := main);
    assert With(t, d, a) == With(s, d, a);
    t := With(s, d, a);
    var recovery := AbortStops(cfg, t, Recovery(d));
    ReachTrans(cfg, s, t, With(t, d, a.(recovery := recovery)));
    a := a.(recovery := recovery);
    assert With(t, d, a) == With(s, d, a);
  }

  /** Only records of other callers differ. */
  predicate OthersOnly(s: State, t: State, c: CallerId)
  {
    t == s.(callers := t.callers) && t.callers.Keys == s.callers.Keys && (c in s.callers ==> t.callers[c] == s.callers[c])
  }

  lemma {:induction false} TheseStop(cfg: Config, s: State, c: CallerId, todo: set<CallerId>) returns (t: State)
    requires todo <= s.callers.Keys - {c}
    requires forall d :: d in s.callers && d != c && d !in todo ==> Stopped(s.callers[d])
    ensures CanReach(cfg, s, t) && Alone(t, c) && OthersOnly(s, t, c)
    decreases |todo|
  {
    if todo == {} {
      t := s;
      Stays(cfg, s);
    } else {
      var d :| d in todo;
      var a := OneStops(cfg, s, d);
      t := TheseStop(cfg, With(s, d, a), c, todo - {d});
      ReachTrans(cfg, s, With(s, d, a), t);
    }
  }

  lemma OthersCanStop(cfg: Config, s: State, c: CallerId) returns (t: State)
    ensures CanReach(cfg, s, t) && Alone(t, c) && OthersOnly(s, t, c)
  {
    t := TheseStop(cfg, s, c, s.callers.Keys - {c});
  }

  lemma NobodyHasAConnection(s: State, c: CallerId, w: Worker)
    requires Alone(s, c) && (c in s.callers ==> !HasConn(s.callers[c].phase))
    ensures ConnHolders(s, w) == {}
  {
  }

  // ----- Replays -----

  lemma SettledIsUnlocked(cfg: Config, s: State, k: Key)
    requires CallersOk(cfg, s) && k in s.db.rows && !s.db.rows[k].state.Reserved?
    ensures RowUnlocked(s, k)
  {
    forall d | d in s.callers && s.callers[d].key == k ensures !LocksRow(s.callers[d]) {
      assert CallerOk(cfg, s, d);
    }
  }

  lemma RowsUnlocked(s: State, c: CallerId, a: Caller, k: Key)
    requires RowUnlocked(s, k) && !LocksRow(a)
    ensures RowUnlocked(With(s, c, a), k)
  {
  }

  lemma NewcomerArrives(cfg: Config, s: State, c: CallerId, w: Worker, k: Key, d: Digest)
    requires c !in s.callers && |ConnHolders(s, w)| < cfg.poolSize
    ensures CanReach(cfg, s, With(s, c, Caller(w, k, d, ReserveInsert, NoTx, NoTx)))
  {
    var a := Caller(w, k, d, ReserveCheckout, NoTx, NoTx);
    Stays(cfg, s);
    Then(cfg, s, s, Start(c, w, k, d), With(s, c, a));
    assert ConnHolders(With(s, c, a), w) == ConnHolders(s, w);
    assert With(With(s, c, a), c, a.(phase := ReserveInsert)) == With(s, c, a.(phase := ReserveInsert));
    Then(cfg, s, With(s, c, a), Checkout(c), With(s, c, a.(phase := ReserveInsert)));
  }

  /** One more step of `c`, which changes its record alone. */
  lemma Onward(cfg: Config, s: State, c: CallerId, a: Caller, step: Step, b: Caller)
    requires CanReach(cfg, s, With(s, c, a)) && Enabled(cfg, With(s, c, a), step)
    requires Next(cfg, With(s, c, a), step) == With(With(s, c, a), c, b)
    ensures CanReach(cfg, s, With(s, c, b))
  {
    assert With(With(s, c, a), c, b) == With(s, c, b);
    Then(cfg, s, With(s, c, a), step, With(s, c, b));
  }

  predicate HasResult(s: State, h: Hashing, k: Key, d: Digest)
  {
    && IsCompleted(s, k) && s.db.rows[k].requestDigest == d
    && s.db.rows[k].state.responseHash == h.response(s.db.rows[k].state.document)
  }

  lemma SharePath(cfg: Config, s: State, c: CallerId, w: Worker, k: Key, d: Digest)
    requires CanReach(cfg, s, With(s, c, Caller(w, k, d, ReserveInsert, NoTx, NoTx)))
    requires HasResult(s, cfg.hashing, k, d) && RowUnlocked(s, k)
    ensures var seen := CompletedSeen(s.db.rows[k].state.document, s.db.rows[k].state.receipt);
            CanReach(cfg, s, With(s, c, Caller(w, k, d, ReserveCommit(seen), Open(Share), NoTx)))
  {
    var seen := CompletedSeen(s.db.rows[k].state.document, s.db.rows[k].state.receipt);
    var a := Caller(w, k, d, ReserveInsert, NoTx, NoTx);
    var b := a.(phase := ReserveShare);
    Onward(cfg, s, c, a, InsertConflict(c), b);
    RowsUnlocked(s, c, b, k);
    Onward(cfg, s, c, b, ShareRow(c), Caller(w, k, d, ReserveCommit(seen), Open(Share), NoTx));
  }

  lemma CommitPath(cfg: Config, s: State, c: CallerId, a: Caller, r: Response, receipt: Digest)
    requires a.phase == ReserveCommit(CompletedSeen(r, receipt)) && a.main == Open(Share)
    requires CanReach(cfg, s, With(s, c, a))
    ensures CanReach(cfg, s, With(s, c, a.(phase := Finished(Success(r, receipt, true)), main := NoTx)))
  {
    Onward(cfg, s, c, a, SendCommit(Main(c)), a.(main := Committing(Share)));
    Onward(cfg, s, c, a.(main := Committing(Share)), Commit(Main(c)), a.(main := Ended(Share, true)));
    Onward(cfg, s, c, a.(main := Ended(Share, true)), Ack(c), a.(phase := Finished(Success(r, receipt, true)), main := NoTx));
  }

  /** A retry of a completed key that finds a free connection gets the stored result by its
      own steps alone; nothing else changes. */
  lemma ReplaySucceeds(cfg: Config, s: State, c: CallerId, w: Worker, k: Key)
    requires Reachable(cfg, s) && IsCompleted(s, k) && c !in s.callers && |ConnHolders(s, w)| < cfg.poolSize
    ensures var row := s.db.rows[k];
            var outcome := Success(row.state.document, row.state.receipt, true);
            CanReach(cfg, s, With(s, c, Caller(w, k, row.requestDigest, Finished(outcome), NoTx, NoTx)))
  {
    ReachableInv(cfg, s);
    var row := s.db.rows[k];
    NewcomerArrives(cfg, s, c, w, k, row.requestDigest);
    SettledIsUnlocked(cfg, s, k);
    SharePath(cfg, s, c, w, k, row.requestDigest);
    var seen := CompletedSeen(row.state.document, row.state.receipt);
    CommitPath(cfg, s, c, Caller(w, k, row.requestDigest, ReserveCommit(seen), Open(Share), NoTx), seen.response, seen.receipt);
  }

  /** The outcome that a caller has in the end. */
  predicate Got(t: State, c: CallerId, outcome: Outcome)
  {
    c in t.callers && t.callers[c].phase == Finished(outcome)
  }

  /** From every reachable state, at every worker, a retry of a completed key can get the
      stored result: whoever has a connection of a full pool can give it back. */
  lemma ReplayCanSucceed(cfg: Config, s: State, c: CallerId, w: Worker, k: Key) returns (t: State)
    requires Reachable(cfg, s) && IsCompleted(s, k) && c !in s.callers && cfg.poolSize >= 1
    ensures CanReach(cfg, s, t) && t.db == s.db
    ensures c in t.callers && t.callers[c].worker == w && t.callers[c].key == k && t.callers[c].digest == s.db.rows[k].requestDigest
    ensures Got(t, c, Success(s.db.rows[k].state.document, s.db.rows[k].state.receipt, true))
  {
    var u := OthersCanStop(cfg, s, c);
    ReachableThen(cfg, s, u);
    NobodyHasAConnection(u, c, w);
    ReplaySucceeds(cfg, u, c, w, k);
    var row := s.db.rows[k];
    t := With(u, c, Caller(w, k, row.requestDigest, Finished(Success(row.state.document, row.state.receipt, true)), NoTx, NoTx));
    ReachTrans(cfg, s, u, t);
  }

  // ----- Owners -----

  /** The caller has reserved its key: its operation may run. */
  predicate IsOwner(s: State, c: CallerId)
  {
    c in s.callers && s.callers[c].phase.Operating? && s.callers[c].main.NoTx? && s.callers[c].recovery.NoTx?
  }

  predicate HasReservation(s: State, a: Caller)
  {
    RowMatches(s, a) && s.clock < s.db.rows[a.key].expiresAt
  }

  lemma AloneIsFree(s: State, c: CallerId, a: Caller)
    requires Alone(s, c)
    ensures !LocksRow(a) && !HoldsS(a.main) ==> RowFree(With(s, c, a), a.key)
    ensures !HoldsHead(a.main) ==> HeadFree(With(s, c, a))
    ensures !HasGate(a.phase) ==> GateFree(With(s, c, a), a.worker)
  {
  }

  lemma ToItsGate(cfg: Config, s: State, c: CallerId, r: Response)
    requires Alone(s, c) && IsOwner(s, c)
    ensures CanReach(cfg, s, With(s, c, s.callers[c].(phase := CompleteCheckout(r))))
  {
    var a := s.callers[c];
    Stays(cfg, s);
    assert With(s, c, a) == s;
    Onward(cfg, s, c, a, Operate(c, r), a.(phase := CompleteGate(r)));
    AloneIsFree(s, c, a.(phase := CompleteGate(r)));
    Onward(cfg, s, c, a.(phase := CompleteGate(r)), TakeGate(c), a.(phase := CompleteCheckout(r)));
  }

  lemma ToItsRow(cfg: Config, s: State, c: CallerId, a: Caller, r: Response)
    requires Alone(s, c) && a.phase == CompleteCheckout(r) && a.main.NoTx? && a.recovery.NoTx?
    requires HasReservation(s, a) && cfg.poolSize >= 1 && CanReach(cfg, s, With(s, c, a))
    ensures CanReach(cfg, s, With(s, c, a.(phase := Completing(r), main := Open(LockedRow))))
  {
    NobodyHasAConnection(With(s, c, a), c, a.worker);
    Onward(cfg, s, c, a, Checkout(c), a.(phase := Completing(r)));
    AloneIsFree(s, c, a.(phase := Completing(r)));
    Onward(cfg, s, c, a.(phase := Completing(r)), LockRow(c), a.(phase := Completing(r), main := Open(LockedRow)));
  }

  lemma ToItsEvent(cfg: Config, s: State, c: CallerId, a: Caller, eventId: nat, occurredAt: nat) returns (e: EventRow)
    requires Alone(s, c) && a.phase.Completing? && a.main == Open(LockedRow) && a.recovery.NoTx?
    requires CanReach(cfg, s, With(s, c, a)) && PRIMARY in s.db.heads && GivesEvent(cfg, s, a, eventId, occurredAt)
    ensures EventOf(cfg, s.db.heads[PRIMARY], a, eventId, a.phase.response, occurredAt) == Ok(e)
    ensures CanReach(cfg, s, With(s, c, a.(main := Open(StagedEvent(e)))))
  {
    var head := s.db.heads[PRIMARY];
    e := EventOf(cfg, head, a, eventId, a.phase.response, occurredAt).value;
    AloneIsFree(s, c, a);
    Onward(cfg, s, c, a, LockHead(c), a.(main := Open(LockedHead(head))));
    Onward(cfg, s, c, a.(main := Open(LockedHead(head))), InsertEvent(c, eventId, occurredAt), a.(main := Open(StagedEvent(e))));
  }

  lemma ToItsCommit(cfg: Config, s: State, c: CallerId, a: Caller, e: EventRow)
    requires a.phase.Completing? && a.main == Open(StagedEvent(e)) && CanReach(cfg, s, With(s, c, a))
    requires RowMatches(s, a) && HeadMatches(s, e)
    ensures CanReach(cfg, s, With(s, c, a.(main := Committing(StagedHead(e)))))
  {
    Onward(cfg, s, c, a, UpdateRow(c), a.(main := Open(StagedRow(e))));
    Onward(cfg, s, c, a.(main := Open(StagedRow(e))), UpdateHead(c), a.(main := Open(StagedHead(e))));
    Onward(cfg, s, c, a.(main := Open(StagedHead(e))), SendCommit(Main(c)), a.(main := Committing(StagedHead(e))));
  }

  /** The completion of the caller: its event is the next one, its row holds the response
      and the hash of the event, and that is what it returns. */
  predicate Served(s: State, t: State, c: CallerId, k: Key, d: Digest, r: Response)
  {
    && |t.db.events| == |s.db.events| + 1 && s.db.events <= t.db.events
    && (var e := t.db.events[|s.db.events|];
        && e.doc.key == k && e.doc.requestDigest == d && e.doc.response == r
        && k in t.db.rows && t.db.rows[k].requestDigest == d && t.db.rows[k].state.Completed?
        && t.db.rows[k].state.document == r && t.db.rows[k].state.receipt == e.eventHash
        && Got(t, c, Success(r, e.eventHash, false)))
  }

  lemma ToItsResult(cfg: Config, s: State, c: CallerId, a: Caller, e: EventRow) returns (t: State)
    requires a.phase.Completing? && a.main == Committing(StagedHead(e)) && CanReach(cfg, s, With(s, c, a))
    requires a.key in s.db.rows && s.db.rows[a.key].requestDigest == a.digest
    requires e.doc.key == a.key && e.doc.requestDigest == a.digest && e.doc.response == a.phase.response
    ensures CanReach(cfg, s, t) && Served(s, t, c, a.key, a.digest, a.phase.response)
  {
    var u := Next(cfg, With(s, c, a), Commit(Main(c)));
    Then(cfg, s, With(s, c, a), Commit(Main(c)), u);
    t := Next(cfg, u, Ack(c));
    Then(cfg, s, u, Ack(c), t);
  }

  lemma OwnerAlone(cfg: Config, s: State, c: CallerId, r: Response) returns (t: State)
    requires Alone(s, c) && IsOwner(s, c) && HasReservation(s, s.callers[c]) && cfg.poolSize >= 1
    requires EventAvailable(cfg, s, s.callers[c].(phase := Completing(r)))
    ensures CanReach(cfg, s, t) && Served(s, t, c, s.callers[c].key, s.callers[c].digest, r)
  {
    var a := s.callers[c].(phase := Completing(r));
    var eventId, occurredAt :| GivesEvent(cfg, s, a, eventId, occurredAt);
    ToItsGate(cfg, s, c, r);
    ToItsRow(cfg, s, c, s.callers[c].(phase := CompleteCheckout(r)), r);
    var e := ToItsEvent(cfg, s, c, a.(main := Open(LockedRow)), eventId, occurredAt);
    ToItsCommit(cfg, s, c, a.(main := Open(StagedEvent(e))), e);
    t := ToItsResult(cfg, s, c, a.(main := Committing(StagedHead(e))), e);
  }

  lemma OwnerKnown(cfg: Config, s: State, c: CallerId)
    requires Reachable(cfg, s) && c in s.callers && s.callers[c].phase.Operating?
    ensures IsOwner(s, c) && RowMatches(s, s.callers[c])
  {
    CallerKnown(cfg, s, c);
  }

  lemma AvailableAnywhere(cfg: Config, s: State, t: State, a: Caller, b: Caller)
    requires t.db.heads == s.db.heads && t.db.events == s.db.events
    requires a.phase.Completing? && SameRequest(a, b) && EventAvailable(cfg, s, a)
    ensures EventAvailable(cfg, t, b)
  {
    var eventId, occurredAt :| GivesEvent(cfg, s, a, eventId, occurredAt);
    assert GivesEvent(cfg, t, b, eventId, occurredAt);
  }

  /** From every reachable state an owner whose reservation has not expired can succeed with
      any response for which some identifier and time give an event that repeats nothing. */
  lemma OwnerCanSucceed(cfg: Config, s: State, c: CallerId, r: Response) returns (t: State)
    requires Reachable(cfg, s) && c in s.callers && s.callers[c].phase.Operating? && cfg.poolSize >= 1
    requires s.callers[c].key in s.db.rows && s.clock < s.db.rows[s.callers[c].key].expiresAt
    requires EventAvailable(cfg, s, s.callers[c].(phase := Completing(r)))
    ensures CanReach(cfg, s, t) && Served(s, t, c, s.callers[c].key, s.callers[c].digest, r)
  {
    var u := OthersCanStop(cfg, s, c);
    OwnerKnown(cfg, s, c);
    AvailableAnywhere(cfg, s, u, s.callers[c].(phase := Completing(r)), u.callers[c].(phase := Completing(r)));
    t := OwnerAlone(cfg, u, c, r);
    ReachTrans(cfg, s, u, t);
  }

  // ----- First requests -----

  lemma AloneStill(s: State, c: CallerId, a: Caller)
    requires Alone(s, c)
    ensures Alone(With(s, c, a), c)
  {
  }

  /** The reservation is committed and acknowledged. */
  function Reserving(cfg: Config, s: State, c: CallerId, w: Worker, k: Key, d: Digest): State
  {
    With(s, c, Caller(w, k, d, Operating, NoTx, NoTx))
      .(db := s.db.(rows := s.db.rows[k := Row(d, s.clock + cfg.ttl, Reserved)]),
        owners := s.owners[k := c], runs := s.runs + multiset{k})
  }

  lemma ToItsReservation(cfg: Config, s: State, c: CallerId, w: Worker, k: Key, d: Digest)
    requires Alone(s, c) && c !in s.callers && k !in s.db.rows && cfg.poolSize >= 1
    ensures CanReach(cfg, s, Reserving(cfg, s, c, w, k, d))
  {
    var a := Caller(w, k, d, ReserveInsert, NoTx, NoTx);
    var insert := Insert(Row(d, s.clock + cfg.ttl, Reserved));
    var b := Caller(w, k, d, ReserveCommit(OwnerSeen), Open(insert), NoTx);
    NobodyHasAConnection(s, c, w);
    NewcomerArrives(cfg, s, c, w, k, d);
    AloneIsFree(s, c, a);
    Onward(cfg, s, c, a, InsertRow(c), b);
    Onward(cfg, s, c, b, SendCommit(Main(c)), b.(main := Committing(insert)));
    ReservationCommits(cfg, s, c, b.(main := Committing(insert)));
  }

  lemma ReservationCommits(cfg: Config, s: State, c: CallerId, b: Caller)
    requires b.phase == ReserveCommit(OwnerSeen) && b.main == Committing(Insert(Row(b.digest, s.clock + cfg.ttl, Reserved)))
    requires b.recovery.NoTx? && CanReach(cfg, s, With(s, c, b))
    ensures CanReach(cfg, s, Reserving(cfg, s, c, b.worker, b.key, b.digest))
  {
    var t := Next(cfg, With(s, c, b), Commit(Main(c)));
    Then(cfg, s, With(s, c, b), Commit(Main(c)), t);
    var u := Reserving(cfg, s, c, b.worker, b.key, b.digest);
    assert Next(cfg, t, Ack(c)).callers == u.callers;
    Then(cfg, s, t, Ack(c), u);
  }

  /** From every reachable state the first request of a key can be served: it reserves the
      key, runs its operation and completes. */
  lemma FirstRequestCanSucceed(cfg: Config, s: State, c: CallerId, w: Worker, k: Key, d: Digest, r: Response) returns (t: State)
    requires k !in s.db.rows && c !in s.callers && cfg.poolSize >= 1 && cfg.ttl >= 1
    requires EventAvailable(cfg, s, Caller(w, k, d, Completing(r), NoTx, NoTx))
    ensures CanReach(cfg, s, t) && Served(s, t, c, k, d, r)
  {
    var u := OthersCanStop(cfg, s, c);
    ToItsReservation(cfg, u, c, w, k, d);
    var v := Reserving(cfg, u, c, w, k, d);
    ReachTrans(cfg, s, u, v);
    AvailableAnywhere(cfg, s, v, Caller(w, k, d, Completing(r), NoTx, NoTx), v.callers[c].(phase := Completing(r)));
    AloneStill(u, c, v.callers[c]);
    t := OwnerAlone(cfg, v, c, r);
    ReachTrans(cfg, s, v, t);
  }

  // ----- Failures -----

  lemma ToItsFailure(cfg: Config, s: State, c: CallerId, a: Caller, e: Error) returns (t: State)
    requires Alone(s, c) && a.phase == FailCheckout(e) && !Live(a.main) && a.recovery.NoTx? && cfg.poolSize >= 1
    requires CanReach(cfg, s, With(s, c, a)) && RowMatches(s, a)
    ensures CanReach(cfg, s, t) && Got(t, c, Raised(e)) && a.key in t.db.rows && t.db.rows[a.key].state.Failed?
  {
    NobodyHasAConnection(With(s, c, a), c, a.worker);
    Onward(cfg, s, c, a, Checkout(c), a.(phase := Failing(e)));
    t := FailureUpdates(cfg, s, c, a.(phase := Failing(e)));
  }

  lemma FailureUpdates(cfg: Config, s: State, c: CallerId, b: Caller) returns (t: State)
    requires Alone(s, c) && b.phase.Failing? && !Live(b.main) && b.recovery.NoTx?
    requires CanReach(cfg, s, With(s, c, b)) && RowMatches(s, b)
    ensures CanReach(cfg, s, t) && Got(t, c, Raised(b.phase.reason)) && b.key in t.db.rows && t.db.rows[b.key].state.Failed?
  {
    AloneIsFree(s, c, b);
    Onward(cfg, s, c, b, FailUpdate(c), b.(recovery := Open(Fail(true))));
    Onward(cfg, s, c, b.(recovery := Open(Fail(true))), SendCommit(Recovery(c)), b.(recovery := Committing(Fail(true))));
    t := FailureCommits(cfg, s, c, b.(recovery := Committing(Fail(true))));
  }

  lemma FailureCommits(cfg: Config, s: State, c: CallerId, b: Caller) returns (t: State)
    requires b.phase.Failing? && b.recovery == Committing(Fail(true))
    requires CanReach(cfg, s, With(s, c, b)) && b.key in s.db.rows
    ensures CanReach(cfg, s, t) && Got(t, c, Raised(b.phase.reason)) && b.key in t.db.rows && t.db.rows[b.key].state.Failed?
  {
    var u := Next(cfg, With(s, c, b), Commit(Recovery(c)));
    Then(cfg, s, With(s, c, b), Commit(Recovery(c)), u);
    t := Next(cfg, u, Ack(c));
    Then(cfg, s, u, Ack(c), t);
  }

  /** From every reachable state an owner on its way to `fail` can mark its reserved row
      failed and raise its error, also when its completion is still in doubt. */
  lemma FailureCanBeRecorded(cfg: Config, s: State, c: CallerId) returns (t: State)
    requires Reachable(cfg, s) && c in s.callers && s.callers[c].phase.FailCheckout? && cfg.poolSize >= 1
    requires s.callers[c].key in s.db.rows && s.db.rows[s.callers[c].key].state.Reserved?
    ensures CanReach(cfg, s, t) && Got(t, c, Raised(s.callers[c].phase.reason))
    ensures s.callers[c].key in t.db.rows && t.db.rows[s.callers[c].key].state.Failed?
  {
    CallerKnown(cfg, s, c);
    var u := OthersCanStop(cfg, s, c);
    var main := AbortStops(cfg, u, Main(c));
    t := ToItsFailure(cfg, u, c, u.callers[c].(main := main), s.callers[c].phase.reason);
    ReachTrans(cfg, s, u, t);
  }

  /** So can an owner that has met an error anywhere before. */
  lemma ErrorCanBeRecorded(cfg: Config, s: State, c: CallerId, e: Error) returns (t: State)
    requires Reachable(cfg, s) && c in s.callers && cfg.poolSize >= 1
    requires var p := s.callers[c].phase; p.Operating? || p.CompleteGate? || p.CompleteCheckout? || p.Completing?
    requires s.callers[c].key in s.db.rows && s.db.rows[s.callers[c].key].state.Reserved?
    ensures CanReach(cfg, s, t) && Got(t, c, Raised(e))
    ensures s.callers[c].key in t.db.rows && t.db.rows[s.callers[c].key].state.Failed?
  {
    var u := Next(cfg, s, ClientError(c, e));
    StepReaches(cfg, s, ClientError(c, e));
    ReachableThen(cfg, s, u);
    t := FailureCanBeRecorded(cfg, u, c);
    ReachTrans(cfg, s, u, t);
  }
}

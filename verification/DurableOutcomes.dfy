/** What a caller is told, read off the stored row: results and refusals of `execute_detailed`
    step by step and over runs. */
module DurableOutcomes {
  import opened HashChain
  import opened PostgresAudit
  import opened DurableProtocol
  import opened DurableInvariant
  import opened DurableSteps
  import opened DurableAgreement

  // ----- Retries -----

  /** A retry of a request is given the stored result as a replay, told that the first
      attempt failed or that its reservation has expired, or left to wait. */
  predicate Told(row: Row, now: nat, phase: Phase)
  {
    && (row.state.Completed? ==> phase == Finished(Success(row.state.document, row.state.receipt, true)))
    && (row.state.Failed? ==> phase == Finished(Raised(FailedBefore)))
    && (row.state.Reserved? && row.expiresAt <= now ==> phase == Finished(Raised(Stale)))
    && (row.state.Reserved? && now < row.expiresAt ==> phase == PollSleep)
  }

  /** The stored hash of a completed row is that of its response. */
  predicate HashRight(h: Hashing, row: Row)
  {
    row.state.Completed? ==> row.state.responseHash == h.response(row.state.document)
  }

  lemma PollTells(cfg: Config, s: State, c: CallerId)
    requires Enabled(cfg, s, Poll(c)) && RowSeen(s, s.callers[c]) && HashRight(cfg.hashing, s.db.rows[s.callers[c].key])
    ensures Told(s.db.rows[s.callers[c].key], s.clock, Next(cfg, s, Poll(c)).callers[c].phase)
  {
  }

  /** A poll finds the row, with the caller's digest, and ends as that row says. */
  lemma PollAnswers(cfg: Config, s: State, c: CallerId)
    requires Reachable(cfg, s) && Enabled(cfg, s, Poll(c))
    ensures s.callers[c].key in s.db.rows && s.db.rows[s.callers[c].key].requestDigest == s.callers[c].digest
    ensures Told(s.db.rows[s.callers[c].key], s.clock, Next(cfg, s, Poll(c)).callers[c].phase)
  {
    CallerKnown(cfg, s, c);
    TablesKnown(cfg, s);
    PollTells(cfg, s, c);
  }

  /** Past its row insert or share a caller never returns to them; while it commits, what
      it has seen stays. */
  predicate Sees(a: Caller, seen: Seen)
  {
    && !a.phase.ReserveCheckout? && !a.phase.ReserveInsert? && !a.phase.ReserveShare?
    && (a.phase.ReserveCommit? ==> a.phase.seen == seen)
  }

  predicate HasSeen(s: State, c: CallerId, seen: Seen) { c in s.callers && Sees(s.callers[c], seen) }

  lemma MovedSees(cfg: Config, s: State, step: Step, seen: Seen)
    requires Enabled(cfg, s, step) && !step.Tick? && !step.Commit?
    requires Actor(step) in s.callers && Sees(s.callers[Actor(step)], seen)
    ensures Sees(Moved(cfg, s, step), seen)
  {
  }

  lemma OthersStay(cfg: Config, s: State, step: Step, d: CallerId)
    requires Enabled(cfg, s, step) && (step.Tick? || d != Actor(step))
    ensures d in s.callers <==> d in Next(cfg, s, step).callers
    ensures d in s.callers ==> Next(cfg, s, step).callers[d] == s.callers[d]
  {
  }

  lemma StepKeepsSeen(cfg: Config, s: State, step: Step, c: CallerId, seen: Seen)
    requires HasSeen(s, c, seen) && Enabled(cfg, s, step)
    ensures HasSeen(Next(cfg, s, step), c, seen)
  {
    if step.Tick? || c != Actor(step) {
      OthersStay(cfg, s, step, c);
    } else if !step.Commit? {
      MovedSees(cfg, s, step, seen);
    }
  }

  lemma {:induction false} RunKeepsSeen(cfg: Config, s: State, steps: seq<Step>, t: State, c: CallerId, seen: Seen)
    requires HasSeen(s, c, seen) && Runs(cfg, s, steps, t)
    ensures HasSeen(t, c, seen)
    decreases |steps|
  {
    if |steps| > 0 {
      StepKeepsSeen(cfg, s, steps[0], c, seen);
      RunKeepsSeen(cfg, Next(cfg, s, steps[0]), steps[1..], t, c, seen);
    }
  }

  /** `reserve` for a key that has a row: another digest is a conflict at once; … */
  lemma OtherDigestConflicts(cfg: Config, s: State, c: CallerId)
    requires Reachable(cfg, s) && Enabled(cfg, s, ShareRow(c))
    ensures s.callers[c].key in s.db.rows
    ensures s.db.rows[s.callers[c].key].requestDigest != s.callers[c].digest
            <==> Next(cfg, s, ShareRow(c)).callers[c].phase == Finished(Raised(Conflict))
  {
    CallerKnown(cfg, s, c);
    TablesKnown(cfg, s);
  }

  lemma ShareSees(cfg: Config, s: State, c: CallerId)
    requires Enabled(cfg, s, ShareRow(c)) && RowSeen(s, s.callers[c]) && HashRight(cfg.hashing, s.db.rows[s.callers[c].key])
    ensures var p := Next(cfg, s, ShareRow(c)).callers[c].phase;
            p.ReserveCommit? && !p.seen.OwnerSeen? && Told(s.db.rows[s.callers[c].key], s.clock, OutcomeOf(p.seen))
  {
  }

  lemma AckTells(cfg: Config, t: State, c: CallerId)
    requires Enabled(cfg, t, Ack(c)) && t.callers[c].phase.ReserveCommit? && !t.callers[c].phase.seen.OwnerSeen?
    ensures Next(cfg, t, Ack(c)).callers[c].phase == OutcomeOf(t.callers[c].phase.seen)
  {
  }

  /** … its own digest is answered as the row said when it was read, whatever is done
      before the commit is acknowledged. */
  lemma ShareAnswers(cfg: Config, s: State, c: CallerId, t: State)
    requires Reachable(cfg, s) && Enabled(cfg, s, ShareRow(c)) && RowSeen(s, s.callers[c])
    requires CanReach(cfg, Next(cfg, s, ShareRow(c)), t)
    requires Enabled(cfg, t, Ack(c)) && t.callers[c].phase.ReserveCommit?
    ensures Told(s.db.rows[s.callers[c].key], s.clock, Next(cfg, t, Ack(c)).callers[c].phase)
  {
    TablesKnown(cfg, s);
    ShareSees(cfg, s, c);
    var n := Next(cfg, s, ShareRow(c));
    var steps :| Runs(cfg, n, steps, t);
    RunKeepsSeen(cfg, n, steps, t, c, n.callers[c].phase.seen);
    AckTells(cfg, t, c);
  }

  // ----- Owners -----

  /** An acknowledged completion returns its own response, not as a replay, with the
      receipt that is stored for it. */
  lemma OwnerIsAnswered(cfg: Config, s: State, c: CallerId)
    requires Reachable(cfg, s) && Enabled(cfg, s, Ack(c)) && s.callers[c].phase.Completing?
    ensures IsStored(s, s.callers[c].key, s.callers[c].phase.response)
    ensures Next(cfg, s, Ack(c)).callers[c].phase ==
            Finished(Success(s.callers[c].phase.response, s.db.rows[s.callers[c].key].state.receipt, false))
  {
    CallerKnown(cfg, s, c);
  }

  predicate IsStored(s: State, k: Key, r: Response)
  {
    k in s.db.rows && s.db.rows[k].state.Completed? && s.db.rows[k].state.document == r
  }

  /** The event that a completion inserts: the next of the chain, with the identifier and
      time it was given, for the request and the response of its owner. */
  predicate Documents(h: Hashing, e: EventRow, events: seq<EventRow>, a: Caller, r: Response, eventId: nat, occurredAt: nat)
  {
    && e.doc.eventId == eventId && e.doc.occurredAt == occurredAt
    && e.doc.chain == PRIMARY && e.doc.sequence == |events| + 1 && e.doc.previousHash == Head(StoredHash, events)
    && e.doc.key == a.key && e.doc.requestDigest == a.digest
    && e.doc.response == r && e.doc.decision == r.decision && e.doc.responseHash == h.response(r)
    && e.eventHash == h.event(e.doc)
  }

  lemma EventDocumentsCompletion(cfg: Config, s: State, c: CallerId, eventId: nat, occurredAt: nat)
    requires Reachable(cfg, s) && Enabled(cfg, s, InsertEvent(c, eventId, occurredAt))
    ensures var a, b := s.callers[c], Next(cfg, s, InsertEvent(c, eventId, occurredAt)).callers[c];
            b.phase.Completing? ==>
              && b.phase == a.phase && b.main.Open? && b.main.work.StagedEvent?
              && Documents(cfg.hashing, b.main.work.event, s.db.events, a, a.phase.response, eventId, occurredAt)
  {
    CallerKnown(cfg, s, c);
    TablesKnown(cfg, s);
  }

  /** The operation of a key has been started by the time its owner runs it. */
  ghost predicate OwnersStarted(s: State)
  {
    forall c :: c in s.callers && OwnerPhase(s.callers[c].phase) ==> s.runs[s.callers[c].key] >= 1
  }

  lemma MovedStarted(cfg: Config, s: State, step: Step)
    requires Enabled(cfg, s, step) && !step.Tick? && !step.Commit? && Actor(step) in s.callers
    requires OwnerPhase(s.callers[Actor(step)].phase) ==> s.runs[s.callers[Actor(step)].key] >= 1
    ensures OwnerPhase(Moved(cfg, s, step).phase) ==> Next(cfg, s, step).runs[Moved(cfg, s, step).key] >= 1
  {
  }

  lemma RunsGrow(cfg: Config, s: State, step: Step, k: Key)
    requires Enabled(cfg, s, step)
    ensures Next(cfg, s, step).runs[k] >= s.runs[k]
  {
  }

  lemma StepKeepsStarted(cfg: Config, s: State, step: Step)
    requires Enabled(cfg, s, step) && OwnersStarted(s)
    ensures OwnersStarted(Next(cfg, s, step))
  {
    var t := Next(cfg, s, step);
    forall c | c in t.callers && OwnerPhase(t.callers[c].phase) ensures t.runs[t.callers[c].key] >= 1 {
      if step.Tick? || c != Actor(step) {
        OthersStay(cfg, s, step, c);
        RunsGrow(cfg, s, step, t.callers[c].key);
      } else if step.Commit? {
        assert t.callers[c].phase == s.callers[c].phase && t.callers[c].key == s.callers[c].key;
      } else if !step.Start? {
        MovedStarted(cfg, s, step);
      }
    }
  }

  lemma {:induction false} RunKeepsStarted(cfg: Config, s: State, steps: seq<Step>, t: State)
    requires OwnersStarted(s) && Runs(cfg, s, steps, t)
    ensures OwnersStarted(t)
    decreases |steps|
  {
    if |steps| > 0 {
      StepKeepsStarted(cfg, s, steps[0]);
      RunKeepsStarted(cfg, Next(cfg, s, steps[0]), steps[1..], t);
    }
  }

  /** An owner's operation has been started exactly once. */
  lemma OwnerStartedOnce(cfg: Config, s: State, c: CallerId)
    requires Reachable(cfg, s) && c in s.callers && OwnerPhase(s.callers[c].phase)
    ensures s.runs[s.callers[c].key] == 1
  {
    var clock :| CanReach(cfg, InitialState(clock), s);
    var steps :| Runs(cfg, InitialState(clock), steps, s);
    RunKeepsStarted(cfg, InitialState(clock), steps, s);
    ReachableInv(cfg, s);
  }

  /** Statements: whoever runs one has a connection of its worker's pool, and one of a
      completion the worker's gate too. */
  lemma StatementsNeedAConnection(cfg: Config, s: State, step: Step)
    requires Reachable(cfg, s) && Enabled(cfg, s, step)
    requires step.InsertRow? || step.InsertConflict? || step.ShareRow? || step.SendCommit? || step.Poll? || step.LockRow?
             || step.LockHead? || step.InsertEvent? || step.UpdateRow? || step.UpdateHead? || step.FailUpdate?
    ensures Actor(step) in ConnHolders(s, s.callers[Actor(step)].worker)
    ensures step.LockRow? || step.LockHead? || step.InsertEvent? || step.UpdateRow? || step.UpdateHead? ==>
              HasGate(s.callers[Actor(step)].phase)
  {
  }

  /** The reservation that a caller's insert makes runs out exactly the lifetime after it. */
  predicate Lasts(s: State, a: Caller, c: CallerId, expiry: nat)
  {
    && (Live(a.main) && a.main.work.Insert? ==> a.main.work.row.expiresAt == expiry)
    && (OwnedBy(s, a.key, c) && a.key in s.db.rows ==> s.db.rows[a.key].expiresAt == expiry)
  }

  predicate LastsUntil(s: State, c: CallerId, expiry: nat) { c in s.callers && Lasts(s, s.callers[c], c, expiry) }

  lemma MovedLasts(cfg: Config, s: State, step: Step, c: CallerId, expiry: nat)
    requires Enabled(cfg, s, step) && !step.Tick? && !step.Commit? && !step.InsertRow?
    requires c in s.callers && c == Actor(step) && LastsUntil(s, c, expiry)
    ensures Lasts(s, Moved(cfg, s, step), c, expiry)
  {
  }

  lemma OwnStepLasts(cfg: Config, s: State, step: Step, c: CallerId, expiry: nat)
    requires Enabled(cfg, s, step) && !step.Tick? && !step.Commit? && !step.InsertRow?
    requires c in s.callers && c == Actor(step) && LastsUntil(s, c, expiry)
    ensures LastsUntil(Next(cfg, s, step), c, expiry)
  {
    MovedLasts(cfg, s, step, c, expiry);
  }

  lemma CommitLasts(cfg: Config, s: State, sid: Session, c: CallerId, expiry: nat)
    requires Enabled(cfg, s, Commit(sid)) && CallerOk(cfg, s, sid.c) && HistoryOk(s) && LastsUntil(s, c, expiry)
    ensures LastsUntil(AfterCommit(s, sid), c, expiry)
  {
  }

  lemma StepLasts(cfg: Config, s: State, step: Step, c: CallerId, seen: Seen, expiry: nat)
    requires Enabled(cfg, s, step) && CallersOk(cfg, s) && HistoryOk(s) && HasSeen(s, c, seen) && LastsUntil(s, c, expiry)
    ensures LastsUntil(Next(cfg, s, step), c, expiry)
  {
    if step.Commit? {
      assert CallerOk(cfg, s, step.sid.c);
      CommitLasts(cfg, s, step.sid, c, expiry);
    } else if step.Tick? || c != Actor(step) {
      OthersStay(cfg, s, step, c);
    } else {
      OwnStepLasts(cfg, s, step, c, expiry);
    }
  }

  lemma {:induction false} RunLasts(cfg: Config, s: State, steps: seq<Step>, t: State, c: CallerId, seen: Seen, expiry: nat)
    requires Inv(cfg, s) && HasSeen(s, c, seen) && LastsUntil(s, c, expiry) && Runs(cfg, s, steps, t)
    ensures LastsUntil(t, c, expiry)
    decreases |steps|
  {
    if |steps| > 0 {
      StepKeepsSeen(cfg, s, steps[0], c, seen);
      StepLasts(cfg, s, steps[0], c, seen, expiry);
      StepKeepsInv(cfg, s, steps[0]);
      RunLasts(cfg, Next(cfg, s, steps[0]), steps[1..], t, c, seen, expiry);
    }
  }

  lemma InsertLasts(cfg: Config, s: State, c: CallerId)
    requires Enabled(cfg, s, InsertRow(c)) && HistoryOk(s)
    ensures HasSeen(Next(cfg, s, InsertRow(c)), c, OwnerSeen)
    ensures LastsUntil(Next(cfg, s, InsertRow(c)), c, s.clock + cfg.ttl)
    ensures Next(cfg, s, InsertRow(c)).callers[c].key == s.callers[c].key
  {
  }

  lemma RunReservationLasts(cfg: Config, n: State, t: State, c: CallerId, expiry: nat)
    requires Inv(cfg, n) && HasSeen(n, c, OwnerSeen) && LastsUntil(n, c, expiry) && CanReach(cfg, n, t)
    ensures c in t.callers && t.callers[c].key == n.callers[c].key && LastsUntil(t, c, expiry) && HistoryOk(t)
  {
    var steps :| Runs(cfg, n, steps, t);
    RunLasts(cfg, n, steps, t, c, OwnerSeen, expiry);
    RunKeepsInv(cfg, n, steps, t);
    RunLater(cfg, n, steps, t);
    assert CallerLater(n.callers[c], t.callers[c]);
  }

  /** While a caller owns its key the row expires exactly the lifetime after its insert. */
  lemma ReservationLasts(cfg: Config, s: State, c: CallerId, t: State)
    requires Reachable(cfg, s) && Enabled(cfg, s, InsertRow(c)) && CanReach(cfg, Next(cfg, s, InsertRow(c)), t)
    requires OwnedBy(t, s.callers[c].key, c)
    ensures s.callers[c].key in t.db.rows && t.db.rows[s.callers[c].key].expiresAt == s.clock + cfg.ttl
  {
    ReachableInv(cfg, s);
    var n := Next(cfg, s, InsertRow(c));
    InsertLasts(cfg, s, c);
    StepKeepsInv(cfg, s, InsertRow(c));
    RunReservationLasts(cfg, n, t, c, s.clock + cfg.ttl);
  }

  // ----- Failures -----

  predicate IsSettled(s: State, k: Key) { k in s.db.rows && !s.db.rows[k].state.Reserved? }

  /** What `fail` has done by now: an update that matched nothing found the row settled, one
      that matched and is committed has marked it failed. */
  predicate FailDone(s: State, a: Caller)
  {
    && (!a.recovery.NoTx? && a.recovery.work == Fail(false) ==> IsSettled(s, a.key))
    && (a.recovery.Ended? && a.recovery.committed && a.recovery.work == Fail(true) ==>
          a.key in s.db.rows && s.db.rows[a.key].state.Failed?)
  }

  ghost predicate FailsDone(s: State) { forall c :: c in s.callers ==> FailDone(s, s.callers[c]) }

  lemma MovedFailDone(cfg: Config, s: State, step: Step)
    requires Enabled(cfg, s, step) && !step.Tick? && !step.Commit? && !step.FailUpdate?
    requires Actor(step) in s.callers ==> FailDone(s, s.callers[Actor(step)])
    ensures FailDone(s, Moved(cfg, s, step))
  {
  }

  lemma UpdateFailDone(cfg: Config, s: State, c: CallerId)
    requires Enabled(cfg, s, FailUpdate(c)) && Owns(s, c)
    ensures FailDone(s, Moved(cfg, s, FailUpdate(c)))
  {
  }

  lemma OwnFailDone(cfg: Config, s: State, step: Step)
    requires Enabled(cfg, s, step) && !step.Tick? && !step.Commit?
    requires Actor(step) in s.callers ==> CallerOk(cfg, s, Actor(step)) && FailDone(s, s.callers[Actor(step)])
    ensures FailDone(s, Moved(cfg, s, step))
  {
    if step.FailUpdate? {
      UpdateFailDone(cfg, s, step.c);
    } else {
      MovedFailDone(cfg, s, step);
    }
  }

  lemma CommitFailDone(cfg: Config, s: State, sid: Session)
    requires Enabled(cfg, s, Commit(sid)) && CallerOk(cfg, s, sid.c) && FailDone(s, s.callers[sid.c])
    ensures FailDone(AfterCommit(s, sid), AfterCommit(s, sid).callers[sid.c])
  {
  }

  lemma FailStaysDone(s: State, t: State, a: Caller)
    requires FailDone(s, a) && Later(s, t)
    ensures FailDone(t, a)
  {
    assert a.key in s.db.rows ==> RowLater(s.db.rows[a.key], t.db.rows[a.key]);
  }

  lemma StepKeepsFailsDone(cfg: Config, s: State, step: Step)
    requires Enabled(cfg, s, step) && CallersOk(cfg, s) && FailsDone(s)
    ensures FailsDone(Next(cfg, s, step))
  {
    var t := Next(cfg, s, step);
    StepLater(cfg, s, step);
    forall d | d in t.callers ensures FailDone(t, t.callers[d]) {
      if step.Tick? || d != Actor(step) {
        OthersStay(cfg, s, step, d);
        FailStaysDone(s, t, s.callers[d]);
      } else if step.Commit? {
        CommitFailDone(cfg, s, step.sid);
      } else {
        OwnFailDone(cfg, s, step);
        FailStaysDone(s, t, Moved(cfg, s, step));
      }
    }
  }

  lemma {:induction false} RunKeepsFailsDone(cfg: Config, s: State, steps: seq<Step>, t: State)
    requires Inv(cfg, s) && FailsDone(s) && Runs(cfg, s, steps, t)
    ensures FailsDone(t)
    decreases |steps|
  {
    if |steps| > 0 {
      StepKeepsFailsDone(cfg, s, steps[0]);
      StepKeepsInv(cfg, s, steps[0]);
      RunKeepsFailsDone(cfg, Next(cfg, s, steps[0]), steps[1..], t);
    }
  }

  /** An owner whose `fail` is acknowledged raises its own error, and leaves a row that is
      failed, or that its completion had completed after all: never a reserved one. */
  lemma FailureIsRecorded(cfg: Config, s: State, c: CallerId)
    requires Reachable(cfg, s) && Enabled(cfg, s, Ack(c)) && s.callers[c].phase.Failing?
    ensures Next(cfg, s, Ack(c)).callers[c].phase == Finished(Raised(s.callers[c].phase.reason))
    ensures IsSettled(s, s.callers[c].key)
    ensures s.callers[c].recovery.work == Fail(true) ==> s.db.rows[s.callers[c].key].state.Failed?
  {
    var clock :| CanReach(cfg, InitialState(clock), s);
    var steps :| Runs(cfg, InitialState(clock), steps, s);
    InitialInv(cfg, clock);
    RunKeepsFailsDone(cfg, InitialState(clock), steps, s);
    CallerKnown(cfg, s, c);
    assert FailDone(s, s.callers[c]);
  }

  /** An error met in `fail` does not hide the one that led there; one met by a caller that
      owns nothing ends its call. */
  lemma ErrorsAreRaised(cfg: Config, s: State, c: CallerId, e: Error)
    requires Reachable(cfg, s) && Enabled(cfg, s, ClientError(c, e))
    ensures var a, phase := s.callers[c], Next(cfg, s, ClientError(c, e)).callers[c].phase;
            && (a.phase.FailCheckout? ==> phase == Finished(Raised(a.phase.reason)))
            && (a.phase.Failing? ==> phase == Finished(Raised(a.phase.reason)))
            && (!OwnedBy(s, a.key, c) ==> phase == Finished(Raised(e)))
  {
    CallerKnown(cfg, s, c);
  }
}

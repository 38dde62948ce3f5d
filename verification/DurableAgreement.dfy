/** What the durable protocol promises over whole runs: a sound chain, one owner and one
    result per key, terminal states, and no lost update under the locks. */
module DurableAgreement {
  import opened Wrappers
  import opened PostgresAudit
  import opened DurableProtocol
  import opened DurableInvariant
  import opened DurableSteps

  /** What the invariant says of one caller, of the tables and of the history. */
  lemma CallerKnown(cfg: Config, s: State, c: CallerId)
    requires Reachable(cfg, s) && c in s.callers
    ensures CallerOk(cfg, s, c)
  {
    ReachableInv(cfg, s);
  }

  lemma TablesKnown(cfg: Config, s: State)
    requires Reachable(cfg, s)
    ensures DbOk(cfg.hashing, s.db)
  {
    ReachableInv(cfg, s);
  }

  // ----- The chain -----

  /** The tables of every reachable state pass the full-chain verifier. */
  lemma ReachableStateVerifies(cfg: Config, s: State)
    requires Reachable(cfg, s)
    ensures Sound(cfg.hashing, s.db, s.db, s.db, s.db)
  {
    TablesKnown(cfg, s);
    assert PrimaryEvents(s.db.events) == s.db.events;
  }

  /** Completed keys and events are in bijection, and partners agree. */
  lemma CompletedKeysMatchEvents(cfg: Config, s: State, k: Key)
    requires Reachable(cfg, s)
    ensures k in s.db.rows && s.db.rows[k].state.Completed?
            <==> exists i :: 0 <= i < |s.db.events| && s.db.events[i].doc.key == k
    ensures forall i :: 0 <= i < |s.db.events| && s.db.events[i].doc.key == k ==>
              && k in s.db.rows && Agrees(s.db.rows[k], s.db.events[i])
              && (forall j :: 0 <= j < |s.db.events| && s.db.events[j].doc.key == k ==> i == j)
  {
    TablesKnown(cfg, s);
    if k in s.db.rows && s.db.rows[k].state.Completed? {
      assert HasEvent(s.db.events, k, s.db.rows[k].state.receipt);
    }
  }

  // ----- Later states -----

  /** What survives every step: rows with their digest and expiry, terminal row states,
      the events so far, and the results callers have got. */
  ghost predicate Later(s: State, t: State)
  {
    && (forall k :: k in s.db.rows ==> k in t.db.rows && RowLater(s.db.rows[k], t.db.rows[k]))
    && |s.db.events| <= |t.db.events| && t.db.events[..|s.db.events|] == s.db.events
    && s.clock <= t.clock
    && (forall c :: c in s.callers ==> c in t.callers && CallerLater(s.callers[c], t.callers[c]))
  }

  predicate RowLater(r: Row, u: Row)
  {
    u.requestDigest == r.requestDigest && u.expiresAt == r.expiresAt && (r.state.Reserved? || u.state == r.state)
  }

  predicate CallerLater(a: Caller, b: Caller)
  {
    b.key == a.key && b.digest == a.digest && b.worker == a.worker && (a.phase.Finished? ==> b.phase == a.phase)
  }

  lemma RecordLater(cfg: Config, s: State, step: Step)
    requires Enabled(cfg, s, step) && !step.Tick? && !step.Commit?
    ensures Actor(step) in s.callers ==> CallerLater(s.callers[Actor(step)], Moved(cfg, s, step))
  {
  }

  lemma CommitLater(cfg: Config, s: State, sid: Session)
    requires Enabled(cfg, s, Commit(sid)) && CallerOk(cfg, s, sid.c)
    ensures Later(s, AfterCommit(s, sid))
  {
  }

  lemma OwnStepLater(cfg: Config, s: State, step: Step)
    requires Enabled(cfg, s, step) && !step.Tick? && !step.Commit?
    ensures Later(s, Next(cfg, s, step))
  {
    RecordLater(cfg, s, step);
    var t := Next(cfg, s, step);
    assert t.db == s.db && t.clock == s.clock && t.callers == s.callers[Actor(step) := Moved(cfg, s, step)];
  }

  lemma StepLater(cfg: Config, s: State, step: Step)
    requires CallersOk(cfg, s) && Enabled(cfg, s, step)
    ensures Later(s, Next(cfg, s, step))
  {
    if step.Commit? {
      assert CallerOk(cfg, s, step.sid.c);
      CommitLater(cfg, s, step.sid);
    } else if !step.Tick? {
      OwnStepLater(cfg, s, step);
    }
  }

  lemma LaterTrans(s: State, t: State, u: State)
    requires Later(s, t) && Later(t, u)
    ensures Later(s, u)
  {
    assert u.db.events[..|s.db.events|] == u.db.events[..|t.db.events|][..|s.db.events|];
  }

  /** Nothing terminal ever changes: completed and failed rows, committed events and
      returned results are the same in every later state. */
  lemma {:induction false} RunLater(cfg: Config, s: State, steps: seq<Step>, t: State)
    requires Inv(cfg, s) && Runs(cfg, s, steps, t)
    ensures Later(s, t)
    decreases |steps|
  {
    if |steps| > 0 {
      var n := Next(cfg, s, steps[0]);
      StepLater(cfg, s, steps[0]);
      StepKeepsInv(cfg, s, steps[0]);
      RunLater(cfg, n, steps[1..], t);
      LaterTrans(s, n, t);
    }
  }

  lemma ReachLater(cfg: Config, s: State, t: State)
    requires Reachable(cfg, s) && CanReach(cfg, s, t)
    ensures Later(s, t) && Inv(cfg, s) && Inv(cfg, t)
  {
    ReachableInv(cfg, s);
    var steps :| Runs(cfg, s, steps, t);
    RunLater(cfg, s, steps, t);
    RunKeepsInv(cfg, s, steps, t);
  }

  // ----- Agreement -----

  /** The caller is the owner of its key, running or past the operation. */
  predicate HasOwned(a: Caller)
  {
    OwnerPhase(a.phase) || (a.phase.Finished? && a.phase.outcome.Success? && !a.phase.outcome.replayed)
  }

  /** Who owns a key never changes. */
  ghost predicate OwnersLater(s: State, t: State)
  {
    forall k :: k in s.owners ==> k in t.owners && t.owners[k] == s.owners[k]
  }

  lemma CommitOwnersLater(cfg: Config, s: State, sid: Session)
    requires HistoryOk(s) && Enabled(cfg, s, Commit(sid)) && CallerOk(cfg, s, sid.c)
    ensures OwnersLater(s, AfterCommit(s, sid))
  {
  }

  lemma StepOwnersLater(cfg: Config, s: State, step: Step)
    requires HistoryOk(s) && CallersOk(cfg, s) && Enabled(cfg, s, step)
    ensures OwnersLater(s, Next(cfg, s, step))
  {
    if step.Commit? {
      assert CallerOk(cfg, s, step.sid.c);
      CommitOwnersLater(cfg, s, step.sid);
    }
  }

  lemma {:induction false} RunOwnersLater(cfg: Config, s: State, steps: seq<Step>, t: State)
    requires Inv(cfg, s) && Runs(cfg, s, steps, t)
    ensures OwnersLater(s, t)
    decreases |steps|
  {
    if |steps| > 0 {
      StepOwnersLater(cfg, s, steps[0]);
      StepKeepsInv(cfg, s, steps[0]);
      RunOwnersLater(cfg, Next(cfg, s, steps[0]), steps[1..], t);
    }
  }

  lemma ReachOwnersLater(cfg: Config, s: State, t: State)
    requires Reachable(cfg, s) && CanReach(cfg, s, t)
    ensures OwnersLater(s, t) && CallersOk(cfg, s) && CallersOk(cfg, t) && HistoryOk(t)
  {
    ReachableInv(cfg, s);
    var steps :| Runs(cfg, s, steps, t);
    RunOwnersLater(cfg, s, steps, t);
    RunKeepsInv(cfg, s, steps, t);
  }

  lemma OwnerIsRecorded(cfg: Config, s: State, c: CallerId)
    requires c in s.callers && CallerOk(cfg, s, c) && HasOwned(s.callers[c])
    ensures s.callers[c].key in s.owners && s.owners[s.callers[c].key] == c
  {
  }

  /** At most one caller ever owns a key: an owner at one moment of a run and an owner of
      the same key at any later moment are one caller, even when the first has crashed or
      failed by then.  The operation of a key is started at most once. */
  lemma OneOwnerPerKey(cfg: Config, s: State, t: State, c: CallerId, d: CallerId)
    requires Reachable(cfg, s) && CanReach(cfg, s, t)
    requires c in s.callers && d in t.callers && s.callers[c].key == t.callers[d].key
    ensures HasOwned(s.callers[c]) && HasOwned(t.callers[d]) ==> c == d
    ensures t.runs[t.callers[d].key] <= 1
  {
    ReachOwnersLater(cfg, s, t);
    if HasOwned(s.callers[c]) && HasOwned(t.callers[d]) {
      OwnerIsRecorded(cfg, s, c);
      OwnerIsRecorded(cfg, t, d);
    }
  }

  predicate Succeeded(s: State, c: CallerId)
  {
    c in s.callers && s.callers[c].phase.Finished? && s.callers[c].phase.outcome.Success?
  }

  /** All successful results for a key carry one response and one receipt, for one
      request digest: a caller with another digest gets no response.  At most one result
      is not a replay. */
  lemma ResultsAgree(cfg: Config, s: State, c: CallerId, d: CallerId)
    requires Reachable(cfg, s) && Succeeded(s, c) && Succeeded(s, d) && s.callers[c].key == s.callers[d].key
    ensures var x, y := s.callers[c].phase.outcome, s.callers[d].phase.outcome;
            && x.response == y.response && x.receipt == y.receipt
            && s.callers[c].digest == s.callers[d].digest
            && (!x.replayed && !y.replayed ==> c == d)
  {
    CallerKnown(cfg, s, c);
    CallerKnown(cfg, s, d);
  }

  /** The receipt of a result names an event of the chain for this key, digest and
      response. */
  lemma ReceiptsAreInTheChain(cfg: Config, s: State, c: CallerId)
    requires Reachable(cfg, s) && Succeeded(s, c)
    ensures exists i :: 0 <= i < |s.db.events| && Receipt(s.db.events[i], s.callers[c], s.callers[c].phase.outcome)
  {
    CallerKnown(cfg, s, c);
    TablesKnown(cfg, s);
    SuccessIsStored(cfg, s, c);
    StoredIsInTheChain(s.db, s.callers[c], s.callers[c].phase.outcome);
  }

  predicate RowHolds(db: Database, a: Caller, x: Outcome)
    requires x.Success?
  {
    && a.key in db.rows && db.rows[a.key].state.Completed? && db.rows[a.key].requestDigest == a.digest
    && db.rows[a.key].state.document == x.response && db.rows[a.key].state.receipt == x.receipt
  }

  lemma SuccessIsStored(cfg: Config, s: State, c: CallerId)
    requires Succeeded(s, c) && CallerOk(cfg, s, c)
    ensures RowHolds(s.db, s.callers[c], s.callers[c].phase.outcome)
  {
  }

  lemma StoredIsInTheChain(db: Database, a: Caller, x: Outcome)
    requires RowsMatchEvents(db) && x.Success? && RowHolds(db, a, x)
    ensures exists i :: 0 <= i < |db.events| && Receipt(db.events[i], a, x)
  {
    assert HasEvent(db.events, a.key, db.rows[a.key].state.receipt);
    var i :| 0 <= i < |db.events| && db.events[i].doc.key == a.key && db.events[i].eventHash == x.receipt;
    assert Agrees(db.rows[a.key], db.events[i]);
    assert Receipt(db.events[i], a, x);
  }

  /** The event documents this caller's completion. */
  predicate Receipt(e: EventRow, a: Caller, x: Outcome)
    requires x.Success?
  {
    e.doc.key == a.key && e.doc.requestDigest == a.digest && e.doc.response == x.response && e.eventHash == x.receipt
  }

  /** The caller's completion has committed. */
  predicate CompletionCommitted(a: Caller) { a.main.Ended? && a.main.committed && a.main.work.StagedHead? }

  predicate StoredBy(h: Hashing, db: Database, a: Caller)
    requires CompletionCommitted(a)
  {
    var e := a.main.work.event;
    a.key in db.rows && db.rows[a.key].state == Completed(e.doc.response, h.response(e.doc.response), e.eventHash)
  }

  lemma CommittedIsStored(cfg: Config, s: State, c: CallerId)
    requires DbOk(cfg.hashing, s.db) && c in s.callers && CallerOk(cfg, s, c) && CompletionCommitted(s.callers[c])
    ensures StoredBy(cfg.hashing, s.db, s.callers[c])
  {
  }

  lemma StoredStays(h: Hashing, s: State, t: State, a: Caller)
    requires Later(s, t) && CompletionCommitted(a) && StoredBy(h, s.db, a)
    ensures StoredBy(h, t.db, a)
  {
    assert RowLater(s.db.rows[a.key], t.db.rows[a.key]);
  }

  lemma FailMissesCompleted(cfg: Config, s: State, c: CallerId)
    requires c in s.callers && CallerOk(cfg, s, c) && Live(s.callers[c].recovery)
    requires s.callers[c].key in s.db.rows && s.db.rows[s.callers[c].key].state.Completed?
    ensures s.callers[c].recovery.work == Fail(false)
  {
  }

  /** Once a completion has committed, nothing its caller does afterwards, least of all
      `fail`, changes the stored response, its hash or its receipt. */
  lemma CompletedSurvivesFail(cfg: Config, s: State, t: State, c: CallerId)
    requires Reachable(cfg, s) && CanReach(cfg, s, t) && c in s.callers && CompletionCommitted(s.callers[c])
    ensures StoredBy(cfg.hashing, t.db, s.callers[c])
    ensures c in t.callers && Live(t.callers[c].recovery) ==> t.callers[c].recovery.work == Fail(false)
  {
    ReachLater(cfg, s, t);
    CommittedIsStored(cfg, s, c);
    StoredStays(cfg.hashing, s, t, s.callers[c]);
    if c in t.callers && Live(t.callers[c].recovery) {
      assert CallerLater(s.callers[c], t.callers[c]);
      FailMissesCompleted(cfg, t, c);
    }
  }

  // ----- Lock soundness: the error branches that cannot be taken -----

  /** Under the locks the row update and the head compare-and-set each match one row. */
  lemma UpdatesMatchOneRow(cfg: Config, s: State, c: CallerId)
    requires Reachable(cfg, s)
    ensures Enabled(cfg, s, UpdateRow(c)) ==> RowMatches(s, s.callers[c])
    ensures Enabled(cfg, s, UpdateHead(c)) ==> HeadMatches(s, s.callers[c].main.work.event)
  {
    if c in s.callers {
      CallerKnown(cfg, s, c);
    }
  }

  /** An owner that locks its row finds it there, reserved and with its digest: the one
      check that can fail is expiry. */
  lemma OwnerRefusedOnlyWhenExpired(cfg: Config, s: State, c: CallerId)
    requires Reachable(cfg, s) && Enabled(cfg, s, LockRow(c))
    ensures s.callers[c].key in s.db.rows
    ensures LockRowError(s, s.callers[c]) ==
            if s.db.rows[s.callers[c].key].expiresAt <= s.clock then Some(Stale) else None
  {
    CallerKnown(cfg, s, c);
  }

  /** The event insert violates a constraint only if the fresh identifier or the new
      hash repeats one: the key and the sequence number never do. */
  lemma EventInsertConflicts(cfg: Config, s: State, c: CallerId, eventId: nat, occurredAt: nat)
    requires Reachable(cfg, s) && Enabled(cfg, s, InsertEvent(c, eventId, occurredAt))
    ensures var a := s.callers[c];
            var built := EventOf(cfg, a.main.work.head, a, eventId, a.phase.response, occurredAt);
            && built.Ok?
            && (UniqueAmong(s.db.events, built.value) <==>
                forall i :: 0 <= i < |s.db.events| ==>
                  s.db.events[i].doc.eventId != eventId && s.db.events[i].eventHash != built.value.eventHash)
  {
    CallerKnown(cfg, s, c);
    TablesKnown(cfg, s);
  }

  /** A row once seen is there, and a stored response is never found corrupt: readers
      raise at most a conflict, and otherwise see what the row holds. */
  lemma ReadersFindTheRow(cfg: Config, s: State, c: CallerId)
    requires Reachable(cfg, s) && c in s.callers
    requires s.callers[c].phase.ReserveShare? || s.callers[c].phase.PollRead?
    ensures var a := s.callers[c];
            && a.key in s.db.rows
            && var row := s.db.rows[a.key];
               var r := FromRow(cfg.hashing, row, a.digest, s.clock);
               && (r.Err? <==> row.requestDigest != a.digest)
               && (r.Err? ==> r.error == Conflict && s.callers[c].phase.ReserveShare?)
               && (r.Ok? && row.state.Completed? ==> r.value == CompletedSeen(row.state.document, row.state.receipt))
               && (r.Ok? && row.state.Failed? ==> r.value.FailedSeen?)
               && (r.Ok? && row.state.Reserved? ==> (r.value.StaleSeen? <==> row.expiresAt <= s.clock))
               && (r.Ok? && row.state.Reserved? ==> (r.value.ReservedSeen? <==> s.clock < row.expiresAt))
  {
    CallerKnown(cfg, s, c);
    TablesKnown(cfg, s);
  }
}

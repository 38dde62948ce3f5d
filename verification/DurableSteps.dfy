/** Every step of the durable protocol keeps the invariant.  First the record of the
    caller that moves; then locks and pools; then the commits, which write the tables. */
module DurableSteps {
  import opened HashChain
  import opened PostgresAudit
  import opened DurableProtocol
  import opened Sets
  import opened DurableInvariant

  // ----- The caller's own record -----

  /** Steps of a caller that leave tables and history alone. */
  predicate RecordStep(cfg: Config, s: State, step: Step)
  {
    Enabled(cfg, s, step) && !step.Tick? && !step.Start? && !step.Commit? && !(step.Ack? && StartsOperation(s, step.c))
  }

  ghost predicate ActorOk(cfg: Config, s: State, step: Step)
  {
    RecordStep(cfg, s, step) && Actor(step) in s.callers && CallerOk(cfg, s, Actor(step))
  }

  ghost predicate RecordOk(cfg: Config, s: State, step: Step)
    requires RecordStep(cfg, s, step)
  {
    CallerOk(cfg, With(s, Actor(step), Moved(cfg, s, step)), Actor(step))
  }

  lemma ReserveRecord(cfg: Config, s: State, step: Step)
    requires ActorOk(cfg, s, step)
    requires step.Checkout? || step.InsertRow? || step.InsertConflict? || step.ShareRow? || step.Poll?
    ensures RecordOk(cfg, s, step)
  {
  }

  lemma TransactionRecord(cfg: Config, s: State, step: Step)
    requires ActorOk(cfg, s, step)
    requires step.SendCommit? || step.Abort? || step.Ack?
    ensures RecordOk(cfg, s, step)
  {
  }

  lemma CompletionRecord(cfg: Config, s: State, step: Step)
    requires ActorOk(cfg, s, step)
    requires step.LockRow? || step.LockHead? || step.InsertEvent? || step.UpdateRow? || step.UpdateHead?
    ensures RecordOk(cfg, s, step)
  {
  }

  lemma OtherRecord(cfg: Config, s: State, step: Step)
    requires ActorOk(cfg, s, step)
    requires step.Operate? || step.TakeGate? || step.FailUpdate? || step.ClientError? || step.Crash?
    ensures RecordOk(cfg, s, step)
  {
  }

  // ----- Locks and pools -----

  lemma LocksTaken(s: State, c: CallerId, a: Caller)
    requires LocksOk(s) && !(HoldsX(a.main) && HoldsX(a.recovery))
    requires forall d :: d in s.callers && d != c ==> Apart(s.callers[d], a) && Apart(a, s.callers[d])
    ensures LocksOk(With(s, c, a))
  {
  }

  /** What the caller holds after the step it held before, or nobody else holds. */
  predicate MayHold(s: State, c: CallerId, a: Caller)
    requires c in s.callers
  {
    var b := s.callers[c];
    && a.key == b.key && a.worker == b.worker
    && !(HoldsX(a.main) && HoldsX(a.recovery))
    && (LocksRow(a) ==> LocksRow(b) || RowFree(s, a.key))
    && (HoldsS(a.main) ==> HoldsS(b.main) || RowUnlocked(s, a.key))
    && (HoldsHead(a.main) ==> HoldsHead(b.main) || HeadFree(s))
    && (HasGate(a.phase) ==> HasGate(b.phase) || GateFree(s, a.worker))
  }

  lemma LocksKept(s: State, c: CallerId, a: Caller)
    requires LocksOk(s) && c in s.callers && MayHold(s, c, a)
    ensures LocksOk(With(s, c, a))
  {
    forall d | d in s.callers && d != c ensures Apart(s.callers[d], a) && Apart(a, s.callers[d]) {
      assert Apart(s.callers[d], s.callers[c]);
    }
    LocksTaken(s, c, a);
  }

  /** An uncommitted row has no reader that could hold its shared lock. */
  lemma NoReaders(cfg: Config, s: State, k: Key)
    requires CallersOk(cfg, s) && RowUnlocked(s, k) && k !in s.db.rows
    ensures RowFree(s, k)
  {
    forall d | d in s.callers && s.callers[d].key == k ensures !HoldsS(s.callers[d].main) {
      assert CallerOk(cfg, s, d);
    }
  }

  lemma InsertMayHold(cfg: Config, s: State, step: Step)
    requires ActorOk(cfg, s, step) && CallersOk(cfg, s) && step.InsertRow?
    ensures MayHold(s, Actor(step), Moved(cfg, s, step))
  {
    NoReaders(cfg, s, s.callers[step.c].key);
  }

  lemma OtherMayHold(cfg: Config, s: State, step: Step)
    requires ActorOk(cfg, s, step) && !step.InsertRow?
    requires !(HoldsX(s.callers[Actor(step)].main) && HoldsX(s.callers[Actor(step)].recovery))
    ensures MayHold(s, Actor(step), Moved(cfg, s, step))
  {
  }

  lemma PoolsKept(cfg: Config, s: State, c: CallerId, a: Caller)
    requires PoolsOk(cfg, s)
    requires HasConn(a.phase) ==> c in s.callers && a.worker == s.callers[c].worker
    requires HasConn(a.phase) ==> HasConn(s.callers[c].phase) || |ConnHolders(s, a.worker)| < cfg.poolSize
    ensures PoolsOk(cfg, With(s, c, a))
  {
    forall w ensures |ConnHolders(With(s, c, a), w)| <= cfg.poolSize {
      if HasConn(a.phase) && w == a.worker && !HasConn(s.callers[c].phase) {
        SubsetSize(ConnHolders(With(s, c, a), w), ConnHolders(s, w) + {c});
      } else {
        SubsetSize(ConnHolders(With(s, c, a), w), ConnHolders(s, w));
      }
    }
  }

  lemma MovedPools(cfg: Config, s: State, step: Step)
    requires ActorOk(cfg, s, step) && PoolsOk(cfg, s)
    ensures PoolsOk(cfg, With(s, Actor(step), Moved(cfg, s, step)))
  {
    PoolsKept(cfg, s, Actor(step), Moved(cfg, s, step));
  }

  lemma MovedLocks(cfg: Config, s: State, step: Step)
    requires ActorOk(cfg, s, step) && CallersOk(cfg, s) && LocksOk(s)
    ensures LocksOk(With(s, Actor(step), Moved(cfg, s, step)))
  {
    if step.InsertRow? { InsertMayHold(cfg, s, step); } else { OtherMayHold(cfg, s, step); }
    LocksKept(s, Actor(step), Moved(cfg, s, step));
  }

  /** A caller comes or moves, on its own record only. */
  lemma OwnStepKeepsInv(cfg: Config, s: State, c: CallerId, a: Caller)
    requires Inv(cfg, s) && (c in s.callers ==> a.key == s.callers[c].key)
    requires CallerOk(cfg, With(s, c, a), c) && LocksOk(With(s, c, a)) && PoolsOk(cfg, With(s, c, a))
    ensures Inv(cfg, With(s, c, a))
  {
    var t := With(s, c, a);
    OwnRecordEvolves(s, c, a);
    OthersOk(cfg, s, t, c);
    HistoryKept(s, t);
  }

  lemma MovedKeepsKey(cfg: Config, s: State, step: Step)
    requires RecordStep(cfg, s, step) && Actor(step) in s.callers
    ensures Moved(cfg, s, step).key == s.callers[Actor(step)].key
  {
  }

  lemma RecordStepKeepsInv(cfg: Config, s: State, step: Step)
    requires Inv(cfg, s) && ActorOk(cfg, s, step) && RecordOk(cfg, s, step)
    ensures Inv(cfg, With(s, Actor(step), Moved(cfg, s, step)))
  {
    MovedKeepsKey(cfg, s, step);
    MovedLocks(cfg, s, step);
    MovedPools(cfg, s, step);
    OwnStepKeepsInv(cfg, s, Actor(step), Moved(cfg, s, step));
  }

  // ----- Commits -----

  /** What remains to be shown once the caller that moved is looked at. */
  lemma CommitKeepsInv(cfg: Config, s: State, t: State, c: CallerId)
    requires Inv(cfg, s) && c in s.callers && t.callers.Keys == s.callers.Keys && Evolves(s, t, c)
    requires HoldsNoMore(s.callers[c], t.callers[c])
    requires CallerOk(cfg, t, c) && DbOk(cfg.hashing, t.db) && HistoryOk(t)
    ensures Inv(cfg, t)
  {
    OthersOk(cfg, s, t, c);
    LocksShrink(s, t, c);
    PoolsShrink(cfg, s, t, c);
  }

  /** The work of `sid` is ready to be committed. */
  ghost predicate MayCommit(cfg: Config, s: State, sid: Session)
  {
    && sid.c in s.callers && CallerOk(cfg, s, sid.c) && TxOf(s.callers[sid.c], sid).Committing?
    && !(HoldsX(s.callers[sid.c].main) && HoldsX(s.callers[sid.c].recovery))
  }

  /** The caller that committed, and what the others see of it. */
  ghost predicate CommitOk(cfg: Config, s: State, sid: Session)
    requires MayCommit(cfg, s, sid)
  {
    CallerOk(cfg, AfterCommit(s, sid), sid.c)
  }

  lemma CommitRows(cfg: Config, s: State, sid: Session)
    requires MayCommit(cfg, s, sid) && HistoryOk(s)
    ensures RowsEvolve(s, AfterCommit(s, sid), sid.c)
  {
  }

  lemma CommitEvolves(cfg: Config, s: State, sid: Session)
    requires MayCommit(cfg, s, sid) && HistoryOk(s)
    ensures Evolves(s, AfterCommit(s, sid), sid.c)
    ensures HoldsNoMore(s.callers[sid.c], AfterCommit(s, sid).callers[sid.c])
  {
    CommitRows(cfg, s, sid);
  }

  lemma CommitTables(cfg: Config, s: State, sid: Session)
    requires Inv(cfg, s) && MayCommit(cfg, s, sid) && CommitOk(cfg, s, sid)
    requires DbOk(cfg.hashing, AfterCommit(s, sid).db) && HistoryOk(AfterCommit(s, sid))
    ensures Inv(cfg, AfterCommit(s, sid))
  {
    CommitEvolves(cfg, s, sid);
    CommitKeepsInv(cfg, s, AfterCommit(s, sid), sid.c);
  }

  lemma CommitHistory(cfg: Config, s: State, sid: Session)
    requires MayCommit(cfg, s, sid) && HistoryOk(s)
    ensures HistoryOk(AfterCommit(s, sid))
  {
    var t := AfterCommit(s, sid);
    forall k | k in t.owners ensures Names(t, t.owners[k], k) {
      assert k in s.owners ==> Names(s, s.owners[k], k);
    }
  }

  // INSERT

  lemma CommitInsertDb(h: Hashing, db: Database, k: Key, row: Row)
    requires DbOk(h, db) && k !in db.rows && row.state.Reserved?
    ensures DbOk(h, Written(db, k, Insert(row)))
  {
    var t := Written(db, k, Insert(row));
    forall j | j in t.rows && t.rows[j].state.Completed? ensures HasEvent(t.events, j, t.rows[j].state.receipt) {
      assert HasEvent(db.events, j, db.rows[j].state.receipt);
    }
  }

  lemma CommitInsertOk(cfg: Config, s: State, sid: Session)
    requires MayCommit(cfg, s, sid) && TxOf(s.callers[sid.c], sid).work.Insert? && HistoryOk(s)
    ensures CommitOk(cfg, s, sid)
  {
    assert s.runs[s.callers[sid.c].key] == 0;
  }

  // UPDATE … SET state = 'failed'

  lemma CommitFailDb(h: Hashing, db: Database, k: Key)
    requires DbOk(h, db) && k in db.rows && db.rows[k].state.Reserved?
    ensures DbOk(h, Written(db, k, Fail(true)))
  {
    var t := Written(db, k, Fail(true));
    assert RowsMatchEvents(t) by {
      forall i | 0 <= i < |t.events|
        ensures t.events[i].doc.key in t.rows && Agrees(t.rows[t.events[i].doc.key], t.events[i])
      {
        assert Agrees(db.rows[db.events[i].doc.key], db.events[i]);
      }
      forall j | j in t.rows && t.rows[j].state.Completed? ensures HasEvent(t.events, j, t.rows[j].state.receipt) {
        assert HasEvent(db.events, j, db.rows[j].state.receipt);
      }
    }
  }

  lemma CommitFailOk(cfg: Config, s: State, sid: Session)
    requires MayCommit(cfg, s, sid) && TxOf(s.callers[sid.c], sid).work == Fail(true) && HistoryOk(s)
    ensures CommitOk(cfg, s, sid)
  {
  }

  // Completion

  lemma AppendEvent(h: Hashing, events: seq<EventRow>, e: EventRow)
    requires ChainIntact(h, events) && KeysUnique(events) && UniqueAmong(events, e)
    requires SelfConsistent(h, e) && e.doc.sequence == |events| + 1 && e.doc.previousHash == Head(StoredHash, events)
    ensures ChainIntact(h, events + [e]) && KeysUnique(events + [e])
    ensures Head(StoredHash, events + [e]) == e.eventHash
  {
    LinkedAppend(StoredHash, StoredLink, events, e);
  }

  lemma CompleteRow(db: Database, k: Key, e: EventRow)
    requires RowsMatchEvents(db) && k in db.rows && db.rows[k].state.Reserved?
    requires e.doc.key == k && e.doc.requestDigest == db.rows[k].requestDigest
    ensures RowsMatchEvents(Written(db, k, StagedHead(e)))
  {
    var t := Written(db, k, StagedHead(e));
    forall i | 0 <= i < |t.events|
      ensures t.events[i].doc.key in t.rows && Agrees(t.rows[t.events[i].doc.key], t.events[i])
    {
      if i < |db.events| {
        assert Agrees(db.rows[db.events[i].doc.key], db.events[i]);
      }
    }
    forall j | j in t.rows && t.rows[j].state.Completed? ensures HasEvent(t.events, j, t.rows[j].state.receipt) {
      if j == k {
        assert t.events[|db.events|] == e;
      } else {
        assert HasEvent(db.events, j, db.rows[j].state.receipt);
        var i :| 0 <= i < |db.events| && db.events[i].doc.key == j && db.events[i].eventHash == db.rows[j].state.receipt;
        assert t.events[i] == db.events[i];
      }
    }
  }

  lemma CompletedHeads(db: Database, k: Key, e: EventRow)
    requires k in db.rows && db.heads.Keys == {PRIMARY} && e.doc.chain == PRIMARY
    ensures Written(db, k, StagedHead(e)).heads == map[PRIMARY := ChainHead(e.doc.sequence, e.eventHash)]
  {
  }

  ghost predicate HashesOk(h: Hashing, db: Database)
  {
    forall k :: k in db.rows && db.rows[k].state.Completed? ==> db.rows[k].state.responseHash == h.response(db.rows[k].state.document)
  }

  lemma CompletedHashes(h: Hashing, db: Database, k: Key, e: EventRow)
    requires HashesOk(h, db) && k in db.rows && SelfConsistent(h, e)
    ensures HashesOk(h, Written(db, k, StagedHead(e)))
  {
  }

  /** Completing a reserved row with an event built on the head keeps the chain sound. */
  lemma CommitCompletionDb(h: Hashing, db: Database, k: Key, e: EventRow)
    requires DbOk(h, db) && k in db.rows && db.rows[k].state.Reserved?
    requires SelfConsistent(h, e) && e.doc.key == k && e.doc.chain == PRIMARY
    requires e.doc.requestDigest == db.rows[k].requestDigest
    requires e.doc.sequence == |db.events| + 1 && e.doc.previousHash == Head(StoredHash, db.events)
    requires UniqueAmong(db.events, e)
    ensures DbOk(h, Written(db, k, StagedHead(e)))
  {
    AppendEvent(h, db.events, e);
    CompleteRow(db, k, e);
    CompletedHeads(db, k, e);
    CompletedHashes(h, db, k, e);
    assert Written(db, k, StagedHead(e)).events == db.events + [e];
  }

  lemma CommitCompletionOk(cfg: Config, s: State, sid: Session)
    requires MayCommit(cfg, s, sid) && TxOf(s.callers[sid.c], sid).work.StagedHead? && HistoryOk(s)
    ensures CommitOk(cfg, s, sid)
  {
  }

  /** Every commit keeps the invariant. */
  lemma EveryCommitKeepsInv(cfg: Config, s: State, sid: Session)
    requires Inv(cfg, s) && MayCommit(cfg, s, sid)
    ensures Inv(cfg, AfterCommit(s, sid))
  {
    var a := s.callers[sid.c];
    CommitHistory(cfg, s, sid);
    match TxOf(a, sid).work {
      case Insert(row) =>
        CommitInsertOk(cfg, s, sid);
        CommitInsertDb(cfg.hashing, s.db, a.key, row);
      case StagedHead(e) =>
        CommitCompletionOk(cfg, s, sid);
        CommitCompletionDb(cfg.hashing, s.db, a.key, e);
      case Fail(true) =>
        CommitFailOk(cfg, s, sid);
        CommitFailDb(cfg.hashing, s.db, a.key);
      case _ =>
        CommitNothingOk(cfg, s, sid);
    }
    CommitTables(cfg, s, sid);
  }

  lemma CommitNothingOk(cfg: Config, s: State, sid: Session)
    requires MayCommit(cfg, s, sid)
    requires TxOf(s.callers[sid.c], sid).work.Share? || TxOf(s.callers[sid.c], sid).work == Fail(false)
    ensures CommitOk(cfg, s, sid)
  {
  }

  // ----- The remaining steps -----

  lemma StartOperationOk(cfg: Config, s: State, c: CallerId)
    requires c in s.callers && CallerOk(cfg, s, c) && HistoryOk(s) && Acknowledged(s, c) && StartsOperation(s, c)
    ensures var t := With(Acked(s, c), c, AfterAck(s.callers[c]));
            Evolves(s, t, c) && HoldsNoMore(s.callers[c], t.callers[c]) && CallerOk(cfg, t, c) && HistoryOk(t)
  {
  }

  lemma StartOperationKeepsInv(cfg: Config, s: State, c: CallerId)
    requires Inv(cfg, s) && Acknowledged(s, c) && StartsOperation(s, c)
    ensures Inv(cfg, With(Acked(s, c), c, AfterAck(s.callers[c])))
  {
    assert CallerOk(cfg, s, c);
    StartOperationOk(cfg, s, c);
    CommitKeepsInv(cfg, s, With(Acked(s, c), c, AfterAck(s.callers[c])), c);
  }

  lemma NewcomerOk(cfg: Config, s: State, c: CallerId, a: Caller)
    requires c !in s.callers && a.phase.ReserveCheckout? && a.main.NoTx? && a.recovery.NoTx?
    ensures CallerOk(cfg, With(s, c, a), c)
  {
  }

  lemma StartKeepsInv(cfg: Config, s: State, c: CallerId, w: Worker, k: Key, d: Digest)
    requires Inv(cfg, s) && c !in s.callers
    ensures Inv(cfg, With(s, c, Caller(w, k, d, ReserveCheckout, NoTx, NoTx)))
  {
    var a := Caller(w, k, d, ReserveCheckout, NoTx, NoTx);
    NewcomerOk(cfg, s, c, a);
    LocksTaken(s, c, a);
    PoolsKept(cfg, s, c, a);
    OwnStepKeepsInv(cfg, s, c, a);
  }

  /** Only time has passed. */
  predicate OnlyTime(s: State, t: State)
  {
    t.db == s.db && t.callers == s.callers && t.owners == s.owners && t.runs == s.runs
  }

  lemma TimeKeepsCallers(cfg: Config, s: State, t: State)
    requires CallersOk(cfg, s) && OnlyTime(s, t)
    ensures CallersOk(cfg, t)
  {
    forall c | c in t.callers ensures CallerOk(cfg, t, c) {
      assert CallerOk(cfg, s, c);
    }
  }

  lemma TimeKeepsTables(cfg: Config, s: State, t: State)
    requires LocksOk(s) && PoolsOk(cfg, s) && HistoryOk(s) && OnlyTime(s, t)
    ensures LocksOk(t) && PoolsOk(cfg, t) && HistoryOk(t)
  {
    HistoryKept(s, t);
    assert forall w :: ConnHolders(t, w) == ConnHolders(s, w);
  }

  lemma TimeKeepsInv(cfg: Config, s: State, t: State)
    requires Inv(cfg, s) && OnlyTime(s, t)
    ensures Inv(cfg, t)
  {
    TimeKeepsCallers(cfg, s, t);
    TimeKeepsTables(cfg, s, t);
  }

  // ----- All steps, all runs -----

  lemma RecordIsOk(cfg: Config, s: State, step: Step)
    requires RecordStep(cfg, s, step) && Actor(step) in s.callers && CallerOk(cfg, s, Actor(step))
    ensures RecordOk(cfg, s, step)
  {
    if step.Checkout? || step.InsertRow? || step.InsertConflict? || step.ShareRow? || step.Poll? {
      ReserveRecord(cfg, s, step);
    } else if step.SendCommit? || step.Abort? || step.Ack? {
      TransactionRecord(cfg, s, step);
    } else if step.LockRow? || step.LockHead? || step.InsertEvent? || step.UpdateRow? || step.UpdateHead? {
      CompletionRecord(cfg, s, step);
    } else {
      OtherRecord(cfg, s, step);
    }
  }

  lemma NextOfRecord(cfg: Config, s: State, step: Step)
    requires RecordStep(cfg, s, step)
    ensures Actor(step) in s.callers && Next(cfg, s, step) == With(s, Actor(step), Moved(cfg, s, step))
  {
  }

  lemma RecordKeepsInv(cfg: Config, s: State, step: Step)
    requires Inv(cfg, s) && RecordStep(cfg, s, step)
    ensures Inv(cfg, Next(cfg, s, step))
  {
    NextOfRecord(cfg, s, step);
    assert CallerOk(cfg, s, Actor(step));
    RecordIsOk(cfg, s, step);
    RecordStepKeepsInv(cfg, s, step);
  }

  lemma MayCommitNow(cfg: Config, s: State, sid: Session)
    requires CallersOk(cfg, s) && LocksOk(s) && Enabled(cfg, s, Commit(sid))
    ensures MayCommit(cfg, s, sid)
  {
    assert CallerOk(cfg, s, sid.c);
  }

  lemma CommitStepKeepsInv(cfg: Config, s: State, sid: Session)
    requires Inv(cfg, s) && Enabled(cfg, s, Commit(sid))
    ensures Inv(cfg, Next(cfg, s, Commit(sid)))
  {
    MayCommitNow(cfg, s, sid);
    EveryCommitKeepsInv(cfg, s, sid);
  }

  lemma StartStepKeepsInv(cfg: Config, s: State, c: CallerId, w: Worker, k: Key, d: Digest)
    requires Inv(cfg, s) && Enabled(cfg, s, Start(c, w, k, d))
    ensures Inv(cfg, Next(cfg, s, Start(c, w, k, d)))
  {
    StartKeepsInv(cfg, s, c, w, k, d);
  }

  lemma OperationStepKeepsInv(cfg: Config, s: State, c: CallerId)
    requires Inv(cfg, s) && Enabled(cfg, s, Ack(c)) && StartsOperation(s, c)
    ensures Inv(cfg, Next(cfg, s, Ack(c)))
  {
    StartOperationKeepsInv(cfg, s, c);
  }

  /** The invariant is inductive. */
  lemma StepKeepsInv(cfg: Config, s: State, step: Step)
    requires Inv(cfg, s) && Enabled(cfg, s, step)
    ensures Inv(cfg, Next(cfg, s, step))
  {
    if step.Tick? {
      TimeKeepsInv(cfg, s, Next(cfg, s, step));
    } else if step.Start? {
      StartStepKeepsInv(cfg, s, step.c, step.worker, step.key, step.digest);
    } else if step.Commit? {
      CommitStepKeepsInv(cfg, s, step.sid);
    } else if step.Ack? && StartsOperation(s, step.c) {
      OperationStepKeepsInv(cfg, s, step.c);
    } else {
      RecordKeepsInv(cfg, s, step);
    }
  }

  lemma {:induction false} RunKeepsInv(cfg: Config, s: State, steps: seq<Step>, t: State)
    requires Inv(cfg, s) && Runs(cfg, s, steps, t)
    ensures Inv(cfg, t)
    decreases |steps|
  {
    if |steps| > 0 {
      StepKeepsInv(cfg, s, steps[0]);
      RunKeepsInv(cfg, Next(cfg, s, steps[0]), steps[1..], t);
    }
  }

  /** Every reachable state satisfies the invariant. */
  lemma ReachableInv(cfg: Config, s: State)
    requires Reachable(cfg, s)
    ensures Inv(cfg, s)
  {
    var clock :| CanReach(cfg, InitialState(clock), s);
    var steps :| Runs(cfg, InitialState(clock), steps, s);
    InitialInv(cfg, clock);
    RunKeepsInv(cfg, InitialState(clock), steps, s);
  }
}

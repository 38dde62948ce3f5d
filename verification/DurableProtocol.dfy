/** PostgresIdempotencyStore.execute_detailed as a step machine
    (api/postgres_idempotency.py).

    Any number of callers, spread over any number of worker processes, run one
    `execute_detailed` call each.  A client step is one statement, one lock or
    connection acquisition, or one return of the operation; a backend step commits or
    aborts a transaction.  A client may fail or crash at any step, and the backend
    transaction it leaves behind finishes on its own: it commits only if COMMIT had
    been sent. */
module DurableProtocol {
  import opened Wrappers
  import opened HashChain
  import opened PostgresAudit

  type CallerId = nat
  type Worker = nat

  /** The pool size and reservation lifetime are settings; the hashes are arbitrary. */
  datatype Config = Config(hashing: Hashing, poolSize: nat, ttl: nat)

  datatype Error = Conflict | InProgress | Stale | FailedBefore | Integrity | Unavailable | OperationError

  /** A DurableReservation, as `reserve` and `_read` return it. */
  datatype Seen = OwnerSeen | CompletedSeen(response: Response, receipt: Digest) | ReservedSeen | StaleSeen | FailedSeen

  datatype Outcome = Success(response: Response, receipt: Digest, replayed: bool) | Raised(error: Error)

  /** A caller has its own session and, when `fail` runs, a second one: the first may
      then still be in doubt. */
  datatype Session = Main(c: CallerId) | Recovery(c: CallerId)

  /** What an open transaction has done so far. */
  datatype Work =
    | Insert(row: Row)              // INSERT … ON CONFLICT DO NOTHING took effect
    | Share                         // SELECT … FOR SHARE
    | LockedRow                     // SELECT … FOR UPDATE passed its checks
    | LockedHead(head: ChainHead)   // head read FOR UPDATE
    | StagedEvent(event: EventRow)  // event inserted
    | StagedRow(event: EventRow)    // row updated to completed
    | StagedHead(event: EventRow)   // head compared and set
    | Fail(hit: bool)               // UPDATE … SET state = 'failed'; did it match?

  datatype Tx = NoTx | Open(work: Work) | Committing(work: Work) | Ended(work: Work, committed: bool)

  datatype Phase =
    | ReserveCheckout
    | ReserveInsert
    | ReserveShare
    | ReserveCommit(seen: Seen)
    | PollSleep
    | PollRead
    | Operating
    | CompleteGate(response: Response)
    | CompleteCheckout(response: Response)
    | Completing(response: Response)
    | FailCheckout(reason: Error)
    | Failing(reason: Error)
    | Finished(outcome: Outcome)
    | Crashed

  datatype Caller = Caller(worker: Worker, key: Key, digest: Digest, phase: Phase, main: Tx, recovery: Tx)

  /** `owners` (who inserted each row) and `runs` (how often the operation of each key
      was started) are history: no step reads them. */
  datatype State = State(db: Database, clock: nat, callers: map<CallerId, Caller>,
                         owners: map<Key, CallerId>, runs: multiset<Key>)

  // ----- Reading the state -----

  function TxOf(a: Caller, sid: Session): Tx { if sid.Main? then a.main else a.recovery }

  predicate Live(tx: Tx) { tx.Open? || tx.Committing? }

  /** The completion transaction, from its row lock on. */
  predicate CompletionWork(w: Work)
  {
    w.LockedRow? || w.LockedHead? || w.StagedEvent? || w.StagedRow? || w.StagedHead?
  }

  /** A lock is held by the live transactions whose work has taken it: the exclusive
      lock on a row, … */
  predicate HoldsX(tx: Tx) { Live(tx) && (tx.work.Insert? || CompletionWork(tx.work) || tx.work == Fail(true)) }

  /** … the shared lock on a row, … */
  predicate HoldsS(tx: Tx) { Live(tx) && tx.work.Share? }

  /** … and the lock on the chain head. */
  predicate HoldsHead(tx: Tx) { Live(tx) && CompletionWork(tx.work) && !tx.work.LockedRow? }

  predicate LocksRow(a: Caller) { HoldsX(a.main) || HoldsX(a.recovery) }

  /** Inside an `async with` on a pooled connection. */
  predicate HasConn(p: Phase)
  {
    p.ReserveInsert? || p.ReserveShare? || p.ReserveCommit? || p.PollRead? || p.Completing? || p.Failing?
  }

  /** Inside the `async with` on the worker's completion gate. */
  predicate HasGate(p: Phase) { p.CompleteCheckout? || p.Completing? }

  predicate RowUnlocked(s: State, k: Key)
  {
    forall d :: d in s.callers && s.callers[d].key == k ==> !LocksRow(s.callers[d])
  }

  predicate RowFree(s: State, k: Key)
  {
    RowUnlocked(s, k) && forall d :: d in s.callers && s.callers[d].key == k ==> !HoldsS(s.callers[d].main)
  }

  predicate HeadFree(s: State) { forall d :: d in s.callers ==> !HoldsHead(s.callers[d].main) }

  predicate GateFree(s: State, w: Worker)
  {
    forall d :: d in s.callers && s.callers[d].worker == w ==> !HasGate(s.callers[d].phase)
  }

  /** The callers of a worker that have a connection of its pool. */
  function ConnHolders(s: State, w: Worker): set<CallerId>
  {
    set d | d in s.callers && s.callers[d].worker == w && HasConn(s.callers[d].phase)
  }

  /** `_from_row`: what a stored row means to a caller with this request digest. */
  function FromRow(h: Hashing, row: Row, digest: Digest, now: nat): Result<Seen, Error>
  {
    if row.requestDigest != digest then Err(Conflict)
    else match row.state
      case Reserved => Ok(if row.expiresAt <= now then StaleSeen else ReservedSeen)
      case Failed => Ok(FailedSeen)
      case Completed(document, hash, receipt) =>
        if hash != h.response(document) then Err(Integrity) else Ok(CompletedSeen(document, receipt))
  }

  function OutcomeOf(seen: Seen): Phase
    requires !seen.OwnerSeen?
  {
    match seen
    case CompletedSeen(r, receipt) => Finished(Success(r, receipt, true))
    case ReservedSeen => PollSleep
    case StaleSeen => Finished(Raised(Stale))
    case FailedSeen => Finished(Raised(FailedBefore))
  }

  /** Where an exception takes a caller: an owner goes to `fail`, everyone else returns. */
  function AfterError(phase: Phase, e: Error): Phase
  {
    match phase
    case Operating => FailCheckout(e)
    case CompleteGate(_) => FailCheckout(e)
    case CompleteCheckout(_) => FailCheckout(e)
    case Completing(_) => FailCheckout(e)
    case FailCheckout(reason) => Finished(Raised(reason))
    case Failing(reason) => Finished(Raised(reason))
    case _ => Finished(Raised(e))
  }

  // ----- Changing the state -----

  function With(s: State, c: CallerId, a: Caller): State { s.(callers := s.callers[c := a]) }

  /** What a commit writes to the tables. */
  function Written(db: Database, k: Key, w: Work): Database
  {
    match w
    case Insert(row) => db.(rows := db.rows[k := row])
    case StagedHead(e) =>
      if k in db.rows then
        db.(rows := db.rows[k := db.rows[k].(state := Completed(e.doc.response, e.doc.responseHash, e.eventHash))],
            heads := db.heads[e.doc.chain := ChainHead(e.doc.sequence, e.eventHash)],
            events := db.events + [e])
      else db
    case Fail(true) =>
      if k in db.rows then db.(rows := db.rows[k := db.rows[k].(state := Failed)]) else db
    case _ => db
  }

  // ----- Steps -----

  datatype Step =
    | Start(c: CallerId, worker: Worker, key: Key, digest: Digest)
    | Checkout(c: CallerId)
    | InsertRow(c: CallerId)
    | InsertConflict(c: CallerId)
    | ShareRow(c: CallerId)
    | SendCommit(sid: Session)
    | Commit(sid: Session)
    | Abort(sid: Session)
    | Ack(c: CallerId)
    | Poll(c: CallerId)
    | Operate(c: CallerId, response: Response)
    | TakeGate(c: CallerId)
    | LockRow(c: CallerId)
    | LockHead(c: CallerId)
    | InsertEvent(c: CallerId, eventId: nat, occurredAt: nat)
    | UpdateRow(c: CallerId)
    | UpdateHead(c: CallerId)
    | FailUpdate(c: CallerId)
    | ClientError(c: CallerId, error: Error)
    | Crash(c: CallerId)
    | Tick(elapsed: nat)

  /** The caller is inside its completion transaction. */
  predicate CompletingAt(s: State, c: CallerId)
  {
    c in s.callers && s.callers[c].phase.Completing? && s.callers[c].main.Open?
  }

  /** WHERE key_digest, request_digest and state = 'reserved'. */
  predicate RowMatches(s: State, a: Caller)
  {
    a.key in s.db.rows && s.db.rows[a.key].requestDigest == a.digest && s.db.rows[a.key].state.Reserved?
  }

  /** The statement that ends a transaction block has run. */
  predicate ReadyToCommit(s: State, sid: Session)
  {
    sid.c in s.callers &&
    var a := s.callers[sid.c];
    var tx := TxOf(a, sid);
    && HasConn(a.phase) && (sid.Recovery? <==> a.phase.Failing?)
    && tx.Open?
    && (tx.work.Insert? || tx.work.Share? || tx.work.StagedHead? || tx.work.Fail?)
  }

  predicate Acknowledged(s: State, c: CallerId)
  {
    c in s.callers &&
    var a := s.callers[c];
    match a.phase
    case ReserveCommit(_) => a.main.Ended? && a.main.committed
    case Completing(_) => a.main.Ended? && a.main.committed && a.main.work.StagedHead?
    case Failing(_) => a.recovery.Ended? && a.recovery.committed
    case _ => false
  }

  predicate Enabled(cfg: Config, s: State, step: Step)
  {
    match step
    case Start(c, _, _, _) => c !in s.callers
    case Checkout(c) =>
      c in s.callers && (s.callers[c].phase.ReserveCheckout? || s.callers[c].phase.PollSleep? || s.callers[c].phase.CompleteCheckout? || s.callers[c].phase.FailCheckout?)
      && |ConnHolders(s, s.callers[c].worker)| < cfg.poolSize
    case InsertRow(c) =>
      c in s.callers && s.callers[c].phase.ReserveInsert?
      && s.callers[c].key !in s.db.rows && RowUnlocked(s, s.callers[c].key)
    case InsertConflict(c) =>
      c in s.callers && s.callers[c].phase.ReserveInsert? && s.callers[c].key in s.db.rows
    case ShareRow(c) =>
      c in s.callers && s.callers[c].phase.ReserveShare? && RowUnlocked(s, s.callers[c].key)
    case SendCommit(sid) => ReadyToCommit(s, sid)
    case Commit(sid) => sid.c in s.callers && TxOf(s.callers[sid.c], sid).Committing?
    case Abort(sid) => sid.c in s.callers && Live(TxOf(s.callers[sid.c], sid))
    case Ack(c) => Acknowledged(s, c)
    case Poll(c) => c in s.callers && s.callers[c].phase.PollRead?
    case Operate(c, _) => c in s.callers && s.callers[c].phase.Operating?
    case TakeGate(c) => c in s.callers && s.callers[c].phase.CompleteGate? && GateFree(s, s.callers[c].worker)
    case LockRow(c) =>
      c in s.callers && s.callers[c].phase.Completing? && s.callers[c].main.NoTx? && RowFree(s, s.callers[c].key)
    case LockHead(c) => CompletingAt(s, c) && s.callers[c].main.work.LockedRow? && HeadFree(s)
    case InsertEvent(c, _, _) => CompletingAt(s, c) && s.callers[c].main.work.LockedHead?
    case UpdateRow(c) => CompletingAt(s, c) && s.callers[c].main.work.StagedEvent?
    case UpdateHead(c) => CompletingAt(s, c) && s.callers[c].main.work.StagedRow?
    case FailUpdate(c) =>
      c in s.callers && s.callers[c].phase.Failing? && s.callers[c].recovery.NoTx?
      && (RowMatches(s, s.callers[c]) ==> RowFree(s, s.callers[c].key))
    case ClientError(c, _) => c in s.callers && !s.callers[c].phase.Finished? && !s.callers[c].phase.Crashed?
    case Crash(c) => c in s.callers && !s.callers[c].phase.Finished? && !s.callers[c].phase.Crashed?
    case Tick(_) => true
  }

  // What the caller's record becomes.  Moving to a phase outside an `async with` block
  // gives back the connection and the gate; ending a transaction gives back its locks.

  function AfterCheckout(a: Caller): Caller
  {
    a.(phase := match a.phase
                case PollSleep => PollRead
                case CompleteCheckout(r) => Completing(r)
                case FailCheckout(reason) => Failing(reason)
                case _ => ReserveInsert)
  }

  function AfterInsertRow(cfg: Config, s: State, a: Caller): Caller
  {
    a.(main := Open(Insert(Row(a.digest, s.clock + cfg.ttl, Reserved))), phase := ReserveCommit(OwnerSeen))
  }

  /** The row is locked and its state and expiry are read in one step.  `_from_row` may
      raise inside the transaction block. */
  function AfterShareRow(cfg: Config, s: State, a: Caller): Caller
  {
    if a.key !in s.db.rows then a.(phase := Finished(Raised(Unavailable)))
    else
      a.(main := Open(Share),
         phase := match FromRow(cfg.hashing, s.db.rows[a.key], a.digest, s.clock)
                  case Ok(seen) => ReserveCommit(seen)
                  case Err(e) => Finished(Raised(e)))
  }

  function WithTx(a: Caller, sid: Session, tx: Tx): Caller
  {
    if sid.Main? then a.(main := tx) else a.(recovery := tx)
  }

  function AfterAck(a: Caller): Caller
    requires a.phase.Completing? ==> a.main.Ended? && a.main.work.StagedHead?
  {
    match a.phase
    case ReserveCommit(seen) => a.(main := NoTx, phase := if seen.OwnerSeen? then Operating else OutcomeOf(seen))
    case Completing(r) => a.(phase := Finished(Success(r, a.main.work.event.eventHash, false)))
    case Failing(reason) => a.(phase := Finished(Raised(reason)))
    case _ => a
  }

  function AfterPoll(cfg: Config, s: State, a: Caller): Caller
  {
    if a.key !in s.db.rows then a.(phase := Finished(Raised(Unavailable)))
    else match FromRow(cfg.hashing, s.db.rows[a.key], a.digest, s.clock)
      case Ok(seen) => a.(phase := if seen.OwnerSeen? then PollSleep else OutcomeOf(seen))
      case Err(e) => a.(phase := Finished(Raised(e)))
  }

  /** The checks that follow SELECT … FOR UPDATE. */
  function LockRowError(s: State, a: Caller): Option<Error>
  {
    if a.key !in s.db.rows then Some(Unavailable)
    else
      var row := s.db.rows[a.key];
      if row.requestDigest != a.digest then Some(Conflict)
      else if !row.state.Reserved? || row.expiresAt <= s.clock then Some(Stale)
      else None
  }

  /** A failed check raises inside the transaction block: the lock goes with the abort. */
  function AfterLockRow(s: State, a: Caller): Caller
  {
    var locked := a.(main := if a.key in s.db.rows then Open(LockedRow) else NoTx);
    match LockRowError(s, a)
    case None => locked
    case Some(e) => locked.(phase := FailCheckout(e))
  }

  function AfterLockHead(s: State, a: Caller): Caller
  {
    if PRIMARY !in s.db.heads then a.(phase := FailCheckout(Integrity))
    else a.(main := Open(LockedHead(s.db.heads[PRIMARY])))
  }

  function EventOf(cfg: Config, head: ChainHead, a: Caller, eventId: nat, response: Response, occurredAt: nat): Result<EventRow, IntegrityError>
  {
    BuildAuditEvent(cfg.hashing, eventId, PRIMARY, head.lastSequence + 1, head.lastHash,
                    a.key, a.digest, response, occurredAt)
  }

  /** The primary key and the three unique constraints of audit_events. */
  predicate UniqueAmong(events: seq<EventRow>, e: EventRow)
  {
    forall i :: 0 <= i < |events| ==>
      && events[i].doc.eventId != e.doc.eventId
      && events[i].eventHash != e.eventHash
      && events[i].doc.key != e.doc.key
      && !(events[i].doc.chain == e.doc.chain && events[i].doc.sequence == e.doc.sequence)
  }

  function AfterInsertEvent(cfg: Config, s: State, a: Caller, eventId: nat, occurredAt: nat): Caller
    requires a.phase.Completing? && a.main.Open? && a.main.work.LockedHead?
  {
    match EventOf(cfg, a.main.work.head, a, eventId, a.phase.response, occurredAt)
    case Err(_) => a.(phase := FailCheckout(Integrity))
    case Ok(e) =>
      if UniqueAmong(s.db.events, e) then a.(main := Open(StagedEvent(e)))
      else a.(phase := FailCheckout(Unavailable))
  }

  /** UPDATE … WHERE key, digest and state = 'reserved'; rowcount must be 1. */
  function AfterUpdateRow(s: State, a: Caller): Caller
    requires a.main.Open? && a.main.work.StagedEvent?
  {
    if RowMatches(s, a) then a.(main := Open(StagedRow(a.main.work.event)))
    else a.(phase := FailCheckout(Stale))
  }

  predicate HeadMatches(s: State, e: EventRow)
  {
    e.doc.chain in s.db.heads && s.db.heads[e.doc.chain] == ChainHead(e.doc.sequence - 1, e.doc.previousHash)
  }

  /** UPDATE … WHERE the head is the one the event was built on; rowcount must be 1. */
  function AfterUpdateHead(s: State, a: Caller): Caller
    requires a.main.Open? && a.main.work.StagedRow?
  {
    if HeadMatches(s, a.main.work.event) then a.(main := Open(StagedHead(a.main.work.event)))
    else a.(phase := FailCheckout(Integrity))
  }

  /** The record of the caller that takes the step. */
  function Moved(cfg: Config, s: State, step: Step): Caller
    requires Enabled(cfg, s, step) && !step.Tick? && !step.Commit?
  {
    match step
    case Start(c, w, k, d) => Caller(w, k, d, ReserveCheckout, NoTx, NoTx)
    case Checkout(c) => AfterCheckout(s.callers[c])
    case InsertRow(c) => AfterInsertRow(cfg, s, s.callers[c])
    case InsertConflict(c) => s.callers[c].(phase := ReserveShare)
    case ShareRow(c) => AfterShareRow(cfg, s, s.callers[c])
    case SendCommit(sid) => WithTx(s.callers[sid.c], sid, Committing(TxOf(s.callers[sid.c], sid).work))
    case Abort(sid) => WithTx(s.callers[sid.c], sid, Ended(TxOf(s.callers[sid.c], sid).work, false))
    case Ack(c) => AfterAck(s.callers[c])
    case Poll(c) => AfterPoll(cfg, s, s.callers[c])
    case Operate(c, r) => s.callers[c].(phase := CompleteGate(r))
    case TakeGate(c) => s.callers[c].(phase := CompleteCheckout(s.callers[c].phase.response))
    case LockRow(c) => AfterLockRow(s, s.callers[c])
    case LockHead(c) => AfterLockHead(s, s.callers[c])
    case InsertEvent(c, id, at) => AfterInsertEvent(cfg, s, s.callers[c], id, at)
    case UpdateRow(c) => AfterUpdateRow(s, s.callers[c])
    case UpdateHead(c) => AfterUpdateHead(s, s.callers[c])
    case FailUpdate(c) => s.callers[c].(recovery := Open(Fail(RowMatches(s, s.callers[c]))))
    case ClientError(c, e) => s.callers[c].(phase := AfterError(s.callers[c].phase, e))
    case Crash(c) => s.callers[c].(phase := Crashed)
  }

  function Actor(step: Step): CallerId
    requires !step.Tick?
  {
    if step.SendCommit? || step.Commit? || step.Abort? then step.sid.c else step.c
  }

  /** A commit writes the tables; nothing else does. */
  function Committed(s: State, sid: Session, w: Work): State
    requires sid.c in s.callers
  {
    var k := s.callers[sid.c].key;
    s.(db := Written(s.db, k, w), owners := if w.Insert? then s.owners[k := sid.c] else s.owners)
  }

  function AfterCommit(s: State, sid: Session): State
    requires sid.c in s.callers && Live(TxOf(s.callers[sid.c], sid))
  {
    var a := s.callers[sid.c];
    var w := TxOf(a, sid).work;
    With(Committed(s, sid, w), sid.c, WithTx(a, sid, Ended(w, true)))
  }

  /** The operation starts when the owner learns that its row was inserted. */
  predicate StartsOperation(s: State, c: CallerId)
  {
    c in s.callers && s.callers[c].phase == ReserveCommit(OwnerSeen)
  }

  function Acked(s: State, c: CallerId): State
  {
    if StartsOperation(s, c) then s.(runs := s.runs + multiset{s.callers[c].key}) else s
  }

  function Next(cfg: Config, s: State, step: Step): State
    requires Enabled(cfg, s, step)
  {
    match step
    case Tick(elapsed) => s.(clock := s.clock + elapsed)
    case Commit(sid) => AfterCommit(s, sid)
    case Ack(c) => With(Acked(s, c), c, Moved(cfg, s, step))
    case _ => With(s, Actor(step), Moved(cfg, s, step))
  }

  // ----- Runs -----

  /** The tables the migrations leave behind, and no caller yet. */
  function InitialState(clock: nat): State
  {
    State(Database(map[], map[PRIMARY := ChainHead(0, GENESIS)], []), clock,
          map[], map[], multiset{})
  }

  /** The states of a run from `s` that takes `steps` in turn. */
  ghost predicate Runs(cfg: Config, s: State, steps: seq<Step>, t: State)
    decreases |steps|
  {
    if |steps| == 0 then t == s
    else Enabled(cfg, s, steps[0]) && Runs(cfg, Next(cfg, s, steps[0]), steps[1..], t)
  }

  ghost predicate CanReach(cfg: Config, s: State, t: State)
  {
    exists steps :: Runs(cfg, s, steps, t)
  }

  ghost predicate Reachable(cfg: Config, s: State)
  {
    exists clock :: CanReach(cfg, InitialState(clock), s)
  }
}

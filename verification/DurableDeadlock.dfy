/** Resources of the durable protocol are taken in one order (gate, connection, row,
    head), so its waits-for graph has no cycle in any reachable state. */
module DurableDeadlock {
  import opened Wrappers
  import opened PostgresAudit
  import opened DurableProtocol
  import opened DurableInvariant
  import opened DurableSteps
  import opened DurableAgreement

  datatype Resource = Gate(w: Worker) | Connection(w: Worker) | RowLock(k: Key) | HeadLock

  /** The resource a session asks for next, if it needs one to go on. */
  function Wants(s: State, sid: Session): Option<Resource>
  {
    if sid.c !in s.callers then None
    else
      var a := s.callers[sid.c];
      if sid.Recovery? then
        match a.phase
        case FailCheckout(_) => Some(Connection(a.worker))
        case Failing(_) => if a.recovery.NoTx? then Some(RowLock(a.key)) else None
        case _ => None
      else
        match a.phase
        case ReserveCheckout => Some(Connection(a.worker))
        case PollSleep => Some(Connection(a.worker))
        case CompleteCheckout(_) => Some(Connection(a.worker))
        case ReserveInsert => Some(RowLock(a.key))
        case ReserveShare => Some(RowLock(a.key))
        case CompleteGate(_) => Some(Gate(a.worker))
        case Completing(_) =>
          if a.main.NoTx? then Some(RowLock(a.key))
          else if a.main.Open? && a.main.work.LockedRow? then Some(HeadLock)
          else None
        case _ => None
  }

  predicate HoldsResource(s: State, sid: Session, r: Resource)
  {
    sid.c in s.callers &&
    var a := s.callers[sid.c];
    match r
    case Gate(w) => a.worker == w && sid.Main? && HasGate(a.phase)
    case Connection(w) => a.worker == w && HasConn(a.phase) && (sid.Recovery? <==> a.phase.Failing?)
    case RowLock(k) => a.key == k && (HoldsX(TxOf(a, sid)) || HoldsS(TxOf(a, sid)))
    case HeadLock => HoldsHead(TxOf(a, sid))
  }

  /** `x` wants what `y` holds.  This is every edge there can be: an edge to each holder
      of a connection, to shared as well as exclusive holders of a row. */
  predicate WaitsFor(s: State, x: Session, y: Session)
  {
    Wants(s, x).Some? && HoldsResource(s, y, Wants(s, x).value)
  }

  ghost predicate WaitsForNobody(s: State, x: Session) { forall y :: !WaitsFor(s, x, y) }

  function Rank(r: Resource): nat
  {
    match r
    case Gate(_) => 0
    case Connection(_) => 1
    case RowLock(_) => 2
    case HeadLock => 3
  }

  function Level(s: State, sid: Session): nat
  {
    if Wants(s, sid).Some? then Rank(Wants(s, sid).value) else 4
  }

  /** A holder waits, if at all, for something further along the order. */
  lemma HoldersAreFurtherAlong(cfg: Config, s: State, x: Session, y: Session)
    requires Reachable(cfg, s) && WaitsFor(s, x, y)
    ensures Level(s, x) < Level(s, y)
  {
    CallerKnown(cfg, s, y.c);
  }

  ghost predicate WaitingPath(s: State, p: seq<Session>)
  {
    forall i :: 0 <= i < |p| - 1 ==> WaitsFor(s, p[i], p[i + 1])
  }

  lemma {:induction false} LevelsRise(cfg: Config, s: State, p: seq<Session>)
    requires Reachable(cfg, s) && |p| >= 2 && WaitingPath(s, p)
    ensures Level(s, p[0]) < Level(s, p[|p| - 1])
    decreases |p|
  {
    HoldersAreFurtherAlong(cfg, s, p[|p| - 2], p[|p| - 1]);
    if |p| > 2 {
      var q := p[..|p| - 1];
      assert WaitingPath(s, q);
      LevelsRise(cfg, s, q);
    }
  }

  /** No reachable state has a waits-for cycle, of whatever length. */
  lemma NoDeadlock(cfg: Config, s: State, p: seq<Session>)
    requires Reachable(cfg, s) && |p| >= 2 && WaitingPath(s, p)
    ensures p[0] != p[|p| - 1]
  {
    LevelsRise(cfg, s, p);
  }

  /** Following the waits-for edges from any session ends, after at most four, at one that
      waits for nothing anybody holds. */
  lemma {:induction false} SomeoneCanMove(cfg: Config, s: State, x: Session) returns (p: seq<Session>)
    requires Reachable(cfg, s)
    ensures 1 <= |p| <= 5 - Level(s, x) && p[0] == x && WaitingPath(s, p)
    ensures WaitsForNobody(s, p[|p| - 1])
    decreases 4 - Level(s, x)
  {
    if !WaitsForNobody(s, x) {
      var y :| WaitsFor(s, x, y);
      HoldersAreFurtherAlong(cfg, s, x, y);
      var q := SomeoneCanMove(cfg, s, y);
      p := [x] + q;
    } else {
      p := [x];
    }
  }

  /** The step a transaction in this state takes next, with or without its client. */
  function TxStep(sid: Session, tx: Tx, attached: bool): Step
    requires !tx.NoTx?
  {
    if tx.Committing? then Commit(sid)
    else if !attached then Abort(sid)
    else if tx.Ended? then (if tx.committed then Ack(sid.c) else ClientError(sid.c, Unavailable))
    else match tx.work
      case LockedRow => LockHead(sid.c)
      case LockedHead(_) => InsertEvent(sid.c, 0, 0)
      case StagedEvent(_) => UpdateRow(sid.c)
      case StagedRow(_) => UpdateHead(sid.c)
      case _ => SendCommit(sid)
  }

  function NextStep(s: State, sid: Session): Step
    requires sid.c in s.callers
  {
    var a := s.callers[sid.c];
    var attached := HasConn(a.phase) && (sid.Recovery? <==> a.phase.Failing?);
    if !TxOf(a, sid).NoTx? then TxStep(sid, TxOf(a, sid), attached)
    else match a.phase
      case ReserveInsert => if a.key in s.db.rows then InsertConflict(sid.c) else InsertRow(sid.c)
      case ReserveShare => ShareRow(sid.c)
      case CompleteGate(_) => TakeGate(sid.c)
      case Completing(_) => LockRow(sid.c)
      case PollRead => Poll(sid.c)
      case Failing(_) => FailUpdate(sid.c)
      case _ => Checkout(sid.c)
  }

  lemma FreeResourceIsGranted(cfg: Config, s: State, sid: Session)
    requires sid.c in s.callers && CallerOk(cfg, s, sid.c) && cfg.poolSize >= 1
    requires Wants(s, sid).Some?
    requires match Wants(s, sid).value
             case Gate(w) => GateFree(s, w)
             case Connection(w) => |ConnHolders(s, w)| == 0
             case RowLock(k) => RowFree(s, k)
             case HeadLock => HeadFree(s)
    ensures Enabled(cfg, s, NextStep(s, sid)) && Actor(NextStep(s, sid)) == sid.c
  {
  }

  lemma HolderMoves(cfg: Config, s: State, sid: Session, r: Resource)
    requires sid.c in s.callers && CallerOk(cfg, s, sid.c)
    requires Wants(s, sid).None? && HoldsResource(s, sid, r)
    ensures Enabled(cfg, s, NextStep(s, sid)) && Actor(NextStep(s, sid)) == sid.c
  {
  }

  /** A session that wants or holds something, and waits for nobody, can take its next
      step: the tables of who holds what leave no hidden reason to be stuck. */
  lemma WaitsForNobodyMoves(cfg: Config, s: State, sid: Session, r: Resource)
    requires Reachable(cfg, s) && cfg.poolSize >= 1 && sid.c in s.callers
    requires Wants(s, sid) == Some(r) || HoldsResource(s, sid, r)
    requires WaitsForNobody(s, sid)
    ensures Enabled(cfg, s, NextStep(s, sid)) && Actor(NextStep(s, sid)) == sid.c
  {
    CallerKnown(cfg, s, sid.c);
    if Wants(s, sid).Some? {
      var wanted := Wants(s, sid).value;
      forall y ensures !HoldsResource(s, y, wanted) { assert !WaitsFor(s, sid, y); }
      NobodyHolds(s, wanted);
      FreeResourceIsGranted(cfg, s, sid);
    } else {
      HolderMoves(cfg, s, sid, r);
    }
  }

  /** What a resource nobody holds means for the guards of the steps. */
  lemma NobodyHolds(s: State, r: Resource)
    requires forall y :: !HoldsResource(s, y, r)
    ensures match r
            case Gate(w) => GateFree(s, w)
            case Connection(w) => |ConnHolders(s, w)| == 0
            case RowLock(k) => RowFree(s, k)
            case HeadLock => HeadFree(s)
  {
    match r {
      case Gate(w) =>
        forall d | d in s.callers && s.callers[d].worker == w ensures !HasGate(s.callers[d].phase) {
          assert !HoldsResource(s, Main(d), r);
        }
      case Connection(w) =>
        assert forall d :: d in ConnHolders(s, w) ==> HoldsResource(s, Main(d), r) || HoldsResource(s, Recovery(d), r);
        assert ConnHolders(s, w) == {};
      case RowLock(k) =>
        forall d | d in s.callers && s.callers[d].key == k ensures !LocksRow(s.callers[d]) && !HoldsS(s.callers[d].main) {
          assert !HoldsResource(s, Main(d), r) && !HoldsResource(s, Recovery(d), r);
        }
      case HeadLock =>
        forall d | d in s.callers ensures !HoldsHead(s.callers[d].main) {
          assert !HoldsResource(s, Main(d), r);
        }
    }
  }

  // ----- The completion gate protects the pool -----

  /** Two completions of one worker never hold connections at the same time, so
      completions alone cannot exhaust a pool of two or more. */
  lemma CompletionsLeaveAConnection(cfg: Config, s: State, w: Worker)
    requires Reachable(cfg, s) && cfg.poolSize >= 2
    requires forall c :: c in ConnHolders(s, w) ==> s.callers[c].phase.Completing?
    ensures |ConnHolders(s, w)| < cfg.poolSize
  {
    ReachableInv(cfg, s);
    CompletionsShareNoGate(s, w);
  }

  lemma CompletionsShareNoGate(s: State, w: Worker)
    requires LocksOk(s) && forall c :: c in ConnHolders(s, w) ==> s.callers[c].phase.Completing?
    ensures |ConnHolders(s, w)| <= 1
  {
    var holders := ConnHolders(s, w);
    if holders != {} {
      var c :| c in holders;
      forall d | d in holders ensures d == c {
        assert d != c ==> Apart(s.callers[c], s.callers[d]);
      }
      assert holders == {c};
    }
  }
}

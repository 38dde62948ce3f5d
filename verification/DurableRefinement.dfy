/** The durable protocol refines an atomic specification: a map from keys to entries and
    an append-only log, in which a completion flips the entry, appends its event and
    advances the head in a single step. */
module DurableRefinement {
  import opened Wrappers
  import opened HashChain
  import opened PostgresAudit
  import opened DurableProtocol
  import opened DurableInvariant
  import opened DurableSteps
  import opened DurableAgreement

  // ----- The specification -----

  datatype Status = Pending | Broken | Done(response: Response, receipt: Digest)

  datatype Entry = Entry(digest: Digest, status: Status)

  datatype Spec = Spec(entries: map<Key, Entry>, log: seq<EventRow>)

  datatype Op =
    | Reserve(k: Key, digest: Digest)
    | GiveUp(k: Key)
    | Complete(k: Key, response: Response, eventId: nat, occurredAt: nat)

  predicate IsPending(a: Spec, k: Key) { k in a.entries && a.entries[k].status.Pending? }

  predicate Allowed(a: Spec, op: Op)
  {
    match op
    case Reserve(k, _) => k !in a.entries
    case GiveUp(k) => IsPending(a, k)
    case Complete(k, _, _, _) => IsPending(a, k)
  }

  /** The next event of the log, built on its current end. */
  function NextEvent(h: Hashing, a: Spec, op: Op): EventRow
    requires op.Complete? && IsPending(a, op.k)
  {
    var doc := EventDocument(op.eventId, PRIMARY, |a.log| + 1, Head(StoredHash, a.log), op.k, a.entries[op.k].digest,
                             op.response.decision, op.response, h.response(op.response), op.occurredAt);
    EventRow(doc, h.event(doc))
  }

  function Applied(h: Hashing, a: Spec, op: Op): Spec
    requires Allowed(a, op)
  {
    match op
    case Reserve(k, d) => Spec(a.entries[k := Entry(d, Pending)], a.log)
    case GiveUp(k) => Spec(a.entries[k := a.entries[k].(status := Broken)], a.log)
    case Complete(k, r, _, _) =>
      var e := NextEvent(h, a, op);
      Spec(a.entries[k := a.entries[k].(status := Done(r, e.eventHash))], a.log + [e])
  }

  ghost predicate SpecRuns(h: Hashing, a: Spec, ops: seq<Op>, b: Spec)
    decreases |ops|
  {
    if |ops| == 0 then b == a
    else Allowed(a, ops[0]) && SpecRuns(h, Applied(h, a, ops[0]), ops[1..], b)
  }

  // ----- The abstraction -----

  function StatusOf(state: RowState): Status
  {
    match state
    case Reserved => Pending
    case Failed => Broken
    case Completed(r, _, receipt) => Done(r, receipt)
  }

  function Abstract(db: Database): Spec
  {
    Spec(map k | k in db.rows :: Entry(db.rows[k].requestDigest, StatusOf(db.rows[k].state)), db.events)
  }

  /** The head row is the end of the log, always. */
  predicate HeadFollowsLog(db: Database)
  {
    db.heads == map[PRIMARY := ChainHead(|db.events|, Head(StoredHash, db.events))]
  }

  /** The operation a step performs on the specification, if any. */
  function OpOf(s: State, step: Step): Option<Op>
  {
    if step.Commit? && step.sid.c in s.callers && TxOf(s.callers[step.sid.c], step.sid).Committing? then
      var a := s.callers[step.sid.c];
      match TxOf(a, step.sid).work
      case Insert(row) => Some(Reserve(a.key, a.digest))
      case StagedHead(e) => Some(Complete(a.key, e.doc.response, e.doc.eventId, e.doc.occurredAt))
      case Fail(true) => Some(GiveUp(a.key))
      case _ => None
    else None
  }

  // ----- Refinement -----

  lemma InsertRefines(db: Database, k: Key, row: Row)
    requires row.state.Reserved?
    ensures Abstract(Written(db, k, Insert(row))).entries == Abstract(db).entries[k := Entry(row.requestDigest, Pending)]
  {
  }

  lemma RowRefines(db: Database, k: Key, state: RowState)
    requires k in db.rows
    ensures Abstract(db.(rows := db.rows[k := db.rows[k].(state := state)])).entries
            == Abstract(db).entries[k := Abstract(db).entries[k].(status := StatusOf(state))]
  {
  }

  /** A completion's staged event is the specification's next event. */
  lemma CompletionRefines(cfg: Config, s: State, sid: Session)
    requires sid.c in s.callers && CallerOk(cfg, s, sid.c) && HeadFollowsLog(s.db)
    requires TxOf(s.callers[sid.c], sid).Committing? && TxOf(s.callers[sid.c], sid).work.StagedHead?
    ensures var op := OpOf(s, Commit(sid));
            && op.Some? && Allowed(Abstract(s.db), op.value)
            && Abstract(AfterCommit(s, sid).db) == Applied(cfg.hashing, Abstract(s.db), op.value)
  {
    var a := s.callers[sid.c];
    var e := a.main.work.event;
    var op := OpOf(s, Commit(sid)).value;
    assert e == NextEvent(cfg.hashing, Abstract(s.db), op);
    RowRefines(s.db, a.key, Completed(e.doc.response, e.doc.responseHash, e.eventHash));
  }

  lemma CommitRefines(cfg: Config, s: State, sid: Session)
    requires sid.c in s.callers && CallerOk(cfg, s, sid.c) && HeadFollowsLog(s.db)
    requires TxOf(s.callers[sid.c], sid).Committing?
    ensures match OpOf(s, Commit(sid))
            case Some(op) =>
              Allowed(Abstract(s.db), op) && Abstract(AfterCommit(s, sid).db) == Applied(cfg.hashing, Abstract(s.db), op)
            case None => AfterCommit(s, sid).db == s.db
  {
    var a := s.callers[sid.c];
    match TxOf(a, sid).work {
      case StagedHead(_) => CompletionRefines(cfg, s, sid);
      case Insert(row) => InsertRefines(s.db, a.key, row);
      case Fail(true) => RowRefines(s.db, a.key, Failed);
      case _ =>
    }
  }

  /** Every step performs one allowed operation of the specification, or leaves it alone. */
  lemma StepRefines(cfg: Config, s: State, step: Step)
    requires Inv(cfg, s) && Enabled(cfg, s, step)
    ensures match OpOf(s, step)
            case Some(op) =>
              Allowed(Abstract(s.db), op) && Abstract(Next(cfg, s, step).db) == Applied(cfg.hashing, Abstract(s.db), op)
            case None => Abstract(Next(cfg, s, step).db) == Abstract(s.db)
  {
    if step.Commit? {
      assert CallerOk(cfg, s, step.sid.c);
      CommitRefines(cfg, s, step.sid);
    }
  }

  /** Every run of the protocol is a run of the specification, whatever the interleaving,
      the failures and the crashes. */
  lemma {:induction false} RunRefines(cfg: Config, s: State, steps: seq<Step>, t: State) returns (ops: seq<Op>)
    requires Inv(cfg, s) && Runs(cfg, s, steps, t)
    ensures |ops| <= |steps| && SpecRuns(cfg.hashing, Abstract(s.db), ops, Abstract(t.db))
    decreases |steps|
  {
    if |steps| == 0 {
      ops := [];
    } else {
      var n := Next(cfg, s, steps[0]);
      StepRefines(cfg, s, steps[0]);
      StepKeepsInv(cfg, s, steps[0]);
      ops := RunRefines(cfg, n, steps[1..], t);
      if OpOf(s, steps[0]).Some? {
        var rest := ops;
        ops := [OpOf(s, steps[0]).value] + rest;
        assert ops[1..] == rest;
      }
    }
  }

  /** From the empty tables: the reached map and log are ones the specification reaches,
      and the head row is the end of the log. */
  lemma ReachableRefines(cfg: Config, s: State)
    requires Reachable(cfg, s)
    ensures exists ops :: SpecRuns(cfg.hashing, Spec(map[], []), ops, Abstract(s.db))
    ensures HeadFollowsLog(s.db)
  {
    var clock :| CanReach(cfg, InitialState(clock), s);
    var steps :| Runs(cfg, InitialState(clock), steps, s);
    InitialInv(cfg, clock);
    var ops := RunRefines(cfg, InitialState(clock), steps, s);
    assert Abstract(InitialState(clock).db) == Spec(map[], []);
    TablesKnown(cfg, s);
  }

  /** What a caller was told is what the specification's map says, with its own digest. */
  lemma ResultsRefine(cfg: Config, s: State, c: CallerId)
    requires Reachable(cfg, s) && Succeeded(s, c)
    ensures var a := s.callers[c];
            && a.key in Abstract(s.db).entries
            && Abstract(s.db).entries[a.key] == Entry(a.digest, Done(a.phase.outcome.response, a.phase.outcome.receipt))
  {
    CallerKnown(cfg, s, c);
  }
}

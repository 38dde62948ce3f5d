/** The local profile over a whole process run: registry, scoring, append and publication
    in the order of the prediction routes (api/main.py), with failures anywhere. */
module LocalRun {
  import opened HashChain
  import opened LocalAudit
  import opened LocalEvidence
  import opened LocalWriter
  import opened LocalRegistry
  import opened Wrappers

  type ClientId = nat

  /** What a client is given: the scored decisions and the receipts of their events. */
  datatype Release = Release(decisions: seq<Decision>, receipts: seq<Digest>)

  datatype Stage =
    | Scoring(x: EntryId)            // owner; the operation is running
    | Failing(x: EntryId)            // owner; an exception is on its way to `fail`
    | Waiting(x: EntryId)            // replay
    | Released(result: Release, replay: bool)
    | Raised

  datatype Client = Client(id: RequestId, digest: Digest, stage: Stage)

  /** `log` (the events of all complete appends, after those found at start), `appends`
      (how many complete appends each request had) and `traced` (whether an append stopped
      with some of its bytes in the log) are history. */
  datatype State = State(table: Table<Release>, files: Files, writer: Anchor, clients: map<ClientId, Client>,
                         log: seq<Event>, appends: multiset<RequestId>, traced: bool)

  datatype Step =
    | Arrive(c: ClientId, id: RequestId, digest: Digest)
    | Publish(c: ClientId, q: Request, now: nat, ids: nat -> nat, files: Files, writer: Anchor, receipts: seq<Digest>)
    | AppendFails(c: ClientId, q: Request, now: nat, ids: nat -> nat, files: Files, p: Bytes)
    | ScoringFails(c: ClientId)
    | Fail(c: ClientId, error: string)
    | Wake(c: ClientId)
    | Cancel(c: ClientId)

  /** Nothing between the end of scoring and the publication awaits, so append and
      `complete` are one step; an owner that is cancelled or times out fails while it is
      scoring, and nothing interrupts it in `fail`, whose lock is never held across an
      await.  Event identifiers are fresh (uuid4). */
  ghost predicate Enabled(cd: Codec, s: State, step: Step)
  {
    match step
    case Arrive(c, _, _) => c !in s.clients && TableOk(s.table)
    case Publish(c, q, now, ids, files, writer, receipts) =>
      && Scores(s, c, q)
      && FreshIds(s.log, q, ids)
      && Complete(cd, s.files, s.writer, q, now, ids, files, writer, receipts)
    case AppendFails(c, q, now, ids, files, p) =>
      && Scores(s, c, q)
      && FreshIds(s.log, q, ids)
      && (files == s.files || Interrupted(cd, s.files, s.writer, q, now, ids, files, p))
    case ScoringFails(c) => c in s.clients && s.clients[c].stage.Scoring?
    case Fail(c, _) => c in s.clients && s.clients[c].stage.Failing? && s.clients[c].stage.x < |s.table.entries|
    case Wake(c) =>
      && c in s.clients && s.clients[c].stage.Waiting? && s.clients[c].stage.x < |s.table.entries|
      && !s.table.entries[s.clients[c].stage.x].state.Pending?
    case Cancel(c) => c in s.clients && s.clients[c].stage.Waiting?
  }

  /** The failing append leaves some of its bytes in the log. */
  predicate LeavesTrace(s: State, step: Step) { step.AppendFails? && LogBytes(step.files) != LogBytes(s.files) }

  /** The client owns its reservation, and the request is what it scored. */
  predicate Scores(s: State, c: ClientId, q: Request)
  {
    && c in s.clients && s.clients[c].stage.Scoring? && s.clients[c].stage.x < |s.table.entries|
    && q.id == s.clients[c].id && q.inputDigest == s.clients[c].digest
  }

  ghost predicate FreshIds(log: seq<Event>, q: Request, ids: nat -> nat)
  {
    && (forall i, j :: 0 <= i < j < |q.decisions| ==> ids(i) != ids(j))
    && (forall i, j :: 0 <= i < |log| && 0 <= j < |q.decisions| ==> log[i].body.eventId != ids(j))
  }

  function At(s: State, c: ClientId, stage: Stage): State
    requires c in s.clients
  {
    s.(clients := s.clients[c := s.clients[c].(stage := stage)])
  }

  function StageOf(r: Result<Reservation, RegistryError>): Stage
  {
    match r
    case Err(_) => Raised
    case Ok(Owner(x)) => Scoring(x)
    case Ok(Replay(x)) => Waiting(x)
  }

  function Arrival(s: State, c: ClientId, id: RequestId, digest: Digest): State
    requires TableOk(s.table)
  {
    var (table, r) := Reserved(s.table, id, digest);
    s.(table := table, clients := s.clients[c := Client(id, digest, StageOf(r))])
  }

  function Publication(cd: Codec, s: State, c: ClientId, q: Request, now: nat, ids: nat -> nat,
                       files: Files, writer: Anchor, receipts: seq<Digest>): State
    requires Scores(s, c, q)
  {
    var result := Release(q.decisions, receipts);
    State(LocalRegistry.Completed(s.table, s.clients[c].stage.x, result), files, writer,
          s.clients[c := s.clients[c].(stage := Released(result, false))],
          s.log + Added(cd, s.log, q, now, ids), s.appends + multiset{q.id}, s.traced)
  }

  function Failure(s: State, c: ClientId, error: string): State
    requires c in s.clients && s.clients[c].stage.Failing? && s.clients[c].stage.x < |s.table.entries|
  {
    At(s, c, Raised).(table := LocalRegistry.Failed(s.table, s.clients[c].stage.x, error))
  }

  ghost function Next(cd: Codec, s: State, step: Step): State
    requires Enabled(cd, s, step)
  {
    match step
    case Arrive(c, id, digest) => Arrival(s, c, id, digest)
    case Publish(c, q, now, ids, files, writer, receipts) => Publication(cd, s, c, q, now, ids, files, writer, receipts)
    case AppendFails(c, _, _, _, files, _) =>
      At(s, c, Failing(s.clients[c].stage.x)).(files := files, traced := s.traced || LeavesTrace(s, step))
    case ScoringFails(c) => At(s, c, Failing(s.clients[c].stage.x))
    case Fail(c, error) => Failure(s, c, error)
    case Wake(c) =>
      var e := s.table.entries[s.clients[c].stage.x];
      At(s, c, if e.state.Published? then Released(e.state.result, true) else Raised)
    case Cancel(c) => At(s, c, Raised)
  }

  // ----- Invariant -----

  /** The client owns the entry that is current for its identifier, and it is pending. */
  predicate OwnsEntry(s: State, a: Client, x: EntryId)
  {
    && x < |s.table.entries| && s.table.entries[x] == Entry(a.id, a.digest, Pending)
    && a.id in s.table.slots && s.table.slots[a.id] == x
  }

  predicate IsOwner(a: Client) { a.stage.Scoring? || a.stage.Failing? }

  /** The receipts are those of consecutive events of the log, one for each decision of
      this request. */
  ghost predicate InLog(s: State, id: RequestId, digest: Digest, r: Release)
  {
    exists k :: 0 <= k && k + |r.receipts| <= |s.log| && RecordedAt(s.log, k, id, digest, r)
  }

  /** Each event, all of one time, states its decision as it was released. */
  predicate RecordedAt(log: seq<Event>, k: nat, id: RequestId, digest: Digest, r: Release)
    requires k + |r.receipts| <= |log|
  {
    |r.receipts| == |r.decisions| && forall j :: 0 <= j < |r.receipts| ==>
      && log[k + j].eventHash == r.receipts[j] && Pair(log[k + j]) == (id, j)
      && log[k + j].body.inputDigest == digest && log[k + j].body.occurredAt == log[k].body.occurredAt
      && DecisionOk(r.decisions[j]) && log[k + j].body.decision.verdict == r.decisions[j].verdict
      && log[k + j].body.decision.score == Double(r.decisions[j].score)
      && log[k + j].body.decision.threshold == Double(r.decisions[j].threshold)
      && log[k + j].body.decision.modelVersion == r.decisions[j].modelVersion
      && log[k + j].body.decision.fingerprint == r.decisions[j].fingerprint
  }

  ghost predicate ClientOk(s: State, a: Client)
  {
    match a.stage
    case Scoring(x) => OwnsEntry(s, a, x)
    case Failing(x) => OwnsEntry(s, a, x)
    case Waiting(x) => x < |s.table.entries| && s.table.entries[x].id == a.id && s.table.entries[x].digest == a.digest
    case Released(r, _) => CurrentResult(s, a, r)
    case Raised => true
  }

  /** The current entry of the identifier carries this result. */
  predicate CurrentResult(s: State, a: Client, r: Release)
  {
    && a.id in s.table.slots && s.table.slots[a.id] < |s.table.entries|
    && s.table.entries[s.table.slots[a.id]] == Entry(a.id, a.digest, Published(r))
  }

  /** A published entry stays current, and its receipts are in the log. */
  ghost predicate EntryOk(s: State, x: EntryId)
    requires x < |s.table.entries|
  {
    var e := s.table.entries[x];
    e.state.Published? ==>
      && e.id in s.table.slots && s.table.slots[e.id] == x
      && s.appends[e.id] == 1
      && InLog(s, e.id, e.digest, e.state.result)
  }

  ghost predicate LogOk(cd: Codec, start: seq<Event>, s: State)
  {
    && start <= s.log && FilesOk(cd, s)
    && (forall i :: |start| <= i < |s.log| ==> KeyOk(cd, s.log[i].body) && s.appends[s.log[i].body.requestId] > 0)
  }

  /** The event names the key that the identifier of its request hashes to. */
  predicate KeyOk(cd: Codec, body: Unsigned) { body.keyDigest == cd.keyHash(body.requestId) }

  /** The files hold the log as the writer remembers it, unless an append left a trace:
      then they match what the writer remembers for no events at all. */
  ghost predicate FilesOk(cd: Codec, s: State)
  {
    if s.traced then forall all :: !InSync(cd, s.files, s.writer, all) else InSync(cd, s.files, s.writer, s.log)
  }

  /** A request with a complete append has a published current entry. */
  ghost predicate AppendsOk(s: State)
  {
    forall id :: s.appends[id] <= 1 && (s.appends[id] > 0 ==> IsPublished(s, id))
  }

  predicate IsPublished(s: State, id: RequestId)
  {
    id in s.table.slots && s.table.slots[id] < |s.table.entries| && s.table.entries[s.table.slots[id]].state.Published?
  }

  /** Owners, and clients released by their own append. */
  predicate IsFirst(a: Client) { IsOwner(a) || (a.stage.Released? && !a.stage.replay) }

  ghost predicate FirstsUnique(s: State)
  {
    forall c, d :: c in s.clients && d in s.clients && c != d && s.clients[c].id == s.clients[d].id ==>
      !(IsFirst(s.clients[c]) && IsFirst(s.clients[d]))
  }

  ghost predicate EntriesOk(s: State) { forall x :: 0 <= x < |s.table.entries| ==> EntryOk(s, x) }

  /** Each client is in order, and asks for an identifier the log had not seen at start. */
  ghost predicate ClientsOk(start: seq<Event>, s: State)
  {
    forall c :: c in s.clients ==> ClientOk(s, s.clients[c]) && NewTo(start, s.clients[c].id)
  }

  predicate NewTo(start: seq<Event>, id: RequestId) { forall i :: 0 <= i < |start| ==> start[i].body.requestId != id }

  ghost predicate Inv(cd: Codec, start: seq<Event>, s: State)
  {
    TableOk(s.table) && LogOk(cd, start, s) && AppendsOk(s) && EntriesOk(s) && ClientsOk(start, s) && FirstsUnique(s)
  }

  // ----- Steps -----

  lemma ArriveKeepsEntries(s: State, c: ClientId, id: RequestId, digest: Digest)
    requires TableOk(s.table) && AppendsOk(s) && EntriesOk(s)
    ensures TableOk(Arrival(s, c, id, digest).table) && AppendsOk(Arrival(s, c, id, digest))
    ensures EntriesOk(Arrival(s, c, id, digest))
  {
    var t := Arrival(s, c, id, digest);
    forall x | 0 <= x < |t.table.entries| ensures EntryOk(t, x) {
      if x < |s.table.entries| { assert EntryOk(s, x); }
    }
  }

  lemma ArriveKeepsClients(start: seq<Event>, s: State, c: ClientId, id: RequestId, digest: Digest)
    requires TableOk(s.table) && ClientsOk(start, s) && FirstsUnique(s) && c !in s.clients && NewTo(start, id)
    ensures ClientsOk(start, Arrival(s, c, id, digest)) && FirstsUnique(Arrival(s, c, id, digest))
  {
    var t := Arrival(s, c, id, digest);
    forall d | d in t.clients ensures ClientOk(t, t.clients[d]) {
      if d != c { assert ClientOk(s, s.clients[d]); }
    }
    forall d | d in s.clients && s.clients[d].id == id && IsFirst(s.clients[d]) ensures id in s.table.slots {
      assert ClientOk(s, s.clients[d]);
    }
  }

  lemma StageKeepsClients(start: seq<Event>, s: State, c: ClientId, stage: Stage)
    requires ClientsOk(start, s) && FirstsUnique(s) && c in s.clients
    requires ClientOk(s, s.clients[c].(stage := stage))
    requires IsFirst(s.clients[c].(stage := stage)) ==> IsFirst(s.clients[c])
    ensures ClientsOk(start, At(s, c, stage)) && FirstsUnique(At(s, c, stage))
  {
    var t := At(s, c, stage);
    forall d | d in t.clients ensures ClientOk(t, t.clients[d]) { assert ClientOk(s, s.clients[d]); }
  }

  /** What the table, the counts and the clients say does not depend on the files. */
  lemma FilesDoNotMatter(start: seq<Event>, s: State, files: Files, traced: bool)
    requires EntriesOk(s) && ClientsOk(start, s) && FirstsUnique(s) && AppendsOk(s)
    ensures var t := s.(files := files, traced := traced);
            EntriesOk(t) && ClientsOk(start, t) && FirstsUnique(t) && AppendsOk(t)
  {
    var t := s.(files := files, traced := traced);
    forall x | 0 <= x < |t.table.entries| ensures EntryOk(t, x) { assert EntryOk(s, x); }
    forall d | d in t.clients ensures ClientOk(t, t.clients[d]) { assert ClientOk(s, s.clients[d]); }
  }

  lemma StageKeepsEntries(s: State, c: ClientId, stage: Stage)
    requires EntriesOk(s) && AppendsOk(s) && c in s.clients
    ensures EntriesOk(At(s, c, stage)) && AppendsOk(At(s, c, stage))
  {
    forall x | 0 <= x < |s.table.entries| ensures EntryOk(At(s, c, stage), x) { assert EntryOk(s, x); }
  }

  /** A change of one client's stage, and perhaps of the files. */
  lemma StageKeepsInv(cd: Codec, start: seq<Event>, s: State, c: ClientId, stage: Stage, files: Files, traced: bool)
    requires Inv(cd, start, s) && c in s.clients
    requires ClientOk(s, s.clients[c].(stage := stage))
    requires IsFirst(s.clients[c].(stage := stage)) ==> IsFirst(s.clients[c])
    requires LogOk(cd, start, s.(files := files, traced := traced))
    ensures Inv(cd, start, At(s, c, stage).(files := files, traced := traced))
  {
    StageKeepsClients(start, s, c, stage);
    StageKeepsEntries(s, c, stage);
    FilesDoNotMatter(start, At(s, c, stage), files, traced);
  }

  lemma FailKeepsEntries(s: State, c: ClientId, error: string)
    requires TableOk(s.table) && AppendsOk(s) && EntriesOk(s)
    requires c in s.clients && s.clients[c].stage.Failing? && OwnsEntry(s, s.clients[c], s.clients[c].stage.x)
    ensures TableOk(Failure(s, c, error).table) && AppendsOk(Failure(s, c, error)) && EntriesOk(Failure(s, c, error))
  {
    var t := Failure(s, c, error);
    forall y | 0 <= y < |t.table.entries| ensures EntryOk(t, y) { assert EntryOk(s, y); }
  }

  lemma FailKeepsClients(start: seq<Event>, s: State, c: ClientId, error: string)
    requires ClientsOk(start, s) && FirstsUnique(s)
    requires c in s.clients && s.clients[c].stage.Failing? && OwnsEntry(s, s.clients[c], s.clients[c].stage.x)
    ensures ClientsOk(start, Failure(s, c, error)) && FirstsUnique(Failure(s, c, error))
  {
    var t := Failure(s, c, error);
    forall d | d in t.clients ensures ClientOk(t, t.clients[d]) {
      assert ClientOk(s, s.clients[d]);
      assert d != c ==> s.clients[d].id != s.clients[c].id || !IsOwner(s.clients[d]);
    }
  }

  lemma FailKeepsInv(cd: Codec, start: seq<Event>, s: State, c: ClientId, error: string)
    requires Inv(cd, start, s) && Enabled(cd, s, Fail(c, error))
    ensures Inv(cd, start, Failure(s, c, error))
  {
    assert ClientOk(s, s.clients[c]);
    FailKeepsEntries(s, c, error);
    FailKeepsClients(start, s, c, error);
    assert LogOk(cd, start, Failure(s, c, error));
  }

  /** An interrupted append either left the files as they verify, or files that never
      verify for this writer again. */
  lemma InterruptionKeepsLogOk(cd: Codec, start: seq<Event>, s: State, q: Request, now: nat, ids: nat -> nat, files: Files, p: Bytes)
    requires CodecOk(cd) && LogOk(cd, start, s) && Interrupted(cd, s.files, s.writer, q, now, ids, files, p)
    ensures !s.traced && LogOk(cd, start, s.(files := files, traced := LogBytes(files) != LogBytes(s.files)))
  {
    var events :| InSync(cd, s.files, s.writer, events) && Acceptable(q)
      && PartlyWritten(s.files, Join(Lines(cd, Added(cd, events, q, now, ids))),
                       AnchorBytes(cd, events + Added(cd, events, q, now, ids)), files, p);
    VerifiesOnce(cd, s.files, events, s.log);
    var added := Added(cd, s.log, q, now, ids);
    NothingOrSomething(cd, s.files, added, AnchorBytes(cd, s.log + added), files, p);
    if p == "" {
      NothingWrittenIsOld(cd, s.files, s.log);
    } else {
      forall all ensures !InSync(cd, files, s.writer, all) {
        HalfAppliedWriterIsStuck(cd, s.files, s.log, added, p, files.anchor, all);
      }
    }
  }

  /** A trace is a change of the log's bytes; the anchor changes only with one. */
  lemma NothingOrSomething(cd: Codec, f: Files, added: seq<Event>, anchor: Bytes, g: Files, p: Bytes)
    requires |added| > 0 && PartlyWritten(f, Join(Lines(cd, added)), anchor, g, p)
    ensures p == "" <==> LogBytes(g) == LogBytes(f)
    ensures p == "" ==> g == Extended(f, "", f.anchor)
  {
    assert Join(Lines(cd, added)) != "";
    assert |LogBytes(f) + p| == |LogBytes(f)| + |p|;
    assert LogBytes(f) + "" == LogBytes(f);
  }

  /** A complete append is one onto the log that the files hold. */
  lemma CompleteIsAppended(cd: Codec, f: Files, w: Anchor, log: seq<Event>, q: Request, now: nat, ids: nat -> nat,
                           g: Files, v: Anchor, receipts: seq<Digest>)
    requires CodecOk(cd) && InSync(cd, f, w, log) && Complete(cd, f, w, q, now, ids, g, v, receipts)
    ensures Acceptable(q) && g == AppendedFiles(cd, f, log, q, now, ids)
    ensures v == Anchor(|log| + |q.decisions|, Head(SealOf, log + Added(cd, log, q, now, ids)))
    ensures receipts == Hashes(Added(cd, log, q, now, ids))
  {
    var events :| InSync(cd, f, w, events) && Acceptable(q)
      && g == AppendedFiles(cd, f, events, q, now, ids)
      && v == Anchor(|events| + |q.decisions|, Head(SealOf, events + Added(cd, events, q, now, ids)))
      && receipts == Hashes(Added(cd, events, q, now, ids));
    VerifiesOnce(cd, f, events, log);
  }

  /** A request that is new to this process and to its log is fresh for the log. */
  lemma OwnerIsFresh(start: seq<Event>, s: State, q: Request, ids: nat -> nat)
    requires start <= s.log && NewTo(start, q.id) && FreshIds(s.log, q, ids) && s.appends[q.id] == 0
    requires forall i :: |start| <= i < |s.log| ==> s.appends[s.log[i].body.requestId] > 0
    ensures FreshFor(s.log, q, ids)
  {
    forall i | 0 <= i < |s.log| ensures s.log[i].body.requestId != q.id {
      if i < |start| {
        assert s.log[i] == start[i];
      } else {
        assert s.appends[s.log[i].body.requestId] > 0;
      }
    }
  }

  /** An append needs files in sync, so it finds no trace. */
  lemma AppendFindsNoTrace(cd: Codec, start: seq<Event>, s: State, q: Request, now: nat, ids: nat -> nat,
                           files: Files, writer: Anchor, receipts: seq<Digest>)
    requires LogOk(cd, start, s) && Complete(cd, s.files, s.writer, q, now, ids, files, writer, receipts)
    ensures !s.traced && InSync(cd, s.files, s.writer, s.log)
  {
  }

  lemma OwnerNotAppended(s: State, c: ClientId)
    requires AppendsOk(s) && c in s.clients && s.clients[c].stage.Scoring? && ClientOk(s, s.clients[c])
    ensures s.appends[s.clients[c].id] == 0
  {
  }

  /** The owner's append is on a log without events of its request: it stays verifiable. */
  lemma PublishKeepsLog(cd: Codec, start: seq<Event>, s: State, c: ClientId, q: Request, now: nat, ids: nat -> nat,
                        files: Files, writer: Anchor, receipts: seq<Digest>)
    requires CodecOk(cd) && LogOk(cd, start, s) && AppendsOk(s) && ClientsOk(start, s)
    requires Enabled(cd, s, Publish(c, q, now, ids, files, writer, receipts))
    ensures !s.traced && Acceptable(q) && InSync(cd, files, writer, s.log + Added(cd, s.log, q, now, ids))
    ensures receipts == Hashes(Added(cd, s.log, q, now, ids))
  {
    AppendFindsNoTrace(cd, start, s, q, now, ids, files, writer, receipts);
    CompleteIsAppended(cd, s.files, s.writer, s.log, q, now, ids, files, writer, receipts);
    assert ClientOk(s, s.clients[c]);
    OwnerNotAppended(s, c);
    OwnerIsFresh(start, s, q, ids);
    AppendVerifiesIff(cd, s.files, s.log, q, now, ids);
  }

  /** The new events are those of this request, in order, with these receipts. */
  lemma PublicationIsRecorded(cd: Codec, log: seq<Event>, q: Request, now: nat, ids: nat -> nat, receipts: seq<Digest>)
    requires Acceptable(q) && receipts == Hashes(Added(cd, log, q, now, ids))
    ensures |log| + |receipts| <= |log + Added(cd, log, q, now, ids)|
    ensures RecordedAt(log + Added(cd, log, q, now, ids), |log|, q.id, q.inputDigest, Release(q.decisions, receipts))
  {
    var added := Added(cd, log, q, now, ids);
    NewEventsRecord(cd, q, now, ids, Head(SealOf, log), |q.decisions|);
    forall j | 0 <= j < |receipts| ensures (log + added)[|log| + j] == added[j] && Records(cd, q, now, ids, added[j], j) { }
    assert forall j :: 0 <= j < |q.decisions| ==> DecisionOk(q.decisions[j]);
  }

  lemma RecordedGrows(log: seq<Event>, longer: seq<Event>, k: nat, id: RequestId, digest: Digest, r: Release)
    requires k + |r.receipts| <= |log| && log <= longer && RecordedAt(log, k, id, digest, r)
    ensures RecordedAt(longer, k, id, digest, r)
  {
    assert log == longer[..|log|];
  }

  /** What the log records, a longer log records. */
  lemma InLogGrows(s: State, t: State, id: RequestId, digest: Digest, r: Release)
    requires InLog(s, id, digest, r) && s.log <= t.log
    ensures InLog(t, id, digest, r)
  {
    var k :| 0 <= k && k + |r.receipts| <= |s.log| && RecordedAt(s.log, k, id, digest, r);
    RecordedGrows(s.log, t.log, k, id, digest, r);
  }

  lemma PublishKeepsEntries(cd: Codec, s: State, c: ClientId, q: Request, now: nat, ids: nat -> nat,
                            files: Files, writer: Anchor, receipts: seq<Digest>)
    requires TableOk(s.table) && AppendsOk(s) && EntriesOk(s)
    requires Scores(s, c, q) && OwnsEntry(s, s.clients[c], s.clients[c].stage.x)
    requires Acceptable(q) && receipts == Hashes(Added(cd, s.log, q, now, ids))
    ensures EntriesOk(Publication(cd, s, c, q, now, ids, files, writer, receipts))
    ensures AppendsOk(Publication(cd, s, c, q, now, ids, files, writer, receipts))
  {
    var t := Publication(cd, s, c, q, now, ids, files, writer, receipts);
    var x := s.clients[c].stage.x;
    assert s.appends[q.id] == 0;
    PublicationIsRecorded(cd, s.log, q, now, ids, receipts);
    forall y | 0 <= y < |t.table.entries| ensures EntryOk(t, y) {
      assert EntryOk(s, y);
      var e := t.table.entries[y];
      if y != x && e.state.Published? {
        InLogGrows(s, t, e.id, e.digest, e.state.result);
      }
    }
  }

  lemma PublishKeepsClients(cd: Codec, start: seq<Event>, s: State, c: ClientId, q: Request, now: nat, ids: nat -> nat,
                            files: Files, writer: Anchor, receipts: seq<Digest>)
    requires ClientsOk(start, s) && FirstsUnique(s)
    requires Scores(s, c, q) && OwnsEntry(s, s.clients[c], s.clients[c].stage.x)
    ensures ClientsOk(start, Publication(cd, s, c, q, now, ids, files, writer, receipts))
    ensures FirstsUnique(Publication(cd, s, c, q, now, ids, files, writer, receipts))
  {
    var t := Publication(cd, s, c, q, now, ids, files, writer, receipts);
    forall d | d in t.clients ensures ClientOk(t, t.clients[d]) {
      assert ClientOk(s, s.clients[d]);
      assert d != c ==> s.clients[d].id != s.clients[c].id || !IsOwner(s.clients[d]);
    }
  }

  lemma PublicationLogOk(cd: Codec, start: seq<Event>, s: State, c: ClientId, q: Request, now: nat, ids: nat -> nat,
                         files: Files, writer: Anchor, receipts: seq<Digest>)
    requires LogOk(cd, start, s) && !s.traced && Scores(s, c, q) && InSync(cd, files, writer, s.log + Added(cd, s.log, q, now, ids))
    ensures LogOk(cd, start, Publication(cd, s, c, q, now, ids, files, writer, receipts))
  {
    var t := Publication(cd, s, c, q, now, ids, files, writer, receipts);
    NewEventsRecord(cd, q, now, ids, Head(SealOf, s.log), |q.decisions|);
    forall i | |start| <= i < |t.log| ensures KeyOk(cd, t.log[i].body) && t.appends[t.log[i].body.requestId] > 0 {
      if i >= |s.log| {
        assert Records(cd, q, now, ids, Added(cd, s.log, q, now, ids)[i - |s.log|], i - |s.log|);
      }
    }
  }

  lemma CompletedTableOk<T(!new)>(t: Table<T>, x: EntryId, result: T)
    requires TableOk(t) && x < |t.entries|
    ensures TableOk(LocalRegistry.Completed(t, x, result))
  {
  }

  lemma PublishKeepsInv(cd: Codec, start: seq<Event>, s: State, c: ClientId, q: Request, now: nat, ids: nat -> nat,
                        files: Files, writer: Anchor, receipts: seq<Digest>)
    requires CodecOk(cd) && Inv(cd, start, s) && Enabled(cd, s, Publish(c, q, now, ids, files, writer, receipts))
    ensures Inv(cd, start, Publication(cd, s, c, q, now, ids, files, writer, receipts))
  {
    assert ClientOk(s, s.clients[c]);
    PublishKeepsLog(cd, start, s, c, q, now, ids, files, writer, receipts);
    PublicationLogOk(cd, start, s, c, q, now, ids, files, writer, receipts);
    PublishKeepsEntries(cd, s, c, q, now, ids, files, writer, receipts);
    PublishKeepsClients(cd, start, s, c, q, now, ids, files, writer, receipts);
    CompletedTableOk(s.table, s.clients[c].stage.x, Release(q.decisions, receipts));
  }

  /** A step of a process that is asked only for identifiers the log had not seen when it
      started; with an empty log that is every identifier. */
  ghost predicate Allowed(cd: Codec, start: seq<Event>, s: State, step: Step)
  {
    Enabled(cd, s, step) && (step.Arrive? ==> NewTo(start, step.id))
  }

  lemma AppendFailsKeepsInv(cd: Codec, start: seq<Event>, s: State, step: Step)
    requires CodecOk(cd) && Inv(cd, start, s) && step.AppendFails? && Enabled(cd, s, step)
    ensures Inv(cd, start, Next(cd, s, step))
  {
    assert ClientOk(s, s.clients[step.c]);
    if step.files != s.files { InterruptionKeepsLogOk(cd, start, s, step.q, step.now, step.ids, step.files, step.p); }
    StageKeepsInv(cd, start, s, step.c, Failing(s.clients[step.c].stage.x), step.files, s.traced || LeavesTrace(s, step));
  }

  lemma StepKeepsInv(cd: Codec, start: seq<Event>, s: State, step: Step)
    requires CodecOk(cd) && Inv(cd, start, s) && Allowed(cd, start, s, step)
    ensures Inv(cd, start, Next(cd, s, step))
  {
    match step
    case Arrive(c, id, digest) =>
      ArriveKeepsEntries(s, c, id, digest);
      ArriveKeepsClients(start, s, c, id, digest);
    case Publish(c, q, now, ids, files, writer, receipts) =>
      PublishKeepsInv(cd, start, s, c, q, now, ids, files, writer, receipts);
    case AppendFails(_, _, _, _, _, _) => AppendFailsKeepsInv(cd, start, s, step);
    case ScoringFails(c) =>
      assert ClientOk(s, s.clients[c]);
      StageKeepsInv(cd, start, s, c, Failing(s.clients[c].stage.x), s.files, s.traced);
    case Fail(c, error) => FailKeepsInv(cd, start, s, c, error);
    case Wake(c) => WakeKeepsInv(cd, start, s, c);
    case Cancel(c) => StageKeepsInv(cd, start, s, c, Raised, s.files, s.traced);
  }

  lemma WakeKeepsInv(cd: Codec, start: seq<Event>, s: State, c: ClientId)
    requires Inv(cd, start, s) && Enabled(cd, s, Wake(c))
    ensures Inv(cd, start, Next(cd, s, Wake(c)))
  {
    assert ClientOk(s, s.clients[c]) && EntryOk(s, s.clients[c].stage.x);
    var e := s.table.entries[s.clients[c].stage.x];
    StageKeepsInv(cd, start, s, c, if e.state.Published? then Released(e.state.result, true) else Raised, s.files, s.traced);
  }

  // ----- Runs of one process -----

  /** A process that has just opened its files and found these events. */
  ghost predicate Initial(cd: Codec, start: seq<Event>, s: State)
  {
    s == State(Table(map[], []), s.files, s.writer, map[], start, multiset{}, false) && InSync(cd, s.files, s.writer, start)
  }

  ghost predicate Runs(cd: Codec, start: seq<Event>, s: State, steps: seq<Step>, t: State)
    decreases |steps|
  {
    if |steps| == 0 then s == t
    else Allowed(cd, start, s, steps[0]) && Runs(cd, start, Next(cd, s, steps[0]), steps[1..], t)
  }

  lemma {:induction false} RunKeepsInv(cd: Codec, start: seq<Event>, s: State, steps: seq<Step>, t: State)
    requires CodecOk(cd) && Inv(cd, start, s) && Runs(cd, start, s, steps, t)
    ensures Inv(cd, start, t)
    decreases |steps|
  {
    if |steps| > 0 {
      StepKeepsInv(cd, start, s, steps[0]);
      RunKeepsInv(cd, start, Next(cd, s, steps[0]), steps[1..], t);
    }
  }

  /** Some step of the run leaves a trace. */
  ghost predicate LeftTrace(cd: Codec, start: seq<Event>, s: State, steps: seq<Step>, t: State)
    requires Runs(cd, start, s, steps, t)
    decreases |steps|
  {
    |steps| > 0 && (LeavesTrace(s, steps[0]) || LeftTrace(cd, start, Next(cd, s, steps[0]), steps[1..], t))
  }

  lemma {:induction false} TracedIffLeft(cd: Codec, start: seq<Event>, s: State, steps: seq<Step>, t: State)
    requires Runs(cd, start, s, steps, t)
    ensures t.traced <==> s.traced || LeftTrace(cd, start, s, steps, t)
    decreases |steps|
  {
    if |steps| > 0 {
      TracedIffLeft(cd, start, Next(cd, s, steps[0]), steps[1..], t);
    }
  }

  /** Over a whole run each request has at most one complete append, and the files hold
      exactly the events found at start and those of the complete appends, if and only if
      no append stopped with some of its bytes in the log.  After one that did, no append
      is ever completed again. */
  lemma RunKeepsLogVerifiable(cd: Codec, start: seq<Event>, s: State, steps: seq<Step>, t: State)
    requires CodecOk(cd) && Initial(cd, start, s) && Runs(cd, start, s, steps, t)
    ensures forall id :: t.appends[id] <= 1
    ensures start <= t.log
    ensures InSync(cd, t.files, t.writer, t.log) <==> !LeftTrace(cd, start, s, steps, t)
    ensures LeftTrace(cd, start, s, steps, t) ==> forall step: Step :: step.Publish? ==> !Enabled(cd, t, step)
  {
    RunKeepsInv(cd, start, s, steps, t);
    TracedIffLeft(cd, start, s, steps, t);
    forall step: Step | step.Publish? && t.traced ensures !Enabled(cd, t, step) {
      TraceEndsAppends(cd, t, step);
    }
  }

  lemma TraceEndsAppends(cd: Codec, s: State, step: Step)
    requires s.traced && FilesOk(cd, s) && (step.Publish? || step.AppendFails?)
    ensures step.Publish? ==> !Enabled(cd, s, step)
    ensures step.AppendFails? && Enabled(cd, s, step) ==> step.files == s.files
  {
  }

  /** From the trace on, files, writer, log and counts stay as the interrupted append left
      them, whatever the clients do. */
  lemma {:induction false} TraceIsFrozen(cd: Codec, start: seq<Event>, s: State, steps: seq<Step>, t: State)
    requires CodecOk(cd) && Inv(cd, start, s) && s.traced && Runs(cd, start, s, steps, t)
    ensures t.files == s.files && t.writer == s.writer && t.log == s.log && t.appends == s.appends && t.traced
    decreases |steps|
  {
    if |steps| > 0 {
      var step := steps[0];
      StepKeepsInv(cd, start, s, step);
      if step.Publish? || step.AppendFails? { TraceEndsAppends(cd, s, step); }
      TraceIsFrozen(cd, start, Next(cd, s, step), steps[1..], t);
    }
  }

  /** The event names the key of the request. */
  predicate KeyedAt(cd: Codec, log: seq<Event>, i: nat, id: RequestId)
    requires i < |log|
  {
    log[i].body.keyDigest == cd.keyHash(id)
  }

  lemma NewKeys(cd: Codec, start: seq<Event>, log: seq<Event>, i: nat, id: RequestId)
    requires i < |log| && start <= log && NewTo(start, id)
    requires forall j :: |start| <= j < |log| ==> KeyOk(cd, log[j].body)
    ensures log[i].body.requestId == id ==> KeyedAt(cd, log, i, id)
  {
    if i < |start| {
      assert log[i] == start[i];
    } else {
      assert KeyOk(cd, log[i].body);
    }
  }

  /** Whatever a client was given, by its own append or as a replay, is in the log under
      its request identifier and input digest, decision for decision, and the request was
      appended once. */
  lemma ReleasedIsInTheLog(cd: Codec, start: seq<Event>, s: State, steps: seq<Step>, t: State, c: ClientId)
    requires CodecOk(cd) && Initial(cd, start, s) && Runs(cd, start, s, steps, t)
    requires c in t.clients && t.clients[c].stage.Released?
    ensures InLog(t, t.clients[c].id, t.clients[c].digest, t.clients[c].stage.result)
    ensures t.appends[t.clients[c].id] == 1
    ensures forall i :: 0 <= i < |t.log| && t.log[i].body.requestId == t.clients[c].id ==> KeyedAt(cd, t.log, i, t.clients[c].id)
  {
    RunKeepsInv(cd, start, s, steps, t);
    var id := t.clients[c].id;
    assert ClientOk(t, t.clients[c]);
    assert EntryOk(t, t.table.slots[id]);
    forall i | 0 <= i < |t.log| && t.log[i].body.requestId == id ensures KeyedAt(cd, t.log, i, id) {
      NewKeys(cd, start, t.log, i, id);
    }
  }

  /** All clients released under one identifier sent the same input and got the same
      result, and at most one of them not as a replay. */
  lemma ReleasesAgree(cd: Codec, start: seq<Event>, s: State, steps: seq<Step>, t: State, c: ClientId, d: ClientId)
    requires CodecOk(cd) && Initial(cd, start, s) && Runs(cd, start, s, steps, t)
    requires c in t.clients && t.clients[c].stage.Released? && d in t.clients && t.clients[d].stage.Released?
    requires t.clients[c].id == t.clients[d].id
    ensures t.clients[c].digest == t.clients[d].digest && t.clients[c].stage.result == t.clients[d].stage.result
    ensures c != d ==> t.clients[c].stage.replay || t.clients[d].stage.replay
  {
    RunKeepsInv(cd, start, s, steps, t);
    assert ClientOk(t, t.clients[c]) && ClientOk(t, t.clients[d]);
  }

  /** While one client runs the operation no other client with its identifier does, and
      none has been released. */
  lemma OwnersAreAlone(cd: Codec, start: seq<Event>, s: State, steps: seq<Step>, t: State, c: ClientId, d: ClientId)
    requires CodecOk(cd) && Initial(cd, start, s) && Runs(cd, start, s, steps, t)
    requires c in t.clients && IsOwner(t.clients[c]) && d in t.clients && d != c && t.clients[c].id == t.clients[d].id
    ensures t.clients[d].stage.Waiting? || t.clients[d].stage.Raised?
  {
    RunKeepsInv(cd, start, s, steps, t);
    assert ClientOk(t, t.clients[c]) && ClientOk(t, t.clients[d]);
  }

  /** A published entry keeps its result and stays the current one of its identifier. */
  predicate Stays(s: State, t: State, x: EntryId)
    requires x < |s.table.entries|
  {
    var e := s.table.entries[x];
    e.state.Published? ==> x < |t.table.entries| && t.table.entries[x] == e && e.id in t.table.slots && t.table.slots[e.id] == x
  }

  ghost predicate PublishedStay(s: State, t: State) { forall x :: 0 <= x < |s.table.entries| ==> Stays(s, t, x) }

  lemma StepKeepsOnePublished(cd: Codec, s: State, step: Step, x: EntryId)
    requires TableOk(s.table) && Enabled(cd, s, step) && x < |s.table.entries| && EntryOk(s, x)
    requires step.c in s.clients ==> ClientOk(s, s.clients[step.c])
    ensures Stays(s, Next(cd, s, step), x)
  {
  }

  lemma StepKeepsPublished(cd: Codec, start: seq<Event>, s: State, step: Step)
    requires TableOk(s.table) && EntriesOk(s) && ClientsOk(start, s) && Allowed(cd, start, s, step)
    ensures PublishedStay(s, Next(cd, s, step))
  {
    assert step.c in s.clients ==> ClientOk(s, s.clients[step.c]);
    forall x | 0 <= x < |s.table.entries| ensures Stays(s, Next(cd, s, step), x) {
      assert EntryOk(s, x);
      StepKeepsOnePublished(cd, s, step, x);
    }
  }

  lemma StayTrans(s: State, t: State, u: State)
    requires PublishedStay(s, t) && PublishedStay(t, u)
    ensures PublishedStay(s, u)
  {
    forall x | 0 <= x < |s.table.entries| ensures Stays(s, u, x) {
      assert Stays(s, t, x);
      assert x < |t.table.entries| ==> Stays(t, u, x);
    }
  }

  lemma {:induction false} RunKeepsPublished(cd: Codec, start: seq<Event>, s: State, steps: seq<Step>, t: State)
    requires CodecOk(cd) && Inv(cd, start, s) && Runs(cd, start, s, steps, t)
    ensures PublishedStay(s, t)
    decreases |steps|
  {
    if |steps| > 0 {
      var n := Next(cd, s, steps[0]);
      StepKeepsPublished(cd, start, s, steps[0]);
      StepKeepsInv(cd, start, s, steps[0]);
      RunKeepsPublished(cd, start, n, steps[1..], t);
      StayTrans(s, n, t);
    } else {
      forall x | 0 <= x < |s.table.entries| ensures Stays(s, s, x) { assert EntryOk(s, x); }
    }
  }

  // ----- What each client is given -----

  /** A client that wakes is given what its entry holds: the result, as a replay, or an
      error. */
  lemma WakeGives(cd: Codec, s: State, c: ClientId)
    requires Enabled(cd, s, Wake(c))
    ensures var e, stage := s.table.entries[s.clients[c].stage.x], Next(cd, s, Wake(c)).clients[c].stage;
            && (e.state.Published? ==> stage == Released(e.state.result, true))
            && (e.state.FailedWith? ==> stage == Raised)
  {
  }

  /** An owner that publishes is given its own decisions, not as a replay, and the hashes of
      the events that were logged for them, each of which states its decision. */
  lemma PublishGives(cd: Codec, start: seq<Event>, s: State, step: Step)
    requires CodecOk(cd) && Inv(cd, start, s) && step.Publish? && Enabled(cd, s, step)
    ensures var t := Next(cd, s, step);
            && |t.log| == |s.log| + |step.q.decisions| && s.log <= t.log
            && (forall j :: 0 <= j < |step.q.decisions| ==> RecordsNext(cd, step.q, step.now, step.ids, s.log, t.log, j))
            && t.clients[step.c].stage == Released(Release(step.q.decisions, Hashes(t.log[|s.log|..])), false)
  {
    PublishKeepsLog(cd, start, s, step.c, step.q, step.now, step.ids, step.files, step.writer, step.receipts);
    AddedRecord(cd, s.log, step.q, step.now, step.ids);
  }

  /** While no append has left a trace an owner can publish any acceptable request that it
      scored. */
  lemma OwnerIsReleased(cd: Codec, s: State, c: ClientId, q: Request, now: nat, ids: nat -> nat) returns (step: Step)
    requires FilesOk(cd, s) && !s.traced && Scores(s, c, q) && FreshIds(s.log, q, ids) && Acceptable(q)
    ensures step.Publish? && step.c == c && step.q == q && step.now == now && Enabled(cd, s, step)
    ensures var stage := Next(cd, s, step).clients[c].stage;
            stage.Released? && stage.result.decisions == q.decisions && !stage.replay
  {
    var added := Added(cd, s.log, q, now, ids);
    step := Publish(c, q, now, ids, AppendedFiles(cd, s.files, s.log, q, now, ids),
                    Anchor(|s.log| + |q.decisions|, Head(SealOf, s.log + added)), Hashes(added));
    OwnerCanPublish(cd, s, step);
  }

  /** Event `j` of those that follow the old log states decision `j`. */
  predicate RecordsNext(cd: Codec, q: Request, now: nat, ids: nat -> nat, before: seq<Event>, after: seq<Event>, j: nat)
    requires |before| + j < |after|
  {
    Records(cd, q, now, ids, after[|before| + j], j)
  }

  lemma OwnerCanPublish(cd: Codec, s: State, step: Step)
    requires step.Publish? && FilesOk(cd, s) && !s.traced && Scores(s, step.c, step.q)
    requires FreshIds(s.log, step.q, step.ids) && Acceptable(step.q)
    requires var added := Added(cd, s.log, step.q, step.now, step.ids);
             && step.files == AppendedFiles(cd, s.files, s.log, step.q, step.now, step.ids)
             && step.writer == Anchor(|s.log| + |step.q.decisions|, Head(SealOf, s.log + added)) && step.receipts == Hashes(added)
    ensures Enabled(cd, s, step)
  {
    AppendedIsComplete(cd, s.files, s.writer, s.log, step.q, step.now, step.ids);
  }

  lemma AddedRecord(cd: Codec, log: seq<Event>, q: Request, now: nat, ids: nat -> nat)
    ensures var added := Added(cd, log, q, now, ids);
            (log + added)[|log|..] == added && forall j :: 0 <= j < |q.decisions| ==> RecordsNext(cd, q, now, ids, log, log + added, j)
  {
    NewEventsRecord(cd, q, now, ids, Head(SealOf, log), |q.decisions|);
  }

  /** A first request owns a new entry, a retry waits for the current one, and another input
      is refused and leaves the registry alone. */
  lemma ArrivalIs(cd: Codec, s: State, c: ClientId, id: RequestId, digest: Digest)
    requires Enabled(cd, s, Arrive(c, id, digest))
    ensures var t := Next(cd, s, Arrive(c, id, digest));
            var x := if id in s.table.slots then s.table.slots[id] else |s.table.entries|;
            && t.clients[c].id == id && t.clients[c].digest == digest
            && (id !in s.table.slots ==> t.clients[c].stage == Scoring(x) && OwnsEntry(t, t.clients[c], x))
            && (id in s.table.slots && s.table.entries[x].digest == digest ==> t.clients[c].stage == Waiting(x) && t.table == s.table)
            && (id in s.table.slots && s.table.entries[x].digest != digest ==> t.clients[c].stage == Raised && t.table == s.table)
  {
  }

  /** Once an owner has failed its identifier is free: the next request with it owns a new
      entry, whatever its input. */
  lemma FailedIsForgotten(cd: Codec, start: seq<Event>, s: State, c: ClientId, error: string, d: ClientId, digest: Digest)
    requires CodecOk(cd) && Inv(cd, start, s) && Enabled(cd, s, Fail(c, error)) && d !in s.clients
    ensures var t, id := Next(cd, s, Fail(c, error)), s.clients[c].id;
            && t.clients[c].stage == Raised && t.table.entries[s.clients[c].stage.x].state == FailedWith(error)
            && Enabled(cd, t, Arrive(d, id, digest)) && Next(cd, t, Arrive(d, id, digest)).clients[d].stage.Scoring?
  {
    FailKeepsInv(cd, start, s, c, error);
    assert ClientOk(s, s.clients[c]);
  }

  // ----- Every retry of a released request is released -----

  predicate WithoutStepsOf(steps: seq<Step>, d: ClientId) { forall i :: 0 <= i < |steps| ==> steps[i].c != d }

  lemma OthersKeepClient(cd: Codec, s: State, step: Step, d: ClientId)
    requires Enabled(cd, s, step) && step.c != d && d in s.clients
    ensures d in Next(cd, s, step).clients && Next(cd, s, step).clients[d] == s.clients[d]
  {
  }

  lemma {:induction false} RunKeepsClient(cd: Codec, start: seq<Event>, s: State, steps: seq<Step>, t: State, d: ClientId)
    requires Runs(cd, start, s, steps, t) && WithoutStepsOf(steps, d) && d in s.clients
    ensures d in t.clients && t.clients[d] == s.clients[d]
    decreases |steps|
  {
    if |steps| > 0 {
      OthersKeepClient(cd, s, steps[0], d);
      RunKeepsClient(cd, start, Next(cd, s, steps[0]), steps[1..], t, d);
    }
  }

  lemma RetryWaits(cd: Codec, s: State, d: ClientId, id: RequestId, digest: Digest, x: EntryId, r: Release)
    requires TableOk(s.table) && d !in s.clients && HoldsResult(s, x, id, digest, r)
    ensures Enabled(cd, s, Arrive(d, id, digest))
    ensures var n := Next(cd, s, Arrive(d, id, digest));
            d in n.clients && n.clients[d] == Client(id, digest, Waiting(x)) && HoldsResult(n, x, id, digest, r)
  {
  }

  predicate HoldsResult(s: State, x: EntryId, id: RequestId, digest: Digest, r: Release)
  {
    x < |s.table.entries| && s.table.entries[x] == Entry(id, digest, Published(r)) && id in s.table.slots && s.table.slots[id] == x
  }

  lemma RunHoldsResult(cd: Codec, start: seq<Event>, s: State, steps: seq<Step>, t: State, x: EntryId, id: RequestId, digest: Digest, r: Release)
    requires CodecOk(cd) && Inv(cd, start, s) && Runs(cd, start, s, steps, t) && HoldsResult(s, x, id, digest, r)
    ensures Inv(cd, start, t) && HoldsResult(t, x, id, digest, r)
  {
    RunKeepsPublished(cd, start, s, steps, t);
    RunKeepsInv(cd, start, s, steps, t);
    assert Stays(s, t, x);
  }

  lemma ReleasedIsHeld(start: seq<Event>, t: State, c: ClientId)
    requires ClientsOk(start, t) && c in t.clients && t.clients[c].stage.Released?
    ensures var a := t.clients[c];
            NewTo(start, a.id) && a.id in t.table.slots && HoldsResult(t, t.table.slots[a.id], a.id, a.digest, a.stage.result)
  {
    assert ClientOk(t, t.clients[c]);
  }

  lemma WaiterIsReleased(cd: Codec, start: seq<Event>, n: State, between: seq<Step>, v: State, d: ClientId, a: Client, x: EntryId, r: Release)
    requires CodecOk(cd) && Inv(cd, start, n) && Runs(cd, start, n, between, v) && WithoutStepsOf(between, d)
    requires d in n.clients && n.clients[d] == a && a.stage == Waiting(x) && HoldsResult(n, x, a.id, a.digest, r)
    ensures Enabled(cd, v, Wake(d)) && Next(cd, v, Wake(d)).clients[d].stage == Released(r, true)
  {
    RunHoldsResult(cd, start, n, between, v, x, a.id, a.digest, r);
    RunKeepsClient(cd, start, n, between, v, d);
    WakeGives(cd, v, d);
  }

  /** Once a client was released with a result, by its own append or as a replay, every
      client that arrives later with its identifier and input is released with that very
      result, as a replay, by its own two steps, whatever others do before and between. */
  lemma RetriesAreReleased(cd: Codec, start: seq<Event>, s: State, steps: seq<Step>, t: State, c: ClientId,
                           more: seq<Step>, u: State, d: ClientId, between: seq<Step>, v: State)
    requires CodecOk(cd) && Initial(cd, start, s) && Runs(cd, start, s, steps, t)
    requires c in t.clients && t.clients[c].stage.Released?
    requires Runs(cd, start, t, more, u) && d !in u.clients
    ensures Allowed(cd, start, u, Arrive(d, t.clients[c].id, t.clients[c].digest))
    ensures Runs(cd, start, Next(cd, u, Arrive(d, t.clients[c].id, t.clients[c].digest)), between, v) && WithoutStepsOf(between, d) ==>
              Enabled(cd, v, Wake(d)) && Next(cd, v, Wake(d)).clients[d].stage == Released(t.clients[c].stage.result, true)
  {
    RunKeepsInv(cd, start, s, steps, t);
    ReleasedIsHeld(start, t, c);
    var a := t.clients[c];
    var x := t.table.slots[a.id];
    RunHoldsResult(cd, start, t, more, u, x, a.id, a.digest, a.stage.result);
    RetryWaits(cd, u, d, a.id, a.digest, x, a.stage.result);
    var arrive := Arrive(d, a.id, a.digest);
    if Runs(cd, start, Next(cd, u, arrive), between, v) && WithoutStepsOf(between, d) {
      StepKeepsInv(cd, start, u, arrive);
      WaiterIsReleased(cd, start, Next(cd, u, arrive), between, v, d, Client(a.id, a.digest, Waiting(x)), x, a.stage.result);
    }
  }

  // ----- Nobody waits for nothing -----

  predicate OwnsNumber(a: Client, x: EntryId) { IsOwner(a) && a.stage.x == x }

  predicate HasOwner(s: State, x: EntryId) { exists c :: c in s.clients && OwnsNumber(s.clients[c], x) }

  /** A pending entry has an owner that is still at work or about to fail. */
  predicate PendingOwned(s: State)
  {
    forall x :: 0 <= x < |s.table.entries| && s.table.entries[x].state.Pending? ==> HasOwner(s, x)
  }

  lemma OtherOwnersStay(s: State, t: State, c: ClientId, x: EntryId)
    requires HasOwner(s, x) && c in t.clients && t.clients == s.clients[c := t.clients[c]]
    requires c in s.clients && OwnsNumber(s.clients[c], x) ==> OwnsNumber(t.clients[c], x)
    ensures HasOwner(t, x)
  {
    var d :| d in s.clients && OwnsNumber(s.clients[d], x);
    assert OwnsNumber(t.clients[d], x);
  }

  lemma StepKeepsOwners(cd: Codec, s: State, step: Step)
    requires PendingOwned(s) && Enabled(cd, s, step)
    ensures PendingOwned(Next(cd, s, step))
  {
    var t := Next(cd, s, step);
    forall x | 0 <= x < |t.table.entries| && t.table.entries[x].state.Pending? ensures HasOwner(t, x) {
      if x < |s.table.entries| {
        OtherOwnersStay(s, t, step.c, x);
      } else {
        assert OwnsNumber(t.clients[step.c], x);
      }
    }
  }

  lemma {:induction false} RunKeepsOwners(cd: Codec, start: seq<Event>, s: State, steps: seq<Step>, t: State)
    requires PendingOwned(s) && Runs(cd, start, s, steps, t)
    ensures PendingOwned(t)
    decreases |steps|
  {
    if |steps| > 0 {
      StepKeepsOwners(cd, s, steps[0]);
      RunKeepsOwners(cd, start, Next(cd, s, steps[0]), steps[1..], t);
    }
  }

  lemma RunOne(cd: Codec, start: seq<Event>, s: State, step: Step, steps: seq<Step>, t: State)
    requires Allowed(cd, start, s, step) && Runs(cd, start, Next(cd, s, step), steps, t)
    ensures Runs(cd, start, s, [step] + steps, t)
  {
    assert ([step] + steps)[1..] == steps;
  }

  /** The steps with which an owner gives up. */
  predicate GivesUp(step: Step, d: ClientId) { (step.ScoringFails? || step.Fail?) && step.c == d }

  /** No step of another client disables a step with which an owner gives up. */
  lemma NothingBlocksGivingUp(cd: Codec, s: State, step: Step, other: Step)
    requires Enabled(cd, s, step) && GivesUp(step, step.c) && Enabled(cd, s, other) && other.c != step.c
    ensures Enabled(cd, Next(cd, s, other), step)
  {
  }

  /** A waiting client can wake at once, or its entry has an owner that needs at most two
      steps of its own before it can. */
  lemma NobodyWaitsInVain(cd: Codec, start: seq<Event>, s: State, steps: seq<Step>, t: State, c: ClientId)
    returns (d: ClientId, more: seq<Step>, u: State)
    requires CodecOk(cd) && Initial(cd, start, s) && Runs(cd, start, s, steps, t)
    requires c in t.clients && t.clients[c].stage.Waiting?
    ensures |more| <= 2 && Runs(cd, start, t, more, u) && Enabled(cd, u, Wake(c))
    ensures forall i :: 0 <= i < |more| ==> GivesUp(more[i], d)
    ensures more != [] ==> d in t.clients && OwnsNumber(t.clients[d], t.clients[c].stage.x)
  {
    RunKeepsInv(cd, start, s, steps, t);
    RunKeepsOwners(cd, start, s, steps, t);
    assert ClientOk(t, t.clients[c]);
    var x := t.clients[c].stage.x;
    if !t.table.entries[x].state.Pending? {
      d, more, u := c, [], t;
    } else {
      assert HasOwner(t, x);
      d :| d in t.clients && OwnsNumber(t.clients[d], x);
      more, u := OwnerGivesUp(cd, start, t, d);
    }
  }

  lemma OwnerGivesUp(cd: Codec, start: seq<Event>, s: State, d: ClientId) returns (more: seq<Step>, u: State)
    requires d in s.clients && IsOwner(s.clients[d]) && s.clients[d].stage.x < |s.table.entries|
    ensures |more| <= 2 && Runs(cd, start, s, more, u) && forall i :: 0 <= i < |more| ==> GivesUp(more[i], d)
    ensures forall c :: c in s.clients && c != d ==> c in u.clients && u.clients[c] == s.clients[c]
    ensures |u.table.entries| == |s.table.entries| && !u.table.entries[s.clients[d].stage.x].state.Pending?
  {
    var failing := if s.clients[d].stage.Failing? then s else Next(cd, s, ScoringFails(d));
    u := Next(cd, failing, Fail(d, "gave up"));
    RunOne(cd, start, failing, Fail(d, "gave up"), [], u);
    more := [Fail(d, "gave up")];
    if s.clients[d].stage.Scoring? {
      RunOne(cd, start, s, ScoringFails(d), more, u);
      more := [ScoringFails(d)] + more;
    }
  }
}

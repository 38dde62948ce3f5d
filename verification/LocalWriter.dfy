/** AuditLog (api/audit.py): the single-process writer over the two files. */
module LocalWriter {
  import opened Wrappers
  import opened HashChain
  import opened LocalAudit
  import opened LocalEvidence

  /** The directory with the log and its anchor; anyone may change it. */
  class Disk {
    var log: Option<Bytes>
    var anchor: Option<Bytes>

    function Contents(): Files
      reads this
    {
      Files(log, anchor)
    }
  }

  datatype AnchorFate = Replaced | NotReplaced | ReplacedThenFailed

  /** What the operating system does during one append: whether the log opens, how many
      bytes each write takes, whether it syncs, and what becomes of the anchor. */
  datatype Kernel = Kernel(opens: bool, writes: seq<nat>, syncs: bool, anchor: AnchorFate)

  /** The writes take all of this many bytes. */
  predicate TakesAll(n: nat, writes: seq<nat>)
  {
    n == 0 || (|writes| > 0 && writes[0] > 0 && (writes[0] >= n || TakesAll(n - writes[0], writes[1..])))
  }

  /** Nothing goes wrong while this many bytes are appended. */
  predicate Healthy(kernel: Kernel, n: nat)
  {
    kernel.opens && TakesAll(n, kernel.writes) && kernel.syncs && kernel.anchor.Replaced?
  }

  /** The bytes an append writes to the log. */
  function NewBytes(c: Codec, events: seq<Event>, q: Request, now: nat, ids: nat -> nat): Bytes
  {
    Join(Lines(c, Added(c, events, q, now, ids)))
  }

  datatype AppendError = InvalidArgument | Evidence(error: IntegrityError) | ChangedOutside | InvalidDecision | IoFailed

  function Hashes(events: seq<Event>): (r: seq<Digest>)
    ensures |r| == |events|
  {
    seq(|events|, i requires 0 <= i < |events| => events[i].eventHash)
  }

  /** The writer remembers the files as they verify. */
  ghost predicate InSync(c: Codec, f: Files, w: Anchor, events: seq<Event>)
  {
    Verifies(c, f, events) && w == Anchor(|events|, Head(SealOf, events))
  }

  /** An append that wrote everything: files, writer and receipts. */
  ghost predicate Complete(c: Codec, f: Files, w: Anchor, q: Request, now: nat, ids: nat -> nat,
                           g: Files, v: Anchor, hashes: seq<Digest>)
  {
    exists events ::
      && InSync(c, f, w, events) && Acceptable(q)
      && g == AppendedFiles(c, f, events, q, now, ids)
      && v == Anchor(|events| + |q.decisions|, Head(SealOf, events + Added(c, events, q, now, ids)))
      && hashes == Hashes(Added(c, events, q, now, ids))
  }

  /** The files have grown by one event for each decision, which states it, is chained onto
      the last, and has its hash among the receipts; writer and anchor have followed. */
  ghost predicate Grown(c: Codec, f: Files, events: seq<Event>, added: seq<Event>, q: Request, now: nat, ids: nat -> nat,
                        g: Files, v: Anchor, hashes: seq<Digest>)
  {
    && |added| == |q.decisions| && hashes == Hashes(added)
    && (forall i :: 0 <= i < |added| ==> Records(c, q, now, ids, added[i], i))
    && ChainedOnto(events, added, v.head) && v.eventCount == |events| + |added|
    && g == Files(Some(LogBytes(f) + Join(Lines(c, added))), Some(c.encodeAnchor(v) + "\n"))
  }

  /** … from events that were in sync. */
  ghost predicate Documented(c: Codec, f: Files, w: Anchor, q: Request, now: nat, ids: nat -> nat,
                             g: Files, v: Anchor, hashes: seq<Digest>)
  {
    exists events, added :: InSync(c, f, w, events) && Grown(c, f, events, added, q, now, ids, g, v, hashes)
  }

  /** An append that failed once writing had begun: a prefix of the new bytes, and the new
      anchor at most after all of them. */
  ghost predicate Interrupted(c: Codec, f: Files, w: Anchor, q: Request, now: nat, ids: nat -> nat, g: Files, p: Bytes)
  {
    exists events ::
      && InSync(c, f, w, events) && Acceptable(q)
      && PartlyWritten(f, Join(Lines(c, Added(c, events, q, now, ids))),
                       AnchorBytes(c, events + Added(c, events, q, now, ids)), g, p)
  }

  /** The bytes, receipts and new head of the first `n` events. */
  predicate Built(c: Codec, q: Request, now: nat, ids: nat -> nat, previous: Digest, n: nat,
                  encoded: Bytes, hashes: seq<Digest>, head: Digest)
    requires n <= |q.decisions|
  {
    var added := NewEvents(c, q, now, ids, previous, n);
    && encoded == Join(Lines(c, added)) && hashes == Hashes(added)
    && head == (if n == 0 then previous else added[n - 1].eventHash)
  }

  lemma BuiltOne(c: Codec, q: Request, now: nat, ids: nat -> nat, previous: Digest, n: nat,
                 encoded: Bytes, hashes: seq<Digest>, head: Digest)
    requires n < |q.decisions| && Built(c, q, now, ids, previous, n, encoded, hashes, head)
    ensures var e := NewEvent(c, q, now, ids, n, head);
            Built(c, q, now, ids, previous, n + 1, encoded + (c.encode(e) + "\n"), hashes + [e.eventHash], e.eventHash)
  {
    var init, e := NewEvents(c, q, now, ids, previous, n), NewEvent(c, q, now, ids, n, head);
    LinesAppend(c, init, [e]);
    JoinAppend(Lines(c, init), Lines(c, [e]));
    assert Lines(c, [e]) == [c.encode(e)];
    assert Join([c.encode(e)]) == c.encode(e) + "\n";
    assert Hashes(init + [e]) == Hashes(init) + [e.eventHash];
  }

  class AuditLog {
    const c: Codec
    const disk: Disk
    var eventCount: nat
    var headEventHash: Digest

    constructor (c: Codec, disk: Disk, verified: Anchor)
      ensures this.c == c && this.disk == disk && Remembered() == verified
    {
      this.c, this.disk := c, disk;
      eventCount, headEventHash := verified.eventCount, verified.head;
    }

    function Remembered(): Anchor
      reads this
    {
      Anchor(eventCount, headEventHash)
    }

    /** Open an existing log: it must verify, and is remembered as it is. */
    static method Open(c: Codec, disk: Disk) returns (r: Result<AuditLog, IntegrityError>)
      requires CodecOk(c)
      ensures r.Ok? <==> exists events :: Verifies(c, disk.Contents(), events)
      ensures r.Ok? ==> fresh(r.value) && r.value.c == c && r.value.disk == disk
                        && exists events :: InSync(c, disk.Contents(), r.value.Remembered(), events)
    {
      var verified := VerifyAuditLog(c, disk.Contents());
      match verified {
        case Err(e) => r := Err(e);
        case Ok(anchor) =>
          var log := new AuditLog(c, disk, anchor);
          ghost var events :| Verifies(c, disk.Contents(), events) && anchor == Anchor(|events|, Head(SealOf, events));
          assert InSync(c, disk.Contents(), log.Remembered(), events);
          r := Ok(log);
      }
    }

    /** `_write_all`: short writes are continued, a write of nothing raises. */
    method WriteAll(encoded: Bytes, writes: seq<nat>) returns (ok: bool, ghost written: Bytes)
      requires disk.log.Some?
      modifies disk`log
      ensures written <= encoded && (ok ==> written == encoded)
      ensures ok <==> TakesAll(|encoded|, writes)
      ensures disk.log == Some(old(disk.log.value) + written)
    {
      var offset, i := 0, 0;
      ghost var before := disk.log.value;
      assert before + encoded[..0] == before;
      while offset < |encoded|
        invariant offset <= |encoded| && i <= |writes|
        invariant TakesAll(|encoded|, writes) <==> TakesAll(|encoded| - offset, writes[i..])
        invariant disk.log == Some(before + encoded[..offset])
      {
        var taken := if i < |writes| then writes[i] else 0;
        if taken > |encoded| - offset { taken := |encoded| - offset; }
        if taken == 0 {
          return false, encoded[..offset];
        }
        disk.log := Some(disk.log.value + encoded[offset..offset + taken]);
        assert before + encoded[..offset] + encoded[offset..offset + taken] == before + encoded[..offset + taken];
        assert writes[i..][1..] == writes[i + 1..];
        offset, i := offset + taken, i + 1;
      }
      assert encoded[..|encoded|] == encoded;
      return true, encoded;
    }

    /** The new events, encoded and hashed. */
    method BuildEvents(q: Request, now: nat, ids: nat -> nat, previous: Digest)
      returns (ok: bool, encoded: Bytes, hashes: seq<Digest>, head: Digest)
      ensures ok <==> forall i :: 0 <= i < |q.decisions| ==> DecisionOk(q.decisions[i])
      ensures ok ==> Built(c, q, now, ids, previous, |q.decisions|, encoded, hashes, head)
    {
      encoded, hashes, head := "", [], previous;
      for i := 0 to |q.decisions|
        invariant forall j :: 0 <= j < i ==> DecisionOk(q.decisions[j])
        invariant Built(c, q, now, ids, previous, i, encoded, hashes, head)
      {
        if !DecisionOk(q.decisions[i]) {
          return false, "", [], previous;
        }
        var e := NewEvent(c, q, now, ids, i, head);
        BuiltOne(c, q, now, ids, previous, i, encoded, hashes, head);
        encoded, hashes, head := encoded + (c.encode(e) + "\n"), hashes + [e.eventHash], e.eventHash;
      }
      ok := true;
    }

    /** Verify the files and compare them with what the writer remembers. */
    method CheckInSync() returns (r: Result<(), AppendError>, ghost events: seq<Event>)
      requires CodecOk(c)
      ensures r.Ok? ==> InSync(c, disk.Contents(), Remembered(), events)
      ensures r.Err? ==> forall all :: !InSync(c, disk.Contents(), Remembered(), all)
      ensures r.Err? ==> r.error == ChangedOutside || r.error.Evidence?
      ensures r == Err(ChangedOutside) ==> Verifies(c, disk.Contents(), events)
      ensures r.Err? && r.error.Evidence? ==> forall all :: !Verifies(c, disk.Contents(), all)
    {
      ghost var f := disk.Contents();
      var verified := VerifyAuditLog(c, disk.Contents());
      if verified.Err? {
        return Err(Evidence(verified.error)), [];
      }
      events :| Verifies(c, f, events) && verified.value == Anchor(|events|, Head(SealOf, events));
      if verified.value != Remembered() {
        forall all | Verifies(c, f, all) ensures all == events { VerifiesOnce(c, f, all, events); }
        return Err(ChangedOutside), events;
      }
      r := Ok(());
    }

    /** Append the bytes, sync, and replace the anchor. */
    method Persist(encoded: Bytes, anchor: Bytes, kernel: Kernel) returns (ok: bool, ghost p: Bytes)
      modifies disk
      ensures ok <==> Healthy(kernel, |encoded|)
      ensures ok ==> disk.Contents() == Extended(old(disk.Contents()), encoded, Some(anchor))
      ensures !ok ==> disk.Contents() == old(disk.Contents())
                      || PartlyWritten(old(disk.Contents()), encoded, anchor, disk.Contents(), p)
    {
      p := "";
      ghost var before := disk.Contents();
      if !kernel.opens {
        return false, p;
      }
      if disk.log.None? {
        disk.log := Some("");
      }
      var wrote;
      wrote, p := WriteAll(encoded, kernel.writes);
      assert disk.Contents() == Extended(before, p, before.anchor);
      if !wrote || !kernel.syncs {
        return false, p;
      }
      if !kernel.anchor.NotReplaced? {
        disk.anchor := Some(anchor);
      }
      ok := kernel.anchor.Replaced?;
    }

    /** The part of `append_inference` after the files were found in sync. */
    method AppendVerified(q: Request, now: nat, ids: nat -> nat, kernel: Kernel, ghost events: seq<Event>)
      returns (r: Result<seq<Digest>, AppendError>, ghost p: Bytes)
      requires InSync(c, disk.Contents(), Remembered(), events)
      requires ArgumentsOk(q)
      modifies this, disk
      ensures r.Ok? ==> Complete(c, old(disk.Contents()), old(Remembered()), q, now, ids,
                                 disk.Contents(), Remembered(), r.value)
      ensures r.Err? ==> Remembered() == old(Remembered())
      ensures r.Err? ==> r.error == if Acceptable(q) then IoFailed else InvalidDecision
      ensures r.Err? && disk.Contents() != old(disk.Contents()) ==>
                Interrupted(c, old(disk.Contents()), old(Remembered()), q, now, ids, disk.Contents(), p)
      ensures !Acceptable(q) ==> disk.Contents() == old(disk.Contents())
      ensures r.Ok? <==> Acceptable(q) && Healthy(kernel, |NewBytes(c, events, q, now, ids)|)
    {
      p := "";
      ghost var before, was := disk.Contents(), Remembered();
      var built, encoded, hashes, head := BuildEvents(q, now, ids, headEventHash);
      if !built {
        return Err(InvalidDecision), p;
      }
      var newCount := eventCount + |hashes|;
      var anchor := c.encodeAnchor(Anchor(newCount, head)) + "\n";
      BytesBuilt(c, before, was, events, q, now, ids, encoded, hashes, head);
      var persisted;
      persisted, p := Persist(encoded, anchor, kernel);
      if !persisted {
        PartIsInterrupted(c, before, was, events, q, now, ids, encoded, hashes, head, disk.Contents(), p);
        return Err(IoFailed), p;
      }
      WholeIsComplete(c, before, was, events, q, now, ids, encoded, hashes, head, disk.Contents());
      eventCount, headEventHash := newCount, head;
      assert Remembered() == Anchor(was.eventCount + |hashes|, head);
      r := Ok(hashes);
    }

    /** `append_inference`.  An acceptable request on files as remembered is either
        appended as a whole, or interrupted; anything else is refused and changes
        nothing. */
    method AppendInference(q: Request, now: nat, ids: nat -> nat, kernel: Kernel)
      returns (r: Result<seq<Digest>, AppendError>, ghost p: Bytes)
      requires CodecOk(c)
      modifies this, disk
      ensures r.Ok? ==> Complete(c, old(disk.Contents()), old(Remembered()), q, now, ids,
                                 disk.Contents(), Remembered(), r.value)
      ensures r.Ok? ==> Documented(c, old(disk.Contents()), old(Remembered()), q, now, ids,
                                   disk.Contents(), Remembered(), r.value)
      ensures r.Err? ==> Remembered() == old(Remembered())
      ensures r.Err? && disk.Contents() != old(disk.Contents()) ==>
                r.error.IoFailed?
                && Interrupted(c, old(disk.Contents()), old(Remembered()), q, now, ids, disk.Contents(), p)
      ensures r.Err? && !r.error.IoFailed? <==>
                !(Acceptable(q) && exists events :: InSync(c, old(disk.Contents()), old(Remembered()), events))
      ensures r.Ok? <==> Acceptable(q) && exists events :: InSync(c, old(disk.Contents()), old(Remembered()), events)
                                                           && Healthy(kernel, |NewBytes(c, events, q, now, ids)|)
      ensures r.Err? ==> r.error.InvalidArgument? == !ArgumentsOk(q)
      ensures r.Err? && ArgumentsOk(q) ==>
                (r.error.Evidence? <==> forall events :: !Verifies(c, old(disk.Contents()), events))
      ensures r.Err? && ArgumentsOk(q) && (exists events :: Verifies(c, old(disk.Contents()), events)) ==>
                (r.error.ChangedOutside? <==> forall events :: !InSync(c, old(disk.Contents()), old(Remembered()), events))
    {
      p := "";
      if !ArgumentsOk(q) {
        return Err(InvalidArgument), p;
      }
      var checked;
      ghost var events;
      checked, events := CheckInSync();
      if checked.Err? {
        return Err(checked.error), p;
      }
      forall all | InSync(c, disk.Contents(), Remembered(), all) ensures all == events {
        VerifiesOnce(c, disk.Contents(), all, events);
      }
      ghost var f, w := disk.Contents(), Remembered();
      r, p := AppendVerified(q, now, ids, kernel, events);
      if r.Ok? {
        CompleteIffDocumented(c, f, w, q, now, ids, disk.Contents(), Remembered(), r.value);
      }
    }
  }

  /** A prefix of the new bytes is in the log; the new anchor only after all of them. */
  predicate PartlyWritten(f: Files, encoded: Bytes, anchor: Bytes, g: Files, p: Bytes)
  {
    p <= encoded && (g == Extended(f, p, f.anchor) || (p == encoded && g == Extended(f, p, Some(anchor))))
  }

  /** The head after the new events is the hash of the last of them. */
  lemma NewHead(c: Codec, f: Files, w: Anchor, events: seq<Event>, q: Request, now: nat, ids: nat -> nat)
    requires InSync(c, f, w, events) && Acceptable(q)
    ensures Head(SealOf, events + Added(c, events, q, now, ids)) == Added(c, events, q, now, ids)[|q.decisions| - 1].eventHash
    ensures w.head == Head(SealOf, events) && w.eventCount == |events|
  {
    NewEventsLinked(c, q, now, ids, events, |q.decisions|);
  }

  lemma BuiltIsAdded(c: Codec, f: Files, w: Anchor, events: seq<Event>, q: Request, now: nat, ids: nat -> nat,
                     encoded: Bytes, hashes: seq<Digest>, head: Digest)
    requires InSync(c, f, w, events) && Acceptable(q)
    requires Built(c, q, now, ids, w.head, |q.decisions|, encoded, hashes, head)
    ensures encoded == Join(Lines(c, Added(c, events, q, now, ids))) && hashes == Hashes(Added(c, events, q, now, ids))
    ensures c.encodeAnchor(Anchor(w.eventCount + |hashes|, head)) + "\n" == AnchorBytes(c, events + Added(c, events, q, now, ids))
    ensures Anchor(w.eventCount + |hashes|, head)
            == Anchor(|events| + |q.decisions|, Head(SealOf, events + Added(c, events, q, now, ids)))
  {
    NewHead(c, f, w, events, q, now, ids);
  }

  lemma BytesBuilt(c: Codec, f: Files, w: Anchor, events: seq<Event>, q: Request, now: nat, ids: nat -> nat,
                   encoded: Bytes, hashes: seq<Digest>, head: Digest)
    requires InSync(c, f, w, events) && Acceptable(q)
    requires Built(c, q, now, ids, w.head, |q.decisions|, encoded, hashes, head)
    ensures |encoded| == |NewBytes(c, events, q, now, ids)|
  {
    BuiltIsAdded(c, f, w, events, q, now, ids, encoded, hashes, head);
  }

  /** Writing all that was built completes the append. */
  lemma WholeIsComplete(c: Codec, f: Files, w: Anchor, events: seq<Event>, q: Request, now: nat, ids: nat -> nat,
                        encoded: Bytes, hashes: seq<Digest>, head: Digest, g: Files)
    requires InSync(c, f, w, events) && Acceptable(q)
    requires Built(c, q, now, ids, w.head, |q.decisions|, encoded, hashes, head)
    requires g == Extended(f, encoded, Some(c.encodeAnchor(Anchor(w.eventCount + |hashes|, head)) + "\n"))
    ensures Complete(c, f, w, q, now, ids, g, Anchor(w.eventCount + |hashes|, head), hashes)
  {
    BuiltIsAdded(c, f, w, events, q, now, ids, encoded, hashes, head);
  }

  lemma CompleteIsDocumented(c: Codec, f: Files, w: Anchor, events: seq<Event>, q: Request, now: nat, ids: nat -> nat, v: Anchor)
    requires InSync(c, f, w, events) && Acceptable(q)
    requires v == Anchor(|events| + |q.decisions|, Head(SealOf, events + Added(c, events, q, now, ids)))
    ensures Documented(c, f, w, q, now, ids, AppendedFiles(c, f, events, q, now, ids), v, Hashes(Added(c, events, q, now, ids)))
  {
    AddedIsGrown(c, f, events, q, now, ids, v);
  }

  lemma AddedIsGrown(c: Codec, f: Files, events: seq<Event>, q: Request, now: nat, ids: nat -> nat, v: Anchor)
    requires Linked(SealOf, LinkOf, events)
    requires v == Anchor(|events| + |q.decisions|, Head(SealOf, events + Added(c, events, q, now, ids)))
    ensures var added := Added(c, events, q, now, ids);
            Grown(c, f, events, added, q, now, ids, AppendedFiles(c, f, events, q, now, ids), v, Hashes(added))
  {
    var added := Added(c, events, q, now, ids);
    NewEventsRecord(c, q, now, ids, Head(SealOf, events), |q.decisions|);
    NewEventsLinked(c, q, now, ids, events, |q.decisions|);
    assert v == Anchor(|events + added|, Head(SealOf, events + added));
  }

  lemma GrownIsComplete(c: Codec, f: Files, w: Anchor, events: seq<Event>, added: seq<Event>, q: Request, now: nat, ids: nat -> nat,
                        g: Files, v: Anchor, hashes: seq<Digest>)
    requires CodecOk(c) && InSync(c, f, w, events) && Acceptable(q) && Grown(c, f, events, added, q, now, ids, g, v, hashes)
    ensures Complete(c, f, w, q, now, ids, g, v, hashes)
  {
    GrownIsNew(c, events, added, q, now, ids, |added|);
    assert added[..|added|] == added;
    assert v == Anchor(|events + added|, Head(SealOf, events + added));
    AppendedIsComplete(c, f, w, events, q, now, ids);
  }

  lemma AppendedIsComplete(c: Codec, f: Files, w: Anchor, events: seq<Event>, q: Request, now: nat, ids: nat -> nat)
    requires InSync(c, f, w, events) && Acceptable(q)
    ensures Complete(c, f, w, q, now, ids, AppendedFiles(c, f, events, q, now, ids),
                     Anchor(|events| + |q.decisions|, Head(SealOf, events + Added(c, events, q, now, ids))), Hashes(Added(c, events, q, now, ids)))
  {
  }

  lemma RecordsOnce(c: Codec, q: Request, now: nat, ids: nat -> nat, d: Event, e: Event, i: nat)
    requires CodecOk(c) && Acceptable(q) && Records(c, q, now, ids, d, i) && Records(c, q, now, ids, e, i)
    requires LinkOf(d) == LinkOf(e)
    ensures d == e
  {
    assert DecisionOk(q.decisions[i]);
    assert FromZero(c.round(q.latencyMs));
  }

  /** Events that state the decisions of an acceptable request and are chained onto the log
      are the new events. */
  lemma {:induction false} GrownIsNew(c: Codec, events: seq<Event>, added: seq<Event>, q: Request, now: nat, ids: nat -> nat, n: nat)
    requires CodecOk(c) && Acceptable(q) && |added| == |q.decisions| && n <= |added|
    requires forall i :: 0 <= i < |added| ==> Records(c, q, now, ids, added[i], i)
    requires Linked(SealOf, LinkOf, events + added)
    ensures added[..n] == NewEvents(c, q, now, ids, Head(SealOf, events), n)
    decreases n
  {
    if n > 0 {
      GrownIsNew(c, events, added, q, now, ids, n - 1);
      LastIsNew(c, events, added, q, now, ids, n);
      assert added[..n] == added[..n - 1] + [added[n - 1]];
    }
  }

  lemma LinkOfGrown(events: seq<Event>, added: seq<Event>, n: nat)
    requires n < |added| && Linked(SealOf, LinkOf, events + added)
    ensures LinkOf(added[n]) == Head(SealOf, events + added[..n])
  {
    assert (events + added)[|events| + n] == added[n];
    assert (events + added)[..|events| + n] == events + added[..n];
  }

  lemma LastIsNew(c: Codec, events: seq<Event>, added: seq<Event>, q: Request, now: nat, ids: nat -> nat, n: nat)
    requires CodecOk(c) && Acceptable(q) && 0 < n <= |added| && |added| == |q.decisions|
    requires Records(c, q, now, ids, added[n - 1], n - 1) && Linked(SealOf, LinkOf, events + added)
    requires added[..n - 1] == NewEvents(c, q, now, ids, Head(SealOf, events), n - 1)
    ensures NewEvents(c, q, now, ids, Head(SealOf, events), n) == added[..n - 1] + [added[n - 1]]
  {
    var previous := Head(SealOf, events);
    LinkOfGrown(events, added, n - 1);
    HeadOfGrown(c, events, added, q, now, ids, n - 1);
    NewEventsLast(c, q, now, ids, previous, n);
    NewEventsRecord(c, q, now, ids, previous, n);
    RecordsOnce(c, q, now, ids, added[n - 1], NewEvents(c, q, now, ids, previous, n)[n - 1], n - 1);
  }

  lemma {:induction false} HeadOfGrown(c: Codec, events: seq<Event>, added: seq<Event>, q: Request, now: nat, ids: nat -> nat, n: nat)
    requires n <= |added| == |q.decisions| && added[..n] == NewEvents(c, q, now, ids, Head(SealOf, events), n)
    ensures Head(SealOf, events + added[..n]) == HeadAfter(c, q, now, ids, Head(SealOf, events), n)
  {
    if n == 0 {
      assert events + added[..n] == events;
    } else {
      assert (events + added[..n])[|events| + n - 1] == added[n - 1];
    }
  }

  /** A complete append is one that documents an acceptable request: nothing more and
      nothing less is written. */
  lemma CompleteIffDocumented(c: Codec, f: Files, w: Anchor, q: Request, now: nat, ids: nat -> nat,
                              g: Files, v: Anchor, hashes: seq<Digest>)
    requires CodecOk(c)
    ensures Complete(c, f, w, q, now, ids, g, v, hashes)
            <==> Acceptable(q) && Documented(c, f, w, q, now, ids, g, v, hashes)
  {
    if Complete(c, f, w, q, now, ids, g, v, hashes) {
      var events :| InSync(c, f, w, events) && Acceptable(q)
        && g == AppendedFiles(c, f, events, q, now, ids)
        && v == Anchor(|events| + |q.decisions|, Head(SealOf, events + Added(c, events, q, now, ids)))
        && hashes == Hashes(Added(c, events, q, now, ids));
      CompleteIsDocumented(c, f, w, events, q, now, ids, v);
    } else if Acceptable(q) && Documented(c, f, w, q, now, ids, g, v, hashes) {
      var events, added :| InSync(c, f, w, events) && Grown(c, f, events, added, q, now, ids, g, v, hashes);
      GrownIsComplete(c, f, w, events, added, q, now, ids, g, v, hashes);
    }
  }

  /** Writing part of it interrupts the append. */
  lemma PartIsInterrupted(c: Codec, f: Files, w: Anchor, events: seq<Event>, q: Request, now: nat, ids: nat -> nat,
                          encoded: Bytes, hashes: seq<Digest>, head: Digest, g: Files, p: Bytes)
    requires InSync(c, f, w, events) && Acceptable(q)
    requires Built(c, q, now, ids, w.head, |q.decisions|, encoded, hashes, head)
    requires g == f || PartlyWritten(f, encoded, c.encodeAnchor(Anchor(w.eventCount + |hashes|, head)) + "\n", g, p)
    ensures g == f || Interrupted(c, f, w, q, now, ids, g, p)
  {
    BuiltIsAdded(c, f, w, events, q, now, ids, encoded, hashes, head);
  }

  /** After an interrupted append that left any trace, the writer's files are never in
      sync again, so each later append is refused and changes nothing. */
  lemma InterruptedWriterRefuses(c: Codec, f: Files, w: Anchor, q: Request, now: nat, ids: nat -> nat, g: Files, p: Bytes, all: seq<Event>)
    requires CodecOk(c) && Interrupted(c, f, w, q, now, ids, g, p)
    requires p != ""
    ensures !InSync(c, g, w, all)
  {
    var events :| InSync(c, f, w, events) && Acceptable(q)
      && PartlyWritten(f, Join(Lines(c, Added(c, events, q, now, ids))),
                       AnchorBytes(c, events + Added(c, events, q, now, ids)), g, p);
    HalfAppliedWriterIsStuck(c, f, events, Added(c, events, q, now, ids), p, g.anchor, all);
  }
}

/** What the local log and anchor prove: tamper evidence, exactly when an append keeps
    the log verifiable, and what a crash in the middle of one leaves behind. */
module LocalEvidence {
  import opened Float
  import opened HashChain
  import opened LocalAudit
  import opened Wrappers

  // ----- Tamper evidence -----

  lemma VerifiesOnce(c: Codec, f: Files, a: seq<Event>, b: seq<Event>)
    requires CodecOk(c) && Verifies(c, f, a) && Verifies(c, f, b)
    ensures a == b
  {
    if f.log.Some? {
      LinesInjective(c, a, b);
    }
  }

  /** Two logs that verify against one anchor hold the same events, or two different
      event contents with one hash are exhibited. */
  lemma SameAnchorSameLog(c: Codec, anchor: Option<Bytes>, x: Option<Bytes>, y: Option<Bytes>, a: seq<Event>, b: seq<Event>)
    requires CodecOk(c) && Verifies(c, Files(x, anchor), a) && Verifies(c, Files(y, anchor), b)
    ensures a == b || exists i :: 0 <= i < |a| && i < |b| && a[i].body != b[i].body && c.hash(a[i].body) == c.hash(b[i].body)
  {
    if anchor.Some? {
      AnchorDetermines(c, a, b);
      SameAnchorSameEntries(SealOf, LinkOf, a, b);
      if a != b {
        var i :| 0 <= i < |a| && Collides(SealOf, a[i], b[i]);
        assert a[i].body != b[i].body && c.hash(a[i].body) == c.hash(b[i].body);
      }
    }
  }

  lemma AnchorDetermines(c: Codec, a: seq<Event>, b: seq<Event>)
    requires CodecOk(c) && AnchorBytes(c, a) == AnchorBytes(c, b)
    ensures |a| == |b| && Head(SealOf, a) == Head(SealOf, b)
  {
    var x, y := Anchor(|a|, Head(SealOf, a)), Anchor(|b|, Head(SealOf, b));
    assert AnchorBytes(c, a)[..|c.encodeAnchor(x)|] == c.encodeAnchor(x);
    assert AnchorBytes(c, b)[..|c.encodeAnchor(y)|] == c.encodeAnchor(y);
    assert c.decodeAnchor(c.encodeAnchor(x)) == Some(x) && c.decodeAnchor(c.encodeAnchor(y)) == Some(y);
  }

  lemma LinesHaveNoBreaks(c: Codec, events: seq<Event>)
    requires CodecOk(c)
    ensures forall i :: 0 <= i < |events| ==> !HasBreak(Lines(c, events)[i]) && Lines(c, events)[i] != ""
  {
  }

  lemma {:induction false} JoinHasNoReturns(lines: seq<Bytes>)
    requires forall i :: 0 <= i < |lines| ==> !HasBreak(lines[i])
    ensures '\r' !in Join(lines)
    decreases |lines|
  {
    if |lines| > 0 {
      JoinHasNoReturns(lines[1..]);
    }
  }

  /** The events determine the bytes exactly when the file has no carriage return. */
  lemma BytesDeterminedIff(c: Codec, log: Bytes, events: seq<Event>)
    requires CodecOk(c) && LogHolds(c, log, events)
    ensures log == Join(Lines(c, events)) <==> '\r' !in log
  {
    LinesHaveNoBreaks(c, events);
    JoinHasNoReturns(Lines(c, events));
    if '\r' !in log {
      JoinSplit(log);
    }
  }

  function JoinCrLf(lines: seq<Bytes>): Bytes
  {
    if |lines| == 0 then "" else lines[0] + "\r\n" + JoinCrLf(lines[1..])
  }

  lemma {:induction false} FirstBreakCr(a: Bytes, b: Bytes)
    requires !HasBreak(a)
    ensures FirstBreak(a + "\r\n" + b) == |a|
    decreases |a|
  {
    if |a| > 0 {
      assert (a + "\r\n" + b)[1..] == a[1..] + "\r\n" + b;
      assert !HasBreak(a[1..]);
      FirstBreakCr(a[1..], b);
    }
  }

  lemma {:induction false} SplitCrLf(lines: seq<Bytes>)
    requires forall i :: 0 <= i < |lines| ==> !HasBreak(lines[i])
    ensures SplitLines(JoinCrLf(lines)) == lines && Terminated(JoinCrLf(lines))
    decreases |lines|
  {
    if |lines| > 0 {
      var rest := JoinCrLf(lines[1..]);
      FirstBreakCr(lines[0], rest);
      var b := lines[0] + "\r\n" + rest;
      assert b[..|lines[0]|] == lines[0];
      assert b[|lines[0]| + 2..] == rest;
      SplitCrLf(lines[1..]);
    }
  }

  /** So a change of bytes alone can go unnoticed: rewriting every line feed of a log as
      CR LF changes the file, and it verifies against the same anchor. */
  lemma LineEndingsGoUnnoticed(c: Codec, anchor: Option<Bytes>, events: seq<Event>)
    requires CodecOk(c) && |events| > 0 && Verifies(c, Files(Some(Join(Lines(c, events))), anchor), events)
    ensures Verifies(c, Files(Some(JoinCrLf(Lines(c, events))), anchor), events)
    ensures JoinCrLf(Lines(c, events)) != Join(Lines(c, events))
  {
    LinesHaveNoBreaks(c, events);
    SplitCrLf(Lines(c, events));
    JoinHasNoReturns(Lines(c, events));
    var first := Lines(c, events)[0];
    assert JoinCrLf(Lines(c, events))[|first|] == '\r';
  }

  // ----- Appending -----

  datatype Decision = Decision(score: Float64, threshold: Float64, verdict: Verdict, modelVersion: string, fingerprint: Digest)

  datatype Request = Request(id: string, inputDigest: Digest, latencyMs: Float64, decisions: seq<Decision>)

  /** A number that is not finite is refused; until then it stands for zero. */
  function Written(x: Float64): Number { if IsFinite(x) then Double(x) else Whole(0) }

  function RecordOf(d: Decision): Recorded
  {
    Recorded(Written(d.score), Written(d.threshold), d.verdict, d.modelVersion, d.fingerprint)
  }

  /** The event of decision `i`; `ids` is the source of event identifiers. */
  function NewEvent(c: Codec, q: Request, now: nat, ids: nat -> nat, i: nat, previous: Digest): Event
    requires i < |q.decisions|
  {
    var body := Unsigned(ids(i), i, q.id, now, c.keyHash(q.id), q.inputDigest, RecordOf(q.decisions[i]),
                         Written(c.round(q.latencyMs)), previous);
    Event(body, c.hash(body))
  }

  /** The events of the first `n` decisions, chained onto `previous`. */
  function NewEvents(c: Codec, q: Request, now: nat, ids: nat -> nat, previous: Digest, n: nat): (r: seq<Event>)
    requires n <= |q.decisions|
    ensures |r| == n
  {
    if n == 0 then []
    else
      var init := NewEvents(c, q, now, ids, previous, n - 1);
      init + [NewEvent(c, q, now, ids, n - 1, if n == 1 then previous else init[n - 2].eventHash)]
  }

  /** What `append_inference` checks of its arguments, … */
  predicate ArgumentsOk(q: Request) { |q.decisions| > 0 && RequestIdOk(q.id) && FromZero(q.latencyMs) }

  /** … and `_validate_event` of each event. */
  predicate Acceptable(q: Request)
  {
    && ArgumentsOk(q)
    && forall i :: 0 <= i < |q.decisions| ==> DecisionOk(q.decisions[i])
  }

  predicate DecisionOk(d: Decision)
  {
    d.modelVersion != "" && IsUnit(d.score) && IsUnit(d.threshold)
  }

  /** Finite, and from zero to one. */
  predicate IsUnit(x: Float64) { FromZero(x) && (x <= ONE || x == SIGN) }

  /** A decision is refused exactly when it names no model version or a score or threshold
      of it is no number from zero to one. */
  lemma DecisionOkIff(d: Decision)
    ensures DecisionOk(d) <==> d.modelVersion != "" && InUnitInterval(d.score) && InUnitInterval(d.threshold)
  {
    if IsFinite(d.score) { UnitInterval(d.score); }
    if IsFinite(d.threshold) { UnitInterval(d.threshold); }
  }

  predicate InUnitInterval(x: Float64) { IsFinite(x) && 0 <= Value(x) <= One() }

  /** The event states what was decided: each number as the number it was. */
  predicate States(e: Event, d: Decision)
  {
    && (IsFinite(d.score) ==> e.body.decision.score == Double(d.score))
    && (IsFinite(d.threshold) ==> e.body.decision.threshold == Double(d.threshold))
    && e.body.decision.verdict == d.verdict
    && e.body.decision.modelVersion == d.modelVersion && e.body.decision.fingerprint == d.fingerprint
  }

  /** `e` is the event of decision `i`. */
  predicate Records(c: Codec, q: Request, now: nat, ids: nat -> nat, e: Event, i: nat)
  {
    && i < |q.decisions| && States(e, q.decisions[i])
    && e.eventHash == c.hash(e.body)
    && e.body.eventId == ids(i) && e.body.eventIndex == i && e.body.requestId == q.id
    && e.body.occurredAt == now && e.body.keyDigest == c.keyHash(q.id) && e.body.inputDigest == q.inputDigest
    && (IsFinite(c.round(q.latencyMs)) ==> e.body.latencyMs == Double(c.round(q.latencyMs)))
  }

  lemma {:induction false} NewEventsRecord(c: Codec, q: Request, now: nat, ids: nat -> nat, previous: Digest, n: nat)
    requires n <= |q.decisions|
    ensures forall i :: 0 <= i < n ==> Records(c, q, now, ids, NewEvents(c, q, now, ids, previous, n)[i], i)
    decreases n
  {
    if n > 0 {
      NewEventsRecord(c, q, now, ids, previous, n - 1);
    }
  }

  /** The head after the first `n` new events. */
  function HeadAfter(c: Codec, q: Request, now: nat, ids: nat -> nat, previous: Digest, n: nat): Digest
    requires n <= |q.decisions|
  {
    if n == 0 then previous else NewEvents(c, q, now, ids, previous, n)[n - 1].eventHash
  }

  /** Chained onto these events, with this head. */
  ghost predicate ChainedOnto(events: seq<Event>, added: seq<Event>, head: Digest)
  {
    Linked(SealOf, LinkOf, events + added) && Head(SealOf, events + added) == head
  }

  lemma ChainNothing(events: seq<Event>)
    requires Linked(SealOf, LinkOf, events)
    ensures ChainedOnto(events, [], Head(SealOf, events))
  {
    assert events + [] == events;
  }

  lemma ChainOne(events: seq<Event>, init: seq<Event>, head: Digest, e: Event)
    requires ChainedOnto(events, init, head) && LinkOf(e) == head
    ensures ChainedOnto(events, init + [e], e.eventHash)
  {
    LinkedAppend(SealOf, LinkOf, events + init, e);
    assert events + (init + [e]) == (events + init) + [e];
  }

  lemma NewEventsLast(c: Codec, q: Request, now: nat, ids: nat -> nat, previous: Digest, n: nat)
    requires 0 < n <= |q.decisions|
    ensures var e := NewEvent(c, q, now, ids, n - 1, HeadAfter(c, q, now, ids, previous, n - 1));
            && NewEvents(c, q, now, ids, previous, n) == NewEvents(c, q, now, ids, previous, n - 1) + [e]
            && HeadAfter(c, q, now, ids, previous, n) == e.eventHash
            && LinkOf(e) == HeadAfter(c, q, now, ids, previous, n - 1)
  {
  }

  lemma {:induction false} NewEventsLinked(c: Codec, q: Request, now: nat, ids: nat -> nat, events: seq<Event>, n: nat)
    requires n <= |q.decisions| && Linked(SealOf, LinkOf, events)
    ensures ChainedOnto(events, NewEvents(c, q, now, ids, Head(SealOf, events), n), HeadAfter(c, q, now, ids, Head(SealOf, events), n))
    decreases n
  {
    var previous := Head(SealOf, events);
    if n == 0 {
      ChainNothing(events);
    } else {
      var head := HeadAfter(c, q, now, ids, previous, n - 1);
      NewEventsLinked(c, q, now, ids, events, n - 1);
      NewEventsLast(c, q, now, ids, previous, n);
      ChainOne(events, NewEvents(c, q, now, ids, previous, n - 1), head, NewEvent(c, q, now, ids, n - 1, head));
    }
  }

  /** The new identifiers and pairs repeat nothing. */
  ghost predicate FreshFor(events: seq<Event>, q: Request, ids: nat -> nat)
  {
    && (forall i, j :: 0 <= i < j < |q.decisions| ==> ids(i) != ids(j))
    && (forall i, j :: 0 <= i < |events| && 0 <= j < |q.decisions| ==> events[i].body.eventId != ids(j))
    && (forall i :: 0 <= i < |events| ==> !(events[i].body.requestId == q.id && events[i].body.eventIndex < |q.decisions|))
  }

  lemma NoRepeatsIffFresh(c: Codec, q: Request, now: nat, ids: nat -> nat, events: seq<Event>, added: seq<Event>)
    requires NoRepeats(events) && |added| == |q.decisions|
    requires forall i :: 0 <= i < |added| ==> Records(c, q, now, ids, added[i], i)
    ensures NoRepeats(events + added) <==> FreshFor(events, q, ids)
  {
    var all := events + added;
    if NoRepeats(all) {
      forall i, j | 0 <= i < j < |q.decisions| ensures ids(i) != ids(j) {
        assert all[|events| + i] == added[i] && all[|events| + j] == added[j];
      }
      forall i, j | 0 <= i < |events| && 0 <= j < |q.decisions| ensures events[i].body.eventId != ids(j) {
        assert all[i] == events[i] && all[|events| + j] == added[j];
      }
      forall i | 0 <= i < |events| ensures !(events[i].body.requestId == q.id && events[i].body.eventIndex < |q.decisions|) {
        if events[i].body.eventIndex < |q.decisions| {
          assert all[i] == events[i] && all[|events| + events[i].body.eventIndex] == added[events[i].body.eventIndex];
        }
      }
    }
    if FreshFor(events, q, ids) {
      forall i, j | 0 <= i < j < |all| ensures all[i].body.eventId != all[j].body.eventId && Pair(all[i]) != Pair(all[j]) {
        if j >= |events| {
          assert all[j] == added[j - |events|];
          if i >= |events| {
            assert all[i] == added[i - |events|];
          }
        }
      }
    }
  }

  // ----- Files during and after an append -----

  function LogBytes(f: Files): Bytes { if f.log.Some? then f.log.value else "" }

  /** The files after some of the new bytes, with this anchor. */
  function Extended(f: Files, written: Bytes, anchor: Option<Bytes>): Files { Files(Some(LogBytes(f) + written), anchor) }

  lemma LinesAppend(c: Codec, a: seq<Event>, b: seq<Event>)
    ensures Lines(c, a + b) == Lines(c, a) + Lines(c, b)
  {
  }

  lemma LogAppend(c: Codec, f: Files, events: seq<Event>, more: seq<Event>)
    requires CodecOk(c) && Verifies(c, f, events)
    ensures LogHolds(c, LogBytes(f) + Join(Lines(c, more)), events + more)
  {
    LinesHaveNoBreaks(c, more);
    SplitAppend(LogBytes(f), Join(Lines(c, more)));
    SplitJoin(Lines(c, more));
    JoinTerminated(Lines(c, more));
    LinesAppend(c, events, more);
  }

  function Added(c: Codec, events: seq<Event>, q: Request, now: nat, ids: nat -> nat): (r: seq<Event>)
    ensures |r| == |q.decisions|
  {
    NewEvents(c, q, now, ids, Head(SealOf, events), |q.decisions|)
  }

  /** The files once the append is complete. */
  function AppendedFiles(c: Codec, f: Files, events: seq<Event>, q: Request, now: nat, ids: nat -> nat): Files
  {
    var added := Added(c, events, q, now, ids);
    Extended(f, Join(Lines(c, added)), Some(AnchorBytes(c, events + added)))
  }

  lemma AddedIsValid(c: Codec, q: Request, now: nat, ids: nat -> nat, e: Event, i: nat)
    requires CodecOk(c) && Acceptable(q) && Records(c, q, now, ids, e, i)
    ensures ValidEvent(e)
  {
    assert DecisionOk(q.decisions[i]);
    assert FromZero(c.round(q.latencyMs));
  }

  lemma AddedAreValid(c: Codec, events: seq<Event>, q: Request, now: nat, ids: nat -> nat)
    requires CodecOk(c) && Acceptable(q)
    ensures forall i :: 0 <= i < |q.decisions| ==> Records(c, q, now, ids, Added(c, events, q, now, ids)[i], i)
    ensures EachOk(c, Added(c, events, q, now, ids))
  {
    var added := Added(c, events, q, now, ids);
    NewEventsRecord(c, q, now, ids, Head(SealOf, events), |q.decisions|);
    forall i | 0 <= i < |q.decisions| ensures ValidEvent(added[i]) { AddedIsValid(c, q, now, ids, added[i], i); }
  }

  lemma AppendedEventsOk(c: Codec, events: seq<Event>, q: Request, now: nat, ids: nat -> nat)
    requires CodecOk(c) && EventsOk(c, events) && Acceptable(q)
    ensures EventsOk(c, events + Added(c, events, q, now, ids)) <==> FreshFor(events, q, ids)
  {
    var added := Added(c, events, q, now, ids);
    AddedAreValid(c, events, q, now, ids);
    NewEventsLinked(c, q, now, ids, events, |q.decisions|);
    NoRepeatsIffFresh(c, q, now, ids, events, added);
    EachOkAppend(c, events, added);
  }

  /** After a whole append the files verify if and only if the identifiers were fresh and
      the log had no event of this request with one of these indexes; the events are then
      the old ones and the new. */
  lemma AppendVerifiesIff(c: Codec, f: Files, events: seq<Event>, q: Request, now: nat, ids: nat -> nat)
    requires CodecOk(c) && Verifies(c, f, events) && Acceptable(q)
    ensures (exists all :: Verifies(c, AppendedFiles(c, f, events, q, now, ids), all)) <==> FreshFor(events, q, ids)
    ensures FreshFor(events, q, ids) ==>
              Verifies(c, AppendedFiles(c, f, events, q, now, ids), events + Added(c, events, q, now, ids))
  {
    var added := Added(c, events, q, now, ids);
    var g := AppendedFiles(c, f, events, q, now, ids);
    AppendedEventsOk(c, events, q, now, ids);
    LogAppend(c, f, events, added);
    if all :| Verifies(c, g, all) {
      LinesInjective(c, all, events + added);
    }
    if FreshFor(events, q, ids) {
      assert Verifies(c, g, events + added);
    }
  }

  // ----- Crashes -----

  lemma PieceNotTerminated(c: Codec, e: Event, log: Bytes, q: Bytes)
    requires CodecOk(c) && q <= c.encode(e)
    ensures q != "" ==> !Terminated(log + q)
  {
    if q != "" {
      assert (log + q)[|log + q| - 1] == q[|q| - 1];
      assert q[|q| - 1] in c.encode(e);
    }
  }

  /** How many whole events the log holds after a prefix of the new bytes. */
  lemma PrefixLog(c: Codec, f: Files, events: seq<Event>, more: seq<Event>, p: Bytes, all: seq<Event>)
    requires CodecOk(c) && Verifies(c, f, events)
    requires p <= Join(Lines(c, more)) && LogHolds(c, LogBytes(f) + p, all)
    ensures exists k :: 0 <= k <= |more| && all == events + more[..k] && p == Join(Lines(c, more[..k]))
  {
    LinesHaveNoBreaks(c, more);
    var k, q := PrefixOfJoin(Lines(c, more), p);
    assert Lines(c, more)[..k] == Lines(c, more[..k]);
    var whole := Join(Lines(c, more[..k]));
    assert LogBytes(f) + p == LogBytes(f) + whole + q;
    if k < |more| { PieceNotTerminated(c, more[k], LogBytes(f) + whole, q); }
    assert p == whole;
    LogAppend(c, f, events, more[..k]);
    LinesInjective(c, all, events + more[..k]);
  }

  /** Whole new lines under the old anchor are none, under the new anchor all. */
  lemma AnchorDecides(c: Codec, f: Files, events: seq<Event>, more: seq<Event>, k: nat, anchor: Option<Bytes>)
    requires CodecOk(c) && Verifies(c, f, events) && |more| > 0 && k <= |more|
    requires anchor == f.anchor || anchor == Some(AnchorBytes(c, events + more))
    requires anchor.Some? ==> anchor.value == AnchorBytes(c, events + more[..k])
    requires anchor.None? ==> events + more[..k] == []
    ensures (k == 0 && anchor == f.anchor) || (k == |more| && anchor == Some(AnchorBytes(c, events + more)))
  {
    if anchor == f.anchor {
      if anchor.Some? { AnchorDetermines(c, events + more[..k], events); }
      assert |events + more[..k]| == |events| + k;
    } else {
      AnchorDetermines(c, events + more[..k], events + more);
    }
  }

  /** Crash atomicity: whatever prefix of the new bytes is on disk, and whichever of the
      two anchors, the verifier reports exactly the old events, exactly the new ones, or
      an error. */
  lemma CrashLeavesOldNewOrError(c: Codec, f: Files, events: seq<Event>, more: seq<Event>, p: Bytes, anchor: Option<Bytes>, all: seq<Event>)
    requires CodecOk(c) && Verifies(c, f, events) && |more| > 0
    requires p <= Join(Lines(c, more))
    requires anchor == f.anchor || anchor == Some(AnchorBytes(c, events + more))
    requires Verifies(c, Extended(f, p, anchor), all)
    ensures (p == "" && anchor == f.anchor && all == events)
            || (p == Join(Lines(c, more)) && anchor == Some(AnchorBytes(c, events + more)) && all == events + more)
  {
    PrefixLog(c, f, events, more, p, all);
    var k :| 0 <= k <= |more| && all == events + more[..k] && p == Join(Lines(c, more[..k]));
    AnchorDecides(c, f, events, more, k, anchor);
    NoneOrAll(events, more, k);
  }

  lemma NoneOrAll(events: seq<Event>, more: seq<Event>, k: nat)
    requires k == 0 || k == |more|
    ensures k == 0 ==> more[..k] == [] && events + more[..k] == events
    ensures k == |more| ==> more[..k] == more
  {
  }

  /** The untouched state verifies as before, even when the append created the file. */
  lemma NothingWrittenIsOld(c: Codec, f: Files, events: seq<Event>)
    requires CodecOk(c) && Verifies(c, f, events)
    ensures Verifies(c, Extended(f, "", f.anchor), events)
  {
    assert LogBytes(f) + "" == LogBytes(f);
  }

  /** A writer whose append stopped half way (some bytes, or the new anchor) finds files
      that are not the ones it remembers, so it never appends again. */
  lemma HalfAppliedWriterIsStuck(c: Codec, f: Files, events: seq<Event>, more: seq<Event>, p: Bytes, anchor: Option<Bytes>, all: seq<Event>)
    requires CodecOk(c) && Verifies(c, f, events) && |more| > 0
    requires p <= Join(Lines(c, more))
    requires anchor == f.anchor || anchor == Some(AnchorBytes(c, events + more))
    requires p != "" || anchor != f.anchor
    ensures !(Verifies(c, Extended(f, p, anchor), all) && Anchor(|all|, Head(SealOf, all)) == Anchor(|events|, Head(SealOf, events)))
  {
    if Verifies(c, Extended(f, p, anchor), all) {
      CrashLeavesOldNewOrError(c, f, events, more, p, anchor, all);
    }
  }
}

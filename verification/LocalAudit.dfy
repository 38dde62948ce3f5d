/** The local audit evidence (api/audit.py): an NDJSON log, chained by hash, and a
    separately replaced anchor file with its count and head. */
module LocalAudit {
  import opened Float
  import opened HashChain
  import opened Wrappers

  /** File contents; a char stands for one byte. */
  type Bytes = string

  type Finite = x: Float64 | IsFinite(x)

  /** A JSON number; the verifier takes integers as well as floats. */
  datatype Number = Whole(n: int) | Double(x: Finite)

  datatype Verdict = HumanReview | BelowReviewThreshold

  /** What a decision looks like in an event. */
  datatype Recorded = Recorded(score: Number, threshold: Number, verdict: Verdict, modelVersion: string, fingerprint: Digest)

  /** The hashed fields of an event; the two schema versions and the status are constant. */
  datatype Unsigned = Unsigned(
    eventId: nat, eventIndex: nat, requestId: string, occurredAt: nat, keyDigest: Digest, inputDigest: Digest,
    decision: Recorded, latencyMs: Number, previousHash: Digest)

  datatype Event = Event(body: Unsigned, eventHash: Digest)

  datatype Anchor = Anchor(eventCount: nat, head: Digest)

  /** Canonical JSON, its strict reader, the hashes, and rounding to three decimals. */
  datatype Codec = Codec(
    encode: Event -> Bytes, decode: Bytes -> Option<Event>,
    encodeAnchor: Anchor -> Bytes, decodeAnchor: Bytes -> Option<Anchor>,
    hash: Unsigned -> Digest, keyHash: string -> Digest, round: Float64 -> Float64)

  /** Canonical encodings are never empty, contain no raw line break (section 7 of
      RFC 8259), and are read back; rounding keeps finite numbers from zero on such. */
  ghost predicate CodecOk(c: Codec)
  {
    && (forall e :: c.decode(c.encode(e)) == Some(e) && c.encode(e) != "" && !HasBreak(c.encode(e)))
    && (forall a :: c.decodeAnchor(c.encodeAnchor(a)) == Some(a) && c.encodeAnchor(a) != "" && !HasBreak(c.encodeAnchor(a)))
    && (forall x :: FromZero(x) ==> FromZero(c.round(x)))
  }

  /** Finite and not below zero. */
  predicate FromZero(x: Float64) { IsFinite(x) && !IsNegative(x) }

  predicate HasBreak(b: Bytes) { '\n' in b || '\r' in b }

  // ----- Line framing -----

  /** The position of the first line break. */
  function FirstBreak(b: Bytes): (n: nat)
    ensures n <= |b| && !HasBreak(b[..n])
    ensures n < |b| ==> b[n] == '\n' || b[n] == '\r'
  {
    if |b| == 0 || b[0] == '\n' || b[0] == '\r' then 0
    else
      var n := 1 + FirstBreak(b[1..]);
      assert b[..n] == [b[0]] + b[1..][..n - 1];
      n
  }

  /** bytes.splitlines: LF, CR and CR LF all end a line. */
  function SplitLines(b: Bytes): seq<Bytes>
  {
    if |b| == 0 then []
    else
      var n := FirstBreak(b);
      if n == |b| then [b]
      else
        [b[..n]] + SplitLines(b[BreakEnd(b, n)..])
  }

  function BreakEnd(b: Bytes, n: nat): (m: nat)
    requires n < |b|
    ensures n < m <= |b|
  {
    if b[n] == '\r' && n + 1 < |b| && b[n + 1] == '\n' then n + 2 else n + 1
  }

  predicate Terminated(b: Bytes) { b == "" || b[|b| - 1] == '\n' }

  function Join(lines: seq<Bytes>): Bytes
  {
    if |lines| == 0 then "" else lines[0] + "\n" + Join(lines[1..])
  }

  lemma {:induction false} FirstBreakAppend(a: Bytes, b: Bytes)
    requires HasBreak(a)
    ensures FirstBreak(a + b) == FirstBreak(a) < |a|
    decreases |a|
  {
    if a[0] != '\n' && a[0] != '\r' {
      assert (a + b)[1..] == a[1..] + b;
      assert HasBreak(a[1..]);
      FirstBreakAppend(a[1..], b);
    }
  }

  lemma SliceAppend(a: Bytes, b: Bytes, n: nat)
    requires n <= |a|
    ensures (a + b)[..n] == a[..n] && (a + b)[n..] == a[n..] + b
  {
  }

  /** Framing: what follows a line feed is split on its own. */
  lemma {:induction false} SplitAppend(a: Bytes, b: Bytes)
    requires Terminated(a)
    ensures SplitLines(a + b) == SplitLines(a) + SplitLines(b)
    decreases |a|
  {
    if a == "" {
      assert a + b == b;
    } else {
      FirstBreakAppend(a, b);
      var n := FirstBreak(a);
      var m := BreakEnd(a, n);
      assert BreakEnd(a + b, n) == m;
      SliceAppend(a, b, n);
      SliceAppend(a, b, m);
      SplitAppend(a[m..], b);
    }
  }

  lemma {:induction false} NoBreakFirst(a: Bytes, b: Bytes)
    requires !HasBreak(a)
    ensures FirstBreak(a + "\n" + b) == |a|
    decreases |a|
  {
    if |a| > 0 {
      assert (a + "\n" + b)[1..] == a[1..] + "\n" + b;
      assert !HasBreak(a[1..]);
      NoBreakFirst(a[1..], b);
    }
  }

  /** The first line and the rest. */
  lemma SplitFirst(x: Bytes, rest: Bytes)
    requires !HasBreak(x)
    ensures SplitLines(x + "\n" + rest) == [x] + SplitLines(rest)
  {
    var b := x + "\n" + rest;
    NoBreakFirst(x, rest);
    assert b[|x|] == '\n';
    assert b[..|x|] == x && b[|x| + 1..] == rest;
  }

  lemma {:induction false} SplitJoin(lines: seq<Bytes>)
    requires forall i :: 0 <= i < |lines| ==> !HasBreak(lines[i])
    ensures SplitLines(Join(lines)) == lines
    decreases |lines|
  {
    if |lines| > 0 {
      SplitFirst(lines[0], Join(lines[1..]));
      SplitJoin(lines[1..]);
      assert lines == [lines[0]] + lines[1..];
    }
  }

  lemma {:induction false} JoinTerminated(lines: seq<Bytes>)
    ensures Terminated(Join(lines))
    decreases |lines|
  {
    if |lines| > 0 {
      var rest := Join(lines[1..]);
      JoinTerminated(lines[1..]);
      assert rest != "" ==> (lines[0] + "\n" + rest)[|lines[0]| + |rest|] == rest[|rest| - 1];
    }
  }

  lemma JoinCons(x: Bytes, ys: seq<Bytes>)
    ensures Join([x] + ys) == x + "\n" + Join(ys)
  {
    assert ([x] + ys)[1..] == ys;
  }

  lemma CutAtLineFeed(b: Bytes, n: nat)
    requires n < |b| && b[n] == '\n' && Terminated(b) && '\r' !in b
    ensures b == b[..n] + "\n" + b[n + 1..]
    ensures Terminated(b[n + 1..]) && '\r' !in b[n + 1..]
    ensures BreakEnd(b, n) == n + 1
  {
  }

  /** A file without carriage returns is the join of its lines. */
  lemma {:induction false} JoinSplit(b: Bytes)
    requires Terminated(b) && '\r' !in b
    ensures Join(SplitLines(b)) == b
    decreases |b|
  {
    if b != "" {
      var n := FirstBreak(b);
      assert n < |b| by {
        assert b[..|b|] == b;
        assert '\n' in b;
      }
      CutAtLineFeed(b, n);
      JoinSplit(b[n + 1..]);
      JoinCons(b[..n], SplitLines(b[n + 1..]));
    }
  }

  lemma {:induction false} JoinAppend(xs: seq<Bytes>, ys: seq<Bytes>)
    ensures Join(xs + ys) == Join(xs) + Join(ys)
    decreases |xs|
  {
    if |xs| == 0 {
      assert xs + ys == ys;
    } else {
      JoinAppend(xs[1..], ys);
      assert (xs + ys)[1..] == xs[1..] + ys;
    }
  }

  lemma PrefixPastLine(line: Bytes, others: Bytes, p: Bytes)
    requires p <= line + "\n" + others && |p| > |line|
    ensures p == line + "\n" + p[|line| + 1..] && p[|line| + 1..] <= others
  {
    var b := line + "\n" + others;
    assert p == b[..|p|];
    assert b[..|line| + 1] == line + "\n" && b[|line| + 1..] == others;
  }

  lemma PrefixWithinLine(line: Bytes, others: Bytes, p: Bytes)
    requires p <= line + "\n" + others && |p| <= |line|
    ensures p <= line
  {
    var b := line + "\n" + others;
    assert p == b[..|p|] && line == b[..|line|];
  }

  /** A prefix of the join is some whole lines and a piece of the next without its line
      feed. */
  lemma {:induction false} PrefixOfJoin(lines: seq<Bytes>, p: Bytes) returns (k: nat, q: Bytes)
    requires p <= Join(lines)
    ensures k <= |lines| && p == Join(lines[..k]) + q
    ensures k == |lines| ==> q == ""
    ensures k < |lines| ==> q <= lines[k]
    decreases |lines|
  {
    if |lines| == 0 {
      k, q := 0, "";
    } else if |p| <= |lines[0]| {
      PrefixWithinLine(lines[0], Join(lines[1..]), p);
      k, q := 0, p;
    } else {
      PrefixPastLine(lines[0], Join(lines[1..]), p);
      k, q := PrefixOfJoin(lines[1..], p[|lines[0]| + 1..]);
      JoinCons(lines[0], lines[1..][..k]);
      k := k + 1;
      assert lines[..k] == [lines[0]] + lines[1..][..k - 1];
    }
  }

  // ----- What a sound log is -----

  function SealOf(e: Event): Digest { e.eventHash }

  function LinkOf(e: Event): Digest { e.body.previousHash }

  /** `_validate_event`; digests, types and constants are in the types. */
  predicate ValidEvent(e: Event)
  {
    var d := e.body.decision;
    && RequestIdOk(e.body.requestId)
    && d.modelVersion != ""
    && InUnit(d.score)
    && InUnit(d.threshold)
    && NotNegative(e.body.latencyMs)
  }

  /** The integers from this one on do not convert to a float. */
  const FLOAT_LIMIT: int := 0xFFFFFFFFFFFFFC00000000000000000000000000000000000000000000000000000000000000000000000000000000000000000000000000000000000000000000000000000000000000000000000000000000000000000000000000000000000000000000000000000000000000000000000000000000000000000000000000

  predicate InUnit(v: Number)
  {
    match v
    case Whole(n) => n == 0 || n == 1
    case Double(x) => x <= ONE || x == SIGN
  }

  predicate NotNegative(v: Number)
  {
    match v
    case Whole(n) => 0 <= n < FLOAT_LIMIT
    case Double(x) => !IsNegative(x)
  }

  /** What a number is, in the units of `Value`. */
  function ValueOf(v: Number): int
  {
    match v
    case Whole(n) => n * One()
    case Double(x) => Value(x)
  }

  lemma MultipleInUnit(n: int, one: nat)
    requires one >= 1
    ensures 0 <= n * one <= one <==> n == 0 || n == 1
    ensures n * one >= 0 <==> n >= 0
  {
    if n < 0 { assert n * one <= 0 - one; }
    if n > 1 { assert n * one >= 2 * one; }
  }

  /** A score or threshold is accepted if and only if it is a number from zero to one; a
      latency if and only if it is not below zero and, as an integer, fits in a float. */
  lemma InUnitIff(v: Number)
    ensures InUnit(v) <==> 0 <= ValueOf(v) <= One()
    ensures NotNegative(v) <==> ValueOf(v) >= 0 && (v.Whole? ==> v.n < FLOAT_LIMIT)
  {
    match v
    case Whole(n) => MultipleInUnit(n, One());
    case Double(x) => UnitInterval(x);
  }

  /** ^[A-Za-z0-9._-]{1,64}$ */
  predicate RequestIdOk(id: string)
  {
    1 <= |id| <= 64 && forall i :: 0 <= i < |id| ==>
      'A' <= id[i] <= 'Z' || 'a' <= id[i] <= 'z' || '0' <= id[i] <= '9' || id[i] == '.' || id[i] == '_' || id[i] == '-'
  }

  function Pair(e: Event): (string, nat) { (e.body.requestId, e.body.eventIndex) }

  /** No identifier and no (request, index) pair occurs twice. */
  ghost predicate NoRepeats(events: seq<Event>)
  {
    forall i, j :: 0 <= i < j < |events| ==>
      events[i].body.eventId != events[j].body.eventId && Pair(events[i]) != Pair(events[j])
  }

  ghost predicate EventsOk(c: Codec, events: seq<Event>)
  {
    EachOk(c, events) && NoRepeats(events) && Linked(SealOf, LinkOf, events)
  }

  ghost predicate EachOk(c: Codec, events: seq<Event>)
  {
    forall i :: 0 <= i < |events| ==> ValidEvent(events[i]) && events[i].eventHash == c.hash(events[i].body)
  }

  function Lines(c: Codec, events: seq<Event>): (r: seq<Bytes>)
    ensures |r| == |events|
  {
    seq(|events|, i requires 0 <= i < |events| => c.encode(events[i]))
  }

  /** The log holds exactly these events, one canonical line each. */
  ghost predicate LogHolds(c: Codec, log: Bytes, events: seq<Event>)
  {
    Terminated(log) && SplitLines(log) == Lines(c, events)
  }

  function AnchorBytes(c: Codec, events: seq<Event>): Bytes
  {
    c.encodeAnchor(Anchor(|events|, Head(SealOf, events))) + "\n"
  }

  /** The two files. */
  datatype Files = Files(log: Option<Bytes>, anchor: Option<Bytes>)

  /** The files verify, and these are the events. */
  ghost predicate Verifies(c: Codec, f: Files, events: seq<Event>)
  {
    && EventsOk(c, events)
    && match f.log
       case None => f.anchor.None? && events == []
       case Some(log) =>
         && LogHolds(c, log, events)
         && match f.anchor
            case None => events == []
            case Some(a) => a == AnchorBytes(c, events)
  }

  // ----- The verifier -----

  datatype IntegrityError =
    | LogMissing | NotTerminated | EmptyLine | NotAnEvent | InvalidEvent | NotCanonical
    | ReusedEventId | ReusedPair | ChainBreak | HashMismatch | AnchorMissing | BadAnchor | AnchorMismatch

  /** What the loop of the verifier knows after some lines. */
  ghost predicate Scanned(c: Codec, lines: seq<Bytes>, n: nat, events: seq<Event>, previous: Digest,
                          ids: set<nat>, pairs: set<(string, nat)>)
  {
    && n <= |lines| && Lines(c, events) == lines[..n]
    && EventsOk(c, events) && previous == Head(SealOf, events)
    && IdsSeen(events, ids) && PairsSeen(events, pairs)
  }

  ghost predicate IdsSeen(events: seq<Event>, ids: set<nat>)
  {
    forall x :: x in ids <==> exists i :: 0 <= i < |events| && events[i].body.eventId == x
  }

  ghost predicate PairsSeen(events: seq<Event>, pairs: set<(string, nat)>)
  {
    forall x :: x in pairs <==> exists i :: 0 <= i < |events| && Pair(events[i]) == x
  }

  lemma IdsSeenOne(events: seq<Event>, ids: set<nat>, e: Event)
    requires IdsSeen(events, ids)
    ensures IdsSeen(events + [e], ids + {e.body.eventId})
  {
    var all := events + [e];
    forall x ensures x in ids + {e.body.eventId} <==> exists i :: 0 <= i < |all| && all[i].body.eventId == x {
      if x == e.body.eventId { assert all[|events|].body.eventId == x; }
      if i :| 0 <= i < |events| && events[i].body.eventId == x { assert all[i].body.eventId == x; }
    }
  }

  lemma PairsSeenOne(events: seq<Event>, pairs: set<(string, nat)>, e: Event)
    requires PairsSeen(events, pairs)
    ensures PairsSeen(events + [e], pairs + {Pair(e)})
  {
    var all := events + [e];
    forall x ensures x in pairs + {Pair(e)} <==> exists i :: 0 <= i < |all| && Pair(all[i]) == x {
      if x == Pair(e) { assert Pair(all[|events|]) == x; }
      if i :| 0 <= i < |events| && Pair(events[i]) == x { assert Pair(all[i]) == x; }
    }
  }

  lemma LinesInjective(c: Codec, a: seq<Event>, b: seq<Event>)
    requires CodecOk(c) && Lines(c, a) == Lines(c, b)
    ensures a == b
  {
    forall i | 0 <= i < |a| ensures a[i] == b[i] {
      assert Lines(c, a)[i] == c.encode(a[i]) && Lines(c, b)[i] == c.encode(b[i]);
      assert c.decode(c.encode(a[i])) == Some(a[i]) && c.decode(c.encode(b[i])) == Some(b[i]);
    }
  }

  lemma NoEmptyLine(c: Codec, lines: seq<Bytes>, n: nat)
    requires CodecOk(c) && n < |lines| && lines[n] == ""
    ensures forall all :: Lines(c, all) != lines
  {
    forall all ensures Lines(c, all) != lines {
      if n < |all| { assert Lines(c, all)[n] != ""; }
    }
  }

  /** A line that the verifier rejects is in no sound log. */
  lemma LineRejected(c: Codec, lines: seq<Bytes>, n: nat, events: seq<Event>, previous: Digest,
                     ids: set<nat>, pairs: set<(string, nat)>)
    requires CodecOk(c) && Scanned(c, lines, n, events, previous, ids, pairs) && n < |lines|
    requires match c.decode(lines[n])
             case None => true
             case Some(e) =>
               !ValidEvent(e) || c.encode(e) != lines[n] || e.body.eventId in ids || Pair(e) in pairs
               || e.body.previousHash != previous || e.eventHash != c.hash(e.body)
    ensures forall all :: Lines(c, all) == lines ==> !EventsOk(c, all)
  {
    forall all | Lines(c, all) == lines ensures !EventsOk(c, all) {
      assert all[..n] == events by {
        assert Lines(c, all[..n]) == lines[..n];
        LinesInjective(c, all[..n], events);
      }
      assert lines[n] == c.encode(all[n]);
      assert c.decode(lines[n]) == Some(all[n]);
      assert Linked(SealOf, LinkOf, all) ==> LinkOf(all[n]) == Head(SealOf, all[..n]);
    }
  }

  lemma EachOkAppend(c: Codec, a: seq<Event>, b: seq<Event>)
    ensures EachOk(c, a + b) <==> EachOk(c, a) && EachOk(c, b)
  {
    if EachOk(c, a + b) {
      forall i | 0 <= i < |a| ensures ValidEvent(a[i]) && a[i].eventHash == c.hash(a[i].body) { assert a[i] == (a + b)[i]; }
      forall i | 0 <= i < |b| ensures ValidEvent(b[i]) && b[i].eventHash == c.hash(b[i].body) { assert b[i] == (a + b)[|a| + i]; }
    }
  }

  lemma NoRepeatsOne(events: seq<Event>, e: Event)
    requires NoRepeats(events)
    requires forall i :: 0 <= i < |events| ==> events[i].body.eventId != e.body.eventId && Pair(events[i]) != Pair(e)
    ensures NoRepeats(events + [e])
  {
  }

  lemma LinesOne(c: Codec, events: seq<Event>, e: Event, lines: seq<Bytes>, n: nat)
    requires n < |lines| && Lines(c, events) == lines[..n] && lines[n] == c.encode(e)
    ensures Lines(c, events + [e]) == lines[..n + 1]
  {
  }

  lemma LineAccepted(c: Codec, events: seq<Event>, e: Event, lines: seq<Bytes>, n: nat)
    requires n < |lines| && Lines(c, events) == lines[..n] && lines[n] == c.encode(e)
    requires EventsOk(c, events) && ValidEvent(e) && e.eventHash == c.hash(e.body)
    requires forall i :: 0 <= i < |events| ==> events[i].body.eventId != e.body.eventId && Pair(events[i]) != Pair(e)
    requires e.body.previousHash == Head(SealOf, events)
    ensures EventsOk(c, events + [e]) && Lines(c, events + [e]) == lines[..n + 1]
    ensures Head(SealOf, events + [e]) == e.eventHash
  {
    LinkedAppend(SealOf, LinkOf, events, e);
    NoRepeatsOne(events, e);
    EachOkAppend(c, events, [e]);
    LinesOne(c, events, e, lines, n);
  }

  lemma ScannedOne(c: Codec, lines: seq<Bytes>, n: nat, events: seq<Event>, previous: Digest,
                   ids: set<nat>, pairs: set<(string, nat)>, e: Event)
    requires Scanned(c, lines, n, events, previous, ids, pairs) && n < |lines| && lines[n] == c.encode(e)
    requires ValidEvent(e) && e.eventHash == c.hash(e.body)
    requires e.body.eventId !in ids && Pair(e) !in pairs && e.body.previousHash == previous
    ensures Scanned(c, lines, n + 1, events + [e], e.eventHash, ids + {e.body.eventId}, pairs + {Pair(e)})
  {
    LineAccepted(c, events, e, lines, n);
    IdsSeenOne(events, ids, e);
    PairsSeenOne(events, pairs, e);
  }

  /** The lines of the log, one by one. */
  method ScanLines(c: Codec, lines: seq<Bytes>) returns (r: Result<Digest, IntegrityError>, ghost events: seq<Event>)
    requires CodecOk(c)
    ensures r.Ok? ==> Lines(c, events) == lines && EventsOk(c, events) && r.value == Head(SealOf, events)
    ensures r.Err? ==> forall all :: Lines(c, all) == lines ==> !EventsOk(c, all)
  {
    events := [];
    var previous, ids, pairs := GENESIS, {}, {};
    for n := 0 to |lines|
      invariant Scanned(c, lines, n, events, previous, ids, pairs)
    {
      if lines[n] == "" {
        NoEmptyLine(c, lines, n);
        return Err(EmptyLine), events;
      }
      match c.decode(lines[n]) {
        case None =>
          LineRejected(c, lines, n, events, previous, ids, pairs);
          return Err(NotAnEvent), events;
        case Some(e) =>
          var failure :=
            if !ValidEvent(e) then Some(InvalidEvent)
            else if c.encode(e) != lines[n] then Some(NotCanonical)
            else if e.body.eventId in ids then Some(ReusedEventId)
            else if Pair(e) in pairs then Some(ReusedPair)
            else if e.body.previousHash != previous then Some(ChainBreak)
            else if e.eventHash != c.hash(e.body) then Some(HashMismatch)
            else None;
          if failure.Some? {
            LineRejected(c, lines, n, events, previous, ids, pairs);
            return Err(failure.value), events;
          }
          ScannedOne(c, lines, n, events, previous, ids, pairs, e);
          ids, pairs, previous := ids + {e.body.eventId}, pairs + {Pair(e)}, e.eventHash;
          events := events + [e];
      }
    }
    assert lines[..|lines|] == lines;
    r := Ok(previous);
  }

  /** anchor_encoded.rstrip(b"\n"). */
  function StripLineFeeds(b: Bytes): Bytes
  {
    if b == "" || b[|b| - 1] != '\n' then b else StripLineFeeds(b[..|b| - 1])
  }

  predicate AnchorAccepted(c: Codec, a: Bytes, expected: Anchor)
  {
    && a != "" && a[|a| - 1] == '\n'
    && c.decodeAnchor(StripLineFeeds(a)) == Some(expected)
    && c.encodeAnchor(expected) + "\n" == a
  }

  /** Exactly the canonical anchor line is accepted. */
  lemma AnchorExact(c: Codec, a: Bytes, expected: Anchor)
    requires CodecOk(c)
    ensures AnchorAccepted(c, a, expected) <==> a == c.encodeAnchor(expected) + "\n"
  {
    var line := c.encodeAnchor(expected);
    assert !HasBreak(line) && line != "";
    assert (line + "\n")[..|line|] == line;
    assert StripLineFeeds(line) == line;
  }

  /** `verify_audit_log` accepts exactly the files that verify, and reports their count
      and head. */
  method VerifyAuditLog(c: Codec, f: Files) returns (r: Result<Anchor, IntegrityError>)
    requires CodecOk(c)
    ensures r.Ok? ==> exists events :: Verifies(c, f, events) && r.value == Anchor(|events|, Head(SealOf, events))
    ensures r.Err? ==> forall events :: !Verifies(c, f, events)
  {
    if f.log.None? {
      if f.anchor.Some? {
        return Err(LogMissing);
      }
      assert Verifies(c, f, []);
      return Ok(Anchor(0, GENESIS));
    }
    var log := f.log.value;
    if !Terminated(log) {
      return Err(NotTerminated);
    }
    var lines := SplitLines(log);
    var scanned, events := ScanLines(c, lines);
    if scanned.Err? {
      return Err(scanned.error);
    }
    forall all | LogHolds(c, log, all) ensures all == events {
      LinesInjective(c, all, events);
    }
    if f.anchor.None? {
      if |lines| > 0 {
        return Err(AnchorMissing);
      }
      assert Verifies(c, f, events);
      return Ok(Anchor(0, GENESIS));
    }
    var expected := Anchor(|lines|, scanned.value);
    AnchorExact(c, f.anchor.value, expected);
    if !AnchorAccepted(c, f.anchor.value, expected) {
      return Err(AnchorMismatch);
    }
    assert Verifies(c, f, events);
    r := Ok(expected);
  }
}

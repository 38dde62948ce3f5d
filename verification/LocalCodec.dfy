/** A codec that meets `CodecOk`: what is proved under that premise is about something. */
module LocalCodec {
  import opened Float
  import opened LocalAudit
  import opened LocalEvidence
  import opened Numbering
  import opened Wrappers

  function NumberCode(v: Number): seq<nat>
  {
    match v
    case Whole(n) => [0, IntNumber(n)]
    case Double(x) => [1, x]
  }

  function VerdictCode(v: Verdict): nat { if v.HumanReview? then 0 else 1 }

  /** All fields of an event, one after the other. */
  function EventCode(e: Event): seq<nat>
  {
    var b := e.body;
    var d := b.decision;
    [b.eventId, b.eventIndex, TextNumber(b.requestId), b.occurredAt, b.keyDigest, b.inputDigest]
    + (NumberCode(d.score) + NumberCode(d.threshold) + NumberCode(b.latencyMs))
    + [VerdictCode(d.verdict), TextNumber(d.modelVersion), d.fingerprint, b.previousHash, e.eventHash]
  }

  lemma NumberCodeInjective(v: Number, w: Number)
    requires NumberCode(v) == NumberCode(w)
    ensures v == w
  {
    assert NumberCode(v)[0] == NumberCode(w)[0] && NumberCode(v)[1] == NumberCode(w)[1];
  }

  lemma EventCodeInjective(e: Event, f: Event)
    requires EventCode(e) == EventCode(f)
    ensures e == f
  {
    var x, y := EventCode(e), EventCode(f);
    assert x[0] == y[0] && x[1] == y[1] && x[2] == y[2] && x[3] == y[3] && x[4] == y[4] && x[5] == y[5];
    assert x[12] == y[12] && x[13] == y[13] && x[14] == y[14] && x[15] == y[15] && x[16] == y[16];
    TextNumberInjective(e.body.requestId, f.body.requestId);
    TextNumberInjective(e.body.decision.modelVersion, f.body.decision.modelVersion);
    assert x[6..8] == NumberCode(e.body.decision.score) && y[6..8] == NumberCode(f.body.decision.score);
    assert x[8..10] == NumberCode(e.body.decision.threshold) && y[8..10] == NumberCode(f.body.decision.threshold);
    assert x[10..12] == NumberCode(e.body.latencyMs) && y[10..12] == NumberCode(f.body.latencyMs);
    NumberCodeInjective(e.body.decision.score, f.body.decision.score);
    NumberCodeInjective(e.body.decision.threshold, f.body.decision.threshold);
    NumberCodeInjective(e.body.latencyMs, f.body.latencyMs);
  }

  function EncodeEvent(e: Event): Bytes { "{" + Strokes(ListNumber(EventCode(e))) }

  function EncodeAnchor(a: Anchor): Bytes { "{" + Strokes(PairNumber(a.eventCount, a.head)) }

  lemma EncodeEventInjective(e: Event, f: Event)
    requires EncodeEvent(e) == EncodeEvent(f)
    ensures e == f
  {
    assert |EncodeEvent(e)| == 1 + ListNumber(EventCode(e)) && |EncodeEvent(f)| == 1 + ListNumber(EventCode(f));
    ListNumberInjective(EventCode(e), EventCode(f));
    EventCodeInjective(e, f);
  }

  lemma EncodeAnchorInjective(a: Anchor, b: Anchor)
    requires EncodeAnchor(a) == EncodeAnchor(b)
    ensures a == b
  {
    assert |EncodeAnchor(a)| == 1 + PairNumber(a.eventCount, a.head) && |EncodeAnchor(b)| == 1 + PairNumber(b.eventCount, b.head);
    PairNumberInjective(a.eventCount, a.head, b.eventCount, b.head);
  }

  ghost function DecodeEvent(b: Bytes): Option<Event>
  {
    if exists e :: EncodeEvent(e) == b then
      var e :| EncodeEvent(e) == b;
      Some(e)
    else None
  }

  ghost function DecodeAnchor(b: Bytes): Option<Anchor>
  {
    if exists a :: EncodeAnchor(a) == b then
      var a :| EncodeAnchor(a) == b;
      Some(a)
    else None
  }

  lemma CodecExists() returns (c: Codec)
    ensures CodecOk(c)
  {
    c := Codec(EncodeEvent, DecodeEvent, EncodeAnchor, DecodeAnchor, _ => 0, _ => 0, x => x);
    forall e ensures c.decode(c.encode(e)) == Some(e) && !HasBreak(c.encode(e)) {
      forall f | EncodeEvent(f) == EncodeEvent(e) ensures f == e { EncodeEventInjective(f, e); }
    }
    forall a ensures c.decodeAnchor(c.encodeAnchor(a)) == Some(a) && !HasBreak(c.encodeAnchor(a)) {
      forall b | EncodeAnchor(b) == EncodeAnchor(a) ensures b == a { EncodeAnchorInjective(b, a); }
    }
  }

  /** And a request that can be appended. */
  lemma AcceptableRequestExists() returns (q: Request)
    ensures Acceptable(q)
  {
    q := Request("r1", 1, 0, [Decision(0, ONE, HumanReview, "model", 2)]);
    assert |q.decisions| == 1;
  }
}

/** The PostgreSQL audit chain: event construction and the full-chain verifier
    (api/postgres_audit.py), over the three tables the migrations create. */
module PostgresAudit {
  import opened Wrappers
  import opened HashChain

  const PRIMARY: string := "primary"

  type Key = Digest
  type Chain = string

  datatype Decision = HumanReview | BelowReviewThreshold

  /** The bounded, score-free body: its decision and the provenance fields. */
  datatype Response = Response(decision: Decision, provenance: string)

  /** SHA-256 over the canonical bytes of a response and of an event document.
      Both are arbitrary functions. */
  datatype Hashing = Hashing(response: Response -> Digest, event: EventDocument -> Digest)

  /** The hashed columns of one row of audit_events. */
  datatype EventDocument = EventDocument(
    eventId: nat, chain: Chain, sequence: int, previousHash: Digest,
    key: Key, requestDigest: Digest, decision: Decision,
    response: Response, responseHash: Digest, occurredAt: nat)

  datatype EventRow = EventRow(doc: EventDocument, eventHash: Digest)

  /** The three states of a row; only a completed row holds a response, its hash and
      a receipt (the CHECK constraints of both migrations). */
  datatype RowState = Reserved | Failed | Completed(document: Response, responseHash: Digest, receipt: Digest)

  datatype Row = Row(requestDigest: Digest, expiresAt: nat, state: RowState)

  datatype ChainHead = ChainHead(lastSequence: int, lastHash: Digest)

  /** The tables; `events` lists audit_events in the order of `sequence`. */
  datatype Database = Database(rows: map<Key, Row>, heads: map<Chain, ChainHead>, events: seq<EventRow>)

  datatype IntegrityError =
    | BadSequence | BadLink | BadDecision | BadResponseHash | BadEventHash
    | HeadMissing | BoundaryNotSingular | NotContiguous
    | HeadCountMismatch | HeadHashMismatch | Inconsistent

  datatype Verification = Verification(chain: Chain, eventCount: nat, lastSequence: nat, lastHash: Digest)

  function StoredHash(e: EventRow): Digest { e.eventHash }

  function StoredLink(e: EventRow): Digest { e.doc.previousHash }

  // ----- Construction -----

  function BuildAuditEvent(h: Hashing, eventId: nat, chain: Chain, sequence: int, previousHash: Digest,
                           key: Key, requestDigest: Digest, response: Response, occurredAt: nat): (r: Result<EventRow, IntegrityError>)
  {
    if sequence < 1 then Err(BadSequence)
    else
      var doc := EventDocument(eventId, chain, sequence, previousHash, key, requestDigest,
                               response.decision, response, h.response(response), occurredAt);
      Ok(EventRow(doc, h.event(doc)))
  }

  /** Rebuild the event from its stored columns and compare, in the source's order. */
  function ValidateEventRow(h: Hashing, row: EventRow, expectedPrevious: Digest): (r: Result<Digest, IntegrityError>)
    ensures r.Ok? <==> row.doc.sequence >= 1 && SelfConsistent(h, row) && row.doc.previousHash == expectedPrevious
    ensures r.Ok? ==> r.value == row.eventHash
  {
    var d := row.doc;
    match BuildAuditEvent(h, d.eventId, d.chain, d.sequence, d.previousHash, d.key, d.requestDigest, d.response, d.occurredAt)
    case Err(e) => Err(e)
    case Ok(event) =>
      if event.doc.previousHash != expectedPrevious then Err(BadLink)
      else if event.doc.decision != d.decision then Err(BadDecision)
      else if event.doc.responseHash != d.responseHash then Err(BadResponseHash)
      else if event.eventHash != row.eventHash then Err(BadEventHash)
      else Ok(event.eventHash)
  }

  // ----- What a sound chain is -----

  /** The derived columns of a row are those its content determines. */
  ghost predicate SelfConsistent(h: Hashing, row: EventRow)
  {
    && row.doc.decision == row.doc.response.decision
    && row.doc.responseHash == h.response(row.doc.response)
    && row.eventHash == h.event(row.doc)
  }

  /** Sequences 1..n without gaps, every row self-consistent, every link right. */
  ghost predicate ChainIntact(h: Hashing, events: seq<EventRow>)
  {
    && (forall i :: 0 <= i < |events| ==> events[i].doc.sequence == i + 1 && SelfConsistent(h, events[i]))
    && Linked(StoredHash, StoredLink, events)
  }

  /** The completed row `row` and the event `e` describe the same completion. */
  predicate Agrees(row: Row, e: EventRow)
  {
    && row.state.Completed?
    && row.state.receipt == e.eventHash
    && row.requestDigest == e.doc.requestDigest
    && row.state.responseHash == e.doc.responseHash
    && row.state.document == e.doc.response
  }

  predicate HasEvent(events: seq<EventRow>, k: Key, receipt: Digest)
  {
    exists i :: 0 <= i < |events| && events[i].doc.key == k && events[i].eventHash == receipt
  }

  /** No line of the FULL JOIN of rows and events is inconsistent. */
  ghost predicate RowsMatchEvents(db: Database)
  {
    && (forall i :: 0 <= i < |db.events| ==>
          && db.events[i].doc.key in db.rows
          && Agrees(db.rows[db.events[i].doc.key], db.events[i]))
    && (forall k :: k in db.rows && db.rows[k].state.Completed? ==>
          HasEvent(db.events, k, db.rows[k].state.receipt))
  }

  /** WHERE chain_id = 'primary' ORDER BY sequence. */
  function PrimaryEvents(events: seq<EventRow>): (r: seq<EventRow>)
    ensures |r| <= |events|
    ensures |r| == |events| <==> forall i :: 0 <= i < |events| ==> events[i].doc.chain == PRIMARY
    ensures |r| == |events| ==> r == events
  {
    if |events| == 0 then []
    else
      var last := events[|events| - 1];
      var r := PrimaryEvents(events[..|events| - 1]);
      if last.doc.chain == PRIMARY then
        assert events == events[..|events| - 1] + [last];
        r + [last]
      else r
  }

  /** What the verifier must accept when its four statements read the tables as they
      were in d1 (head), d2 (boundary), d3 (events) and d4 (join): each statement of
      the connection has a snapshot of its own. */
  ghost predicate Sound(h: Hashing, d1: Database, d2: Database, d3: Database, d4: Database)
  {
    var events := PrimaryEvents(d3.events);
    && PRIMARY in d1.heads
    && |d2.heads| == 1
    && |PrimaryEvents(d2.events)| == |d2.events|
    && ChainIntact(h, events)
    && d1.heads[PRIMARY] == ChainHead(|events|, Head(StoredHash, events))
    && RowsMatchEvents(d4)
  }

  // ----- The verifier -----

  /** Events the FULL JOIN pairs with no agreeing completed row. */
  function OrphanEvents(db: Database): set<nat>
  {
    set i: nat | i < |db.events| &&
                 !(db.events[i].doc.key in db.rows && Agrees(db.rows[db.events[i].doc.key], db.events[i]))
  }

  /** Completed rows the FULL JOIN pairs with no event. */
  function OrphanRows(db: Database): set<Key>
  {
    set k | k in db.rows && db.rows[k].state.Completed? && !HasEvent(db.events, k, db.rows[k].state.receipt)
  }

  /** The number of lines the consistency query selects is zero exactly when rows and
      events match one to one. */
  lemma InconsistentCountZero(db: Database)
    ensures |OrphanEvents(db)| + |OrphanRows(db)| == 0 <==> RowsMatchEvents(db)
  {
    if |OrphanEvents(db)| + |OrphanRows(db)| == 0 {
      forall i | 0 <= i < |db.events|
        ensures db.events[i].doc.key in db.rows && Agrees(db.rows[db.events[i].doc.key], db.events[i])
      {
        assert i !in OrphanEvents(db);
      }
      forall k | k in db.rows && db.rows[k].state.Completed?
        ensures HasEvent(db.events, k, db.rows[k].state.receipt)
      {
        assert k !in OrphanRows(db);
      }
    }
    if RowsMatchEvents(db) {
      assert OrphanEvents(db) == {} && OrphanRows(db) == {};
    }
  }

  lemma IntactGrows(h: Hashing, rows: seq<EventRow>, i: nat)
    requires i < |rows| && ChainIntact(h, rows[..i]) && rows[i].doc.sequence == i + 1
    requires SelfConsistent(h, rows[i]) && rows[i].doc.previousHash == Head(StoredHash, rows[..i])
    ensures ChainIntact(h, rows[..i + 1]) && Head(StoredHash, rows[..i + 1]) == rows[i].eventHash
  {
    LinkedAppend(StoredHash, StoredLink, rows[..i], rows[i]);
    assert rows[..i + 1] == rows[..i] + [rows[i]];
  }

  /** The intentionally linear startup verifier accepts exactly the sound chains and
      reports their count and head. */
  method VerifyAuditChain(h: Hashing, d1: Database, d2: Database, d3: Database, d4: Database)
    returns (r: Result<Verification, IntegrityError>)
    ensures r.Ok? <==> Sound(h, d1, d2, d3, d4)
    ensures r.Ok? ==> r.value == Verification(PRIMARY, |PrimaryEvents(d3.events)|, |PrimaryEvents(d3.events)|,
                                              Head(StoredHash, PrimaryEvents(d3.events)))
  {
    if PRIMARY !in d1.heads {
      return Err(HeadMissing);
    }
    var head := d1.heads[PRIMARY];
    if |d2.heads| != 1 || |d2.events| - |PrimaryEvents(d2.events)| != 0 {
      return Err(BoundaryNotSingular);
    }
    var rows := PrimaryEvents(d3.events);
    var expectedPrevious := GENESIS;
    for i := 0 to |rows|
      invariant ChainIntact(h, rows[..i])
      invariant expectedPrevious == Head(StoredHash, rows[..i])
    {
      if rows[i].doc.sequence != i + 1 {
        NotIntact(h, rows, i);
        return Err(NotContiguous);
      }
      match ValidateEventRow(h, rows[i], expectedPrevious) {
        case Err(e) =>
          NotIntact(h, rows, i);
          return Err(e);
        case Ok(hash) =>
          IntactGrows(h, rows, i);
          expectedPrevious := hash;
      }
    }
    assert rows[..|rows|] == rows;
    if head.lastSequence != |rows| {
      return Err(HeadCountMismatch);
    }
    if head.lastHash != expectedPrevious {
      return Err(HeadHashMismatch);
    }
    InconsistentCountZero(d4);
    if |OrphanEvents(d4)| + |OrphanRows(d4)| != 0 {
      return Err(Inconsistent);
    }
    r := Ok(Verification(PRIMARY, |rows|, |rows|, expectedPrevious));
  }

  lemma NotIntact(h: Hashing, rows: seq<EventRow>, i: nat)
    requires i < |rows|
    requires rows[i].doc.sequence != i + 1 || !SelfConsistent(h, rows[i])
             || rows[i].doc.previousHash != Head(StoredHash, rows[..i])
    ensures !ChainIntact(h, rows)
  {
    assert Linked(StoredHash, StoredLink, rows) ==> StoredLink(rows[i]) == Head(StoredHash, rows[..i]);
  }

  // ----- Tamper evidence -----

  /** Two tables that both verify against one head hold the same events, or a pair of
      different event documents with one hash is exhibited. */
  lemma SameHeadSameEvents(h: Hashing, a: seq<EventRow>, b: seq<EventRow>)
    requires ChainIntact(h, a) && ChainIntact(h, b)
    requires |a| == |b| && Head(StoredHash, a) == Head(StoredHash, b)
    ensures a == b || exists i :: 0 <= i < |a| && a[i].doc != b[i].doc && h.event(a[i].doc) == h.event(b[i].doc)
  {
    SameAnchorSameEntries(StoredHash, StoredLink, a, b);
    if a != b {
      var i :| 0 <= i < |a| && Collides(StoredHash, a[i], b[i]);
      assert a[i].doc != b[i].doc && h.event(a[i].doc) == h.event(b[i].doc);
    }
  }

  /** Two different event documents with one hash. */
  ghost predicate EventsCollide(h: Hashing, a: seq<EventRow>, b: seq<EventRow>)
  {
    exists i :: 0 <= i < |a| && i < |b| && a[i].doc != b[i].doc && h.event(a[i].doc) == h.event(b[i].doc)
  }

  predicate CompletedIn(db: Database, k: Key) { k in db.rows && db.rows[k].state.Completed? }

  /** The same request, response, response hash and receipt. */
  predicate SameCompletion(r: Row, u: Row) { u.requestDigest == r.requestDigest && u.state == r.state }

  lemma RowsFollowEvents(a: Database, b: Database, k: Key)
    requires RowsMatchEvents(a) && RowsMatchEvents(b) && a.events == b.events && CompletedIn(a, k)
    ensures CompletedIn(b, k) && SameCompletion(a.rows[k], b.rows[k])
  {
    assert HasEvent(a.events, k, a.rows[k].state.receipt);
    var i :| 0 <= i < |a.events| && a.events[i].doc.key == k && a.events[i].eventHash == a.rows[k].state.receipt;
    assert Agrees(a.rows[k], a.events[i]) && Agrees(b.rows[k], b.events[i]);
  }

  /** The head pins the completed rows too: two databases that verify against one head
      have the same keys completed, with the same digest, response, response hash and
      receipt, or a collision is shown. */
  lemma SameHeadSameRows(h: Hashing, a: Database, b: Database)
    requires Sound(h, a, a, a, a) && Sound(h, b, b, b, b) && a.heads[PRIMARY] == b.heads[PRIMARY]
    ensures EventsCollide(h, a.events, b.events)
            || (a.events == b.events
                && forall k :: (CompletedIn(a, k) <==> CompletedIn(b, k)) && (CompletedIn(a, k) ==> SameCompletion(a.rows[k], b.rows[k])))
  {
    SameHeadSameEvents(h, a.events, b.events);
    if a.events == b.events {
      forall k ensures (CompletedIn(a, k) <==> CompletedIn(b, k)) && (CompletedIn(a, k) ==> SameCompletion(a.rows[k], b.rows[k])) {
        if CompletedIn(a, k) { RowsFollowEvents(a, b, k); }
        if CompletedIn(b, k) { RowsFollowEvents(b, a, k); }
      }
    } else {
      var i :| 0 <= i < |a.events| && a.events[i].doc != b.events[i].doc && h.event(a.events[i].doc) == h.event(b.events[i].doc);
      assert EventsCollide(h, a.events, b.events);
    }
  }
}

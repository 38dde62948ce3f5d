/** The hash-only quarantine of historical test rows (src/data/historical_quarantine.py). */
module Quarantine {
  import opened Float
  import opened SortedList
  import opened Wrappers

  /** A char stands for one byte. */
  type Bytes = string

  /** SHA-256 as a lowercase hex digest. */
  type Sha = Bytes -> string

  predicate IsSha256(h: string)
  {
    |h| == 64 && forall i :: 0 <= i < 64 ==> '0' <= h[i] <= '9' || 'a' <= h[i] <= 'f'
  }

  ghost predicate ShaOk(sha: Sha) { forall b :: IsSha256(sha(b)) }

  const ROW_HASH_DOMAIN := "SecureSwipe historical test quarantine row v1\0"
  const HASH_LIST_DOMAIN := "SecureSwipe historical quarantine manifest hashes v1\0"

  // ----- Rows -----

  /** Equal as numbers, of finite values. */
  predicate SameNumber(x: Float64, y: Float64) { x == y || (x in {0, SIGN} && y in {0, SIGN}) }

  /** They stand for one number. */
  lemma SameNumberIff(x: Float64, y: Float64)
    requires IsFinite(x) && IsFinite(y)
    ensures SameNumber(x, y) <==> Value(x) == Value(y)
  {
    ValueDetermines(x, y);
  }

  const FEATURES: nat := 30

  /** Time, V1 to V28, Amount; and Class. */
  datatype Row = Row(features: seq<Float64>, target: int)

  predicate ValidRow(r: Row)
  {
    && |r.features| == FEATURES && (r.target == 0 || r.target == 1)
    && (forall i :: 0 <= i < FEATURES ==> IsFinite(r.features[i]))
    && !IsNegative(r.features[0]) && !IsNegative(r.features[FEATURES - 1])
  }

  /** `validate_dataset_schema` on a frame of the right columns and dtypes. */
  predicate ValidFrame(frame: seq<Row>)
  {
    |frame| > 0 && forall i :: 0 <= i < |frame| ==> ValidRow(frame[i])
  }

  // ----- Row bytes -----

  function LittleEndian(x: nat, n: nat): (r: Bytes)
    ensures |r| == n
  {
    if n == 0 then "" else [(x % 256) as char] + LittleEndian(x / 256, n - 1)
  }

  /** What bytes are as a number, the least significant first. */
  function NumberOf(b: Bytes): nat
  {
    if |b| == 0 then 0 else b[0] as nat + 256 * NumberOf(b[1..])
  }

  lemma {:induction false} LittleEndianIs(x: nat, n: nat)
    requires Fits(x, n)
    ensures NumberOf(LittleEndian(x, n)) == x
    decreases n
  {
    if n > 0 {
      LittleEndianIs(x / 256, n - 1);
      assert LittleEndian(x, n)[1..] == LittleEndian(x / 256, n - 1);
    }
  }

  predicate Fits(x: nat, n: nat)
  {
    if n == 0 then x == 0 else Fits(x / 256, n - 1)
  }

  lemma {:induction false} LittleEndianInjective(x: nat, y: nat, n: nat)
    requires Fits(x, n) && Fits(y, n) && LittleEndian(x, n) == LittleEndian(y, n)
    ensures x == y
  {
    if n > 0 {
      var a, b := LittleEndian(x, n), LittleEndian(y, n);
      assert a[0] == b[0] && a[1..] == b[1..];
      LittleEndianInjective(x / 256, y / 256, n - 1);
    }
  }

  lemma FloatFits(x: Float64)
    ensures Fits(x, 8)
  {
    var x1 := x / 256;
    var x2 := x1 / 256;
    var x3 := x2 / 256;
    var x4 := x3 / 256;
    assert x4 < 0x1_0000_0000;
    var x5 := x4 / 256;
    var x6 := x5 / 256;
    var x7 := x6 / 256;
    assert x7 / 256 == 0;
    assert Fits(x7, 1) && Fits(x6, 2) && Fits(x5, 3) && Fits(x4, 4);
    assert Fits(x3, 5) && Fits(x2, 6) && Fits(x1, 7);
  }

  function Doubles(features: seq<Float64>): (r: Bytes)
    ensures |r| == 8 * |features|
  {
    if |features| == 0 then "" else LittleEndian(features[0], 8) + Doubles(features[1..])
  }

  lemma {:induction false} DoublesInjective(a: seq<Float64>, b: seq<Float64>)
    requires |a| == |b| && Doubles(a) == Doubles(b)
    ensures a == b
    decreases |a|
  {
    if |a| > 0 {
      assert Doubles(a)[..8] == LittleEndian(a[0], 8) && Doubles(b)[..8] == LittleEndian(b[0], 8);
      assert Doubles(a)[8..] == Doubles(a[1..]) && Doubles(b)[8..] == Doubles(b[1..]);
      FloatFits(a[0]);
      FloatFits(b[0]);
      LittleEndianInjective(a[0], b[0], 8);
      DoublesInjective(a[1..], b[1..]);
      assert a == [a[0]] + a[1..] && b == [b[0]] + b[1..];
    }
  }

  function RowBytes(r: Row): Bytes
    requires ValidRow(r)
  {
    ROW_HASH_DOMAIN + Doubles(r.features) + [r.target as char]
  }

  /** The bytes of a row are its float bits and its class, and nothing else. */
  lemma RowBytesInjective(a: Row, b: Row)
    requires ValidRow(a) && ValidRow(b)
    ensures RowBytes(a) == RowBytes(b) <==> a == b
  {
    if RowBytes(a) == RowBytes(b) {
      var n := |ROW_HASH_DOMAIN|;
      assert RowBytes(a)[n..n + 240] == Doubles(a.features) && RowBytes(b)[n..n + 240] == Doubles(b.features);
      assert RowBytes(a)[n + 240] == a.target as char && RowBytes(b)[n + 240] == b.target as char;
      DoublesInjective(a.features, b.features);
    }
  }

  datatype QuarantineError = InvalidFrame | MalformedHash | InvalidAnchor | InvalidManifest | AnchorMismatch | Overlap(count: nat)

  function RowHash(sha: Sha, r: Row): string
    requires ValidRow(r)
  {
    sha(RowBytes(r))
  }

  function RowHashes(sha: Sha, frame: seq<Row>): (r: seq<string>)
    requires ValidFrame(frame)
    ensures |r| == |frame|
  {
    seq(|frame|, i requires 0 <= i < |frame| => RowHash(sha, frame[i]))
  }

  /** `canonical_row_hashes` */
  method CanonicalRowHashes(sha: Sha, frame: seq<Row>) returns (r: Result<seq<string>, QuarantineError>)
    ensures r == if ValidFrame(frame) then Ok(RowHashes(sha, frame)) else Err(InvalidFrame)
  {
    if !ValidFrame(frame) {
      return Err(InvalidFrame);
    }
    var hashes := [];
    for i := 0 to |frame|
      invariant hashes == RowHashes(sha, frame)[..i]
    {
      var digest := ROW_HASH_DOMAIN;
      digest := digest + Doubles(frame[i].features);
      digest := digest + [frame[i].target as char];
      hashes := hashes + [sha(digest)];
    }
    assert hashes == RowHashes(sha, frame);
    r := Ok(hashes);
  }

  // ----- The multiset digest -----

  predicate AllSha256(hashes: seq<string>) { forall i :: 0 <= i < |hashes| ==> IsSha256(hashes[i]) }

  /** One line of fixed width for each hash. */
  function Records(hashes: seq<string>): Bytes
  {
    if |hashes| == 0 then "" else hashes[0] + "\n" + Records(hashes[1..])
  }

  /** What is digested. */
  function Message(hashes: seq<string>): Bytes { HASH_LIST_DOMAIN + Records(Sorted(hashes)) }

  /** The two domains keep apart what is digested for a row and for a list: no digest of a
      row is one of a list without a collision. */
  lemma DomainsApart(r: Row, hashes: seq<string>)
    requires ValidRow(r)
    ensures RowBytes(r) != Message(hashes)
  {
    assert RowBytes(r)[23] == ROW_HASH_DOMAIN[23] && Message(hashes)[23] == HASH_LIST_DOMAIN[23];
  }

  lemma {:induction false} RecordsInjective(a: seq<string>, b: seq<string>)
    requires AllSha256(a) && AllSha256(b) && Records(a) == Records(b)
    ensures a == b
    decreases |a|
  {
    if |a| > 0 {
      assert |b| > 0 && Records(a)[..64] == a[0] && Records(b)[..64] == b[0];
      assert Records(a)[65..] == Records(a[1..]) && Records(b)[65..] == Records(b[1..]);
      RecordsInjective(a[1..], b[1..]);
      assert a == [a[0]] + a[1..] && b == [b[0]] + b[1..];
    }
  }

  lemma SortedKeepsSha256(hashes: seq<string>)
    ensures AllSha256(Sorted(hashes)) <==> AllSha256(hashes)
  {
    SortedSorts(hashes);
    var ordered := Sorted(hashes);
    if AllSha256(hashes) {
      forall i | 0 <= i < |ordered| ensures IsSha256(ordered[i]) { assert ordered[i] in multiset(hashes); }
    } else {
      var i :| 0 <= i < |hashes| && !IsSha256(hashes[i]);
      assert hashes[i] in multiset(ordered);
    }
  }

  /** Two lists of hashes give one message if and only if they are equal as multisets. */
  lemma MessageIffMultiset(a: seq<string>, b: seq<string>)
    requires AllSha256(a) && AllSha256(b)
    ensures Message(a) == Message(b) <==> multiset(a) == multiset(b)
  {
    SortedSorts(a);
    SortedSorts(b);
    SortedKeepsSha256(a);
    SortedKeepsSha256(b);
    if Message(a) == Message(b) {
      var n := |HASH_LIST_DOMAIN|;
      assert Message(a)[n..] == Records(Sorted(a)) && Message(b)[n..] == Records(Sorted(b));
      RecordsInjective(Sorted(a), Sorted(b));
    }
    if multiset(a) == multiset(b) {
      OrderedUnique(Sorted(a), Sorted(b));
    }
  }

  function Checksum(sha: Sha, hashes: seq<string>): string { sha(Message(hashes)) }

  /** `row_hashes_checksum` */
  method RowHashesChecksum(sha: Sha, hashes: seq<string>) returns (r: Result<string, QuarantineError>)
    ensures r == if AllSha256(hashes) then Ok(Checksum(sha, hashes)) else Err(MalformedHash)
  {
    var ordered := Sorted(hashes);
    SortedKeepsSha256(hashes);
    if exists i :: 0 <= i < |ordered| && !IsSha256(ordered[i]) {
      return Err(MalformedHash);
    }
    var digest := HASH_LIST_DOMAIN;
    for i := 0 to |ordered|
      invariant digest + Records(ordered[i..]) == Message(hashes)
    {
      assert ordered[i..] == [ordered[i]] + ordered[i + 1..];
      digest := digest + ordered[i];
      digest := digest + "\n";
    }
    assert digest + "" == digest;
    r := Ok(sha(digest));
  }

  /** Equal checksums mean equal multisets, or a collision of the two messages. */
  lemma ChecksumIffMultiset(sha: Sha, a: seq<string>, b: seq<string>)
    requires AllSha256(a) && AllSha256(b)
    ensures multiset(a) == multiset(b) ==> Checksum(sha, a) == Checksum(sha, b)
    ensures Checksum(sha, a) == Checksum(sha, b) ==>
              multiset(a) == multiset(b) || (Message(a) != Message(b) && sha(Message(a)) == sha(Message(b)))
  {
    MessageIffMultiset(a, b);
  }

  // ----- The manifest -----

  /** The counted and hashed part of a manifest. */
  datatype Manifest = Manifest(rowHashes: seq<string>, checksum: string, total: int, fraud: int, unique: int, duplicate: int)

  function Elements(hashes: seq<string>): set<string> { set i | 0 <= i < |hashes| :: hashes[i] }

  /** `_validate_manifest_payload` */
  predicate ValidManifest(sha: Sha, m: Manifest)
  {
    && AllSha256(m.rowHashes) && m.rowHashes == Sorted(m.rowHashes)
    && m.total == |m.rowHashes| && 0 <= m.fraud <= m.total
    && m.unique == |Elements(m.rowHashes)| && m.duplicate == |m.rowHashes| - m.unique
    && m.checksum == Checksum(sha, m.rowHashes)
  }

  const HISTORICAL_TEST_ROWS: int := 42722

  const HISTORICAL_TEST_FRAUD: int := 74

  /** The tracked counts and checksum, and whether they are approved. */
  datatype Anchor = Anchor(approved: bool, checksum: string, total: int, fraud: int, unique: int, duplicate: int)

  /** `load_historical_quarantine_anchor` */
  predicate ValidAnchor(a: Anchor)
  {
    && a.approved && IsSha256(a.checksum)
    && a.total > 0 && 0 <= a.fraud <= a.total
    && 0 < a.unique <= a.total && a.duplicate == a.total - a.unique
    && a.total == HISTORICAL_TEST_ROWS && a.fraud == HISTORICAL_TEST_FRAUD
  }

  predicate Matches(m: Manifest, a: Anchor)
  {
    m.checksum == a.checksum && m.total == a.total && m.fraud == a.fraud && m.unique == a.unique && m.duplicate == a.duplicate
  }

  function FraudCount(frame: seq<Row>): (n: nat)
    ensures n <= |frame|
  {
    if |frame| == 0 then 0 else (if frame[0].target == 1 then 1 else 0) + FraudCount(frame[1..])
  }

  /** The manifest of locked rows, and the anchor approved for them. */
  function ManifestOf(sha: Sha, locked: seq<Row>): Manifest
    requires ValidFrame(locked)
  {
    var hashes := Sorted(RowHashes(sha, locked));
    var unique := |Elements(hashes)|;
    Manifest(hashes, Checksum(sha, hashes), |hashes|, FraudCount(locked), unique, |hashes| - unique)
  }

  /** An approved anchor with the counts and the checksum of this manifest. */
  function AnchorOf(m: Manifest): Anchor { Anchor(true, m.checksum, m.total, m.fraud, m.unique, m.duplicate) }

  /** Sorting twice is sorting once. */
  lemma SortedTwice(hashes: seq<string>)
    ensures Sorted(Sorted(hashes)) == Sorted(hashes)
  {
    SortedSorts(hashes);
    SortedSorts(Sorted(hashes));
    OrderedUnique(Sorted(Sorted(hashes)), Sorted(hashes));
  }

  lemma HashesAreSha256(sha: Sha, frame: seq<Row>)
    requires ShaOk(sha) && ValidFrame(frame)
    ensures AllSha256(RowHashes(sha, frame))
  {
  }

  lemma {:induction false} ElementsSize(hashes: seq<string>)
    ensures |Elements(hashes)| <= |hashes| && (|hashes| > 0 ==> |Elements(hashes)| > 0)
    decreases |hashes|
  {
    if |hashes| > 0 {
      var n := |hashes| - 1;
      ElementsSize(hashes[..n]);
      assert Elements(hashes) == Elements(hashes[..n]) + {hashes[n]};
      assert hashes[n] in Elements(hashes);
    }
  }

  /** The manifest built from locked rows is always valid.  With an approved anchor of its
      counts and checksum it can be loaded if and only if the rows are as many, and as many
      of them fraud, as the code predeclares. */
  lemma PublishedManifestLoads(sha: Sha, locked: seq<Row>)
    requires ShaOk(sha) && ValidFrame(locked)
    ensures ValidManifest(sha, ManifestOf(sha, locked))
    ensures ValidAnchor(AnchorOf(ManifestOf(sha, locked))) <==>
            |locked| == HISTORICAL_TEST_ROWS && FraudCount(locked) == HISTORICAL_TEST_FRAUD
  {
    var hashes := RowHashes(sha, locked);
    HashesAreSha256(sha, locked);
    SortedKeepsSha256(hashes);
    SortedTwice(hashes);
    SortedSorts(hashes);
    assert |multiset(Sorted(hashes))| == |hashes|;
    ElementsSize(Sorted(hashes));
  }

  /** Every valid manifest that matches the anchor of the locked rows is theirs, or two different messages with one digest are exhibited. */
  lemma AnchorPinsManifest(sha: Sha, locked: seq<Row>, m: Manifest)
    requires ShaOk(sha) && ValidFrame(locked)
    requires ValidManifest(sha, m) && Matches(m, AnchorOf(ManifestOf(sha, locked)))
    ensures m == ManifestOf(sha, locked)
            || (Message(m.rowHashes) != Message(RowHashes(sha, locked)) && sha(Message(m.rowHashes)) == sha(Message(RowHashes(sha, locked))))
  {
    var hashes := RowHashes(sha, locked);
    HashesAreSha256(sha, locked);
    SortedTwice(hashes);
    MessageIffMultiset(m.rowHashes, hashes);
    if multiset(m.rowHashes) == multiset(hashes) {
      SortedSorts(m.rowHashes);
      SortedSorts(hashes);
      OrderedUnique(m.rowHashes, Sorted(hashes));
    }
  }

  // ----- The overlap test -----

  lemma CommonIff(a: seq<string>, b: seq<string>)
    ensures |Elements(a) * Elements(b)| == 0 <==> forall i :: 0 <= i < |a| ==> a[i] !in b
  {
    if i :| 0 <= i < |a| && a[i] in b {
      assert a[i] in Elements(a) * Elements(b);
    }
    if h :| h in Elements(a) * Elements(b) {
      assert exists i :: 0 <= i < |a| && a[i] == h && a[i] in b;
    }
  }

  /** No candidate hash is quarantined. */
  predicate Disjoint(sha: Sha, frame: seq<Row>, m: Manifest)
    requires ValidFrame(frame)
  {
    forall i :: 0 <= i < |frame| ==> RowHashes(sha, frame)[i] !in m.rowHashes
  }

  /** `require_no_historical_test_overlap` */
  method RequireNoHistoricalTestOverlap(sha: Sha, frame: seq<Row>, m: Manifest, anchor: Anchor) returns (r: Result<Manifest, QuarantineError>)
    ensures r.Ok? <==> ValidAnchor(anchor) && ValidManifest(sha, m) && Matches(m, anchor) && ValidFrame(frame) && Disjoint(sha, frame, m)
    ensures r.Ok? ==> r.value == m
    ensures !ValidAnchor(anchor) ==> r == Err(InvalidAnchor)
    ensures r.Err? && ValidAnchor(anchor) && ValidManifest(sha, m) && Matches(m, anchor) && ValidFrame(frame) ==>
              r.error == Overlap(|Elements(RowHashes(sha, frame)) * Elements(m.rowHashes)|)
  {
    if !ValidAnchor(anchor) {
      return Err(InvalidAnchor);
    }
    if !ValidManifest(sha, m) {
      return Err(InvalidManifest);
    }
    if !Matches(m, anchor) {
      return Err(AnchorMismatch);
    }
    var candidates := CanonicalRowHashes(sha, frame);
    if candidates.Err? {
      return Err(candidates.error);
    }
    var common := Elements(candidates.value) * Elements(m.rowHashes);
    CommonIff(candidates.value, m.rowHashes);
    if |common| > 0 {
      return Err(Overlap(|common|));
    }
    r := Ok(m);
  }

  /** No two different rows of these frames share a hash. */
  ghost predicate Separates(sha: Sha, frame: seq<Row>, locked: seq<Row>)
    requires ValidFrame(frame) && ValidFrame(locked)
  {
    forall i, j :: 0 <= i < |frame| && 0 <= j < |locked| && RowHashes(sha, frame)[i] == RowHashes(sha, locked)[j] ==>
      RowBytes(frame[i]) == RowBytes(locked[j])
  }

  /** Against the manifest of the locked rows a frame is accepted if and only if none of
      its rows has the float bits and the class of a locked row. */
  lemma AcceptedIffNoCommonRow(sha: Sha, frame: seq<Row>, locked: seq<Row>)
    requires ValidFrame(frame) && ValidFrame(locked) && Separates(sha, frame, locked)
    ensures Disjoint(sha, frame, ManifestOf(sha, locked)) <==> forall i, j :: 0 <= i < |frame| && 0 <= j < |locked| ==> frame[i] != locked[j]
  {
    var hashes := RowHashes(sha, locked);
    SortedSorts(hashes);
    forall i | 0 <= i < |frame|
      ensures RowHashes(sha, frame)[i] in Sorted(hashes) <==> exists j :: 0 <= j < |locked| && frame[i] == locked[j]
    {
      var h := RowHashes(sha, frame)[i];
      assert h in Sorted(hashes) <==> h in multiset(hashes);
      if j :| 0 <= j < |locked| && hashes[j] == h { RowBytesInjective(frame[i], locked[j]); }
      if j :| 0 <= j < |locked| && frame[i] == locked[j] { assert hashes[j] == h; }
    }
  }

  /** The same values in every column. */
  predicate SameNumbers(a: Row, b: Row)
    requires |a.features| == |b.features|
  {
    a.target == b.target && forall i :: 0 <= i < |a.features| ==> SameNumber(a.features[i], b.features[i])
  }

  /** No zero of the first row has another sign in the second. */
  predicate KeepsSigns(a: Row, b: Row)
    requires |a.features| == |b.features|
  {
    forall i :: 0 <= i < |a.features| && a.features[i] in {0, SIGN} ==> b.features[i] == a.features[i]
  }

  lemma EqualIffSameSigns(a: Row, b: Row)
    requires |a.features| == |b.features|
    ensures a == b <==> SameNumbers(a, b) && KeepsSigns(a, b)
  {
    assert a == b <==> a.features == b.features && a.target == b.target;
  }

  predicate Repeats(frame: seq<Row>, i: nat, locked: seq<Row>, j: nat)
    requires ValidFrame(frame) && ValidFrame(locked) && i < |frame| && j < |locked|
  {
    SameNumbers(locked[j], frame[i]) && KeepsSigns(locked[j], frame[i])
  }

  /** A frame with the values of locked rows is noticed if and only if one of its rows has
      the values of some locked row without a zero of another sign. */
  lemma SameNumbersNoticedIff(sha: Sha, frame: seq<Row>, locked: seq<Row>)
    requires ValidFrame(frame) && ValidFrame(locked) && Separates(sha, frame, locked)
    ensures !Disjoint(sha, frame, ManifestOf(sha, locked)) <==>
            exists i, j :: 0 <= i < |frame| && 0 <= j < |locked| && Repeats(frame, i, locked, j)
  {
    AcceptedIffNoCommonRow(sha, frame, locked);
    forall i, j | 0 <= i < |frame| && 0 <= j < |locked| ensures frame[i] == locked[j] <==> Repeats(frame, i, locked, j) {
      EqualIffSameSigns(locked[j], frame[i]);
    }
  }

  /** All values zero; the time with or without a sign. */
  function ZeroRow(time: Float64, target: int): (r: Row)
    ensures |r.features| == FEATURES && r.features[0] == time && r.target == target
    ensures forall i :: 0 < i < FEATURES ==> r.features[i] == 0
    ensures time in {0, SIGN} && target in {0, 1} ==> ValidRow(r)
  {
    Row([time] + seq(FEATURES - 1, i => 0 as Float64), target)
  }

  lemma ZerosAreSameNumber(target: int)
    ensures SameNumbers(ZeroRow(0, target), ZeroRow(SIGN, target))
  {
    forall i | 0 <= i < FEATURES ensures SameNumber(ZeroRow(0, target).features[i], ZeroRow(SIGN, target).features[i]) {
      assert i > 0 ==> ZeroRow(0, target).features[i] == 0 == ZeroRow(SIGN, target).features[i];
    }
  }

  function Copies(row: Row, n: nat): (r: seq<Row>)
    ensures |r| == n && forall i :: 0 <= i < n ==> r[i] == row
  {
    seq(n, i => row)
  }

  lemma {:induction false} FraudOfCopies(row: Row, n: nat, rest: seq<Row>)
    ensures FraudCount(Copies(row, n) + rest) == (if row.target == 1 then n else 0) + FraudCount(rest)
    decreases n
  {
    if n == 0 {
      assert Copies(row, 0) + rest == rest;
    } else {
      assert (Copies(row, n) + rest)[1..] == Copies(row, n - 1) + rest;
      FraudOfCopies(row, n - 1, rest);
    }
  }

  /** As many rows, and as many of them fraud, as the code predeclares. */
  function ZeroRows(): seq<Row>
  {
    Copies(ZeroRow(0, 1), HISTORICAL_TEST_FRAUD) + Copies(ZeroRow(0, 0), HISTORICAL_TEST_ROWS - HISTORICAL_TEST_FRAUD)
  }

  lemma ZeroRowsAreLocked(sha: Sha)
    requires ShaOk(sha)
    ensures ValidFrame(ZeroRows()) && ValidAnchor(AnchorOf(ManifestOf(sha, ZeroRows())))
  {
    var legitimate := Copies(ZeroRow(0, 0), HISTORICAL_TEST_ROWS - HISTORICAL_TEST_FRAUD);
    FraudOfCopies(ZeroRow(0, 1), HISTORICAL_TEST_FRAUD, legitimate);
    FraudOfCopies(ZeroRow(0, 0), |legitimate|, []);
    assert legitimate + [] == legitimate;
    ZeroRowsAreValid();
    PublishedManifestLoads(sha, ZeroRows());
  }

  lemma ZeroRowsAreValid()
    ensures |ZeroRows()| == HISTORICAL_TEST_ROWS && ValidFrame(ZeroRows())
    ensures forall j :: 0 <= j < |ZeroRows()| ==> ZeroRows()[j] == ZeroRow(0, if j < HISTORICAL_TEST_FRAUD then 1 else 0)
  {
  }

  /** The values of these two rows are equal, their bytes are not. */
  lemma ZeroCanChangeSign()
    ensures ValidRow(ZeroRow(0, 0)) && ValidRow(ZeroRow(SIGN, 0)) && SameNumbers(ZeroRow(0, 0), ZeroRow(SIGN, 0))
    ensures RowBytes(ZeroRow(0, 0)) != RowBytes(ZeroRow(SIGN, 0))
  {
    ZerosAreSameNumber(0);
    RowBytesInjective(ZeroRow(0, 0), ZeroRow(SIGN, 0));
  }

  lemma NotInManifest(sha: Sha, locked: seq<Row>, h: string)
    requires ValidFrame(locked) && forall j :: 0 <= j < |locked| ==> RowHashes(sha, locked)[j] != h
    ensures h !in ManifestOf(sha, locked).rowHashes
  {
    var hashes := RowHashes(sha, locked);
    SortedSorts(hashes);
    assert h in Sorted(hashes) <==> h in multiset(hashes);
  }

  lemma ZeroRowsMissSign(sha: Sha)
    requires ValidFrame(ZeroRows())
    requires RowHash(sha, ZeroRow(SIGN, 0)) != RowHash(sha, ZeroRow(0, 0)) && RowHash(sha, ZeroRow(SIGN, 0)) != RowHash(sha, ZeroRow(0, 1))
    ensures RowHash(sha, ZeroRow(SIGN, 0)) !in ManifestOf(sha, ZeroRows()).rowHashes
  {
    ZeroRowsAreValid();
    forall j | 0 <= j < |ZeroRows()| ensures RowHashes(sha, ZeroRows())[j] != RowHash(sha, ZeroRow(SIGN, 0)) {
      assert RowHashes(sha, ZeroRows())[j] == RowHash(sha, ZeroRows()[j]);
    }
    NotInManifest(sha, ZeroRows(), RowHash(sha, ZeroRow(SIGN, 0)));
  }

  /** The input that fails: under a valid anchor and manifest, a frame whose one row has
      all the values of a locked row, its time as minus zero, is accepted, as long as its
      hash is not by chance that of one of the two rows that are locked. */
  lemma SignedZeroIsAccepted(sha: Sha) returns (locked: seq<Row>, frame: seq<Row>)
    requires ShaOk(sha)
    requires RowHash(sha, ZeroRow(SIGN, 0)) != RowHash(sha, ZeroRow(0, 0)) && RowHash(sha, ZeroRow(SIGN, 0)) != RowHash(sha, ZeroRow(0, 1))
    ensures ValidFrame(locked) && ValidAnchor(AnchorOf(ManifestOf(sha, locked))) && ValidFrame(frame)
    ensures exists j :: 0 <= j < |locked| && SameNumbers(locked[j], frame[0])
    ensures Disjoint(sha, frame, ManifestOf(sha, locked))
  {
    locked, frame := ZeroRows(), [ZeroRow(SIGN, 0)];
    ZeroRowsAreLocked(sha);
    ZeroRowsAreValid();
    ZerosAreSameNumber(0);
    assert SameNumbers(locked[HISTORICAL_TEST_FRAUD], frame[0]);
    ZeroRowsMissSign(sha);
    assert RowHashes(sha, frame)[0] == RowHash(sha, frame[0]);
  }

  // ----- Everything together -----

  /** For every valid manifest that matches the anchor of the locked rows a frame is
      accepted if and only if none of its rows is bit for bit a locked one with its class;
      or the manifest's message collides with theirs. */
  lemma AnchoredOverlapIsExact(sha: Sha, frame: seq<Row>, locked: seq<Row>, m: Manifest)
    requires ShaOk(sha) && ValidFrame(frame) && ValidFrame(locked) && Separates(sha, frame, locked)
    requires ValidManifest(sha, m) && Matches(m, AnchorOf(ManifestOf(sha, locked)))
    ensures (Disjoint(sha, frame, m) <==> forall i, j :: 0 <= i < |frame| && 0 <= j < |locked| ==> frame[i] != locked[j])
            || (Message(m.rowHashes) != Message(RowHashes(sha, locked)) && sha(Message(m.rowHashes)) == sha(Message(RowHashes(sha, locked))))
  {
    AnchorPinsManifest(sha, locked, m);
    AcceptedIffNoCommonRow(sha, frame, locked);
    if m.rowHashes == ManifestOf(sha, locked).rowHashes {
      assert Disjoint(sha, frame, m) <==> Disjoint(sha, frame, ManifestOf(sha, locked));
    }
  }
}

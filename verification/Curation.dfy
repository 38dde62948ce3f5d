/** Removal of exact duplicate transactions (src/data/curation.py). */
module Curation {
  import opened Wrappers

  const FEATURES: nat := 30

  /** Finite feature values; `target` is the Class column. */
  type Vector = seq<real>

  datatype Row = Row(features: Vector, target: int)

  type Frame = seq<Row>

  datatype Summary = Summary(rawRows: nat, curatedRows: nat, removedRows: nat, duplicateGroups: nat,
                             removedLegitimate: nat, removedFraud: nat)

  datatype CurationError = InvalidFrame | Conflicting(groups: nat) | StillDuplicated

  predicate ValidRow(r: Row)
  {
    && |r.features| == FEATURES && (r.target == 0 || r.target == 1)
    && r.features[0] >= 0.0 && r.features[FEATURES - 1] >= 0.0
  }

  /** `validate_dataset_schema` on a frame of the right columns without missing values. */
  predicate ValidFrame(frame: Frame)
  {
    |frame| > 0 && forall i :: 0 <= i < |frame| ==> ValidRow(frame[i])
  }

  /** frame.duplicated(keep="first") */
  predicate SeenBefore(frame: Frame, i: nat)
    requires i < |frame|
  {
    exists j :: 0 <= j < i && frame[j].features == frame[i].features
  }

  /** frame.duplicated(keep=False) */
  predicate SeenElsewhere(frame: Frame, i: nat)
    requires i < |frame|
  {
    exists j :: 0 <= j < |frame| && j != i && frame[j].features == frame[i].features
  }

  /** The feature vectors of the duplicated rows. */
  function DuplicateGroups(frame: Frame): set<Vector>
  {
    set i | 0 <= i < |frame| && SeenElsewhere(frame, i) :: frame[i].features
  }

  /** Those whose rows have more than one class. */
  function ConflictingGroups(frame: Frame): set<Vector>
  {
    set i | 0 <= i < |frame| && SeenElsewhere(frame, i) && HasOtherClass(frame, i) :: frame[i].features
  }

  predicate HasOtherClass(frame: Frame, i: nat)
    requires i < |frame|
  {
    exists j :: 0 <= j < |frame| && frame[j].features == frame[i].features && frame[j].target != frame[i].target
  }

  /** The rows not seen before, in order. */
  function Kept(frame: Frame): (r: Frame)
    ensures |r| <= |frame|
  {
    if |frame| == 0 then []
    else
      var n := |frame| - 1;
      if SeenBefore(frame, n) then Kept(frame[..n]) else Kept(frame[..n]) + [frame[n]]
  }

  /** How many rows of a class are dropped. */
  function Removed(frame: Frame, target: int): (n: nat)
  {
    if |frame| == 0 then 0
    else
      var n := |frame| - 1;
      Removed(frame[..n], target) + (if SeenBefore(frame, n) && frame[n].target == target then 1 else 0)
  }

  predicate NoRepeats(frame: Frame)
  {
    forall i, j :: 0 <= i < j < |frame| ==> frame[i].features != frame[j].features
  }

  /** `curate_exact_feature_duplicates` */
  function Curate(frame: Frame): Result<(Frame, Summary), CurationError>
  {
    if !ValidFrame(frame) then Err(InvalidFrame)
    else if |ConflictingGroups(frame)| > 0 then Err(Conflicting(|ConflictingGroups(frame)|))
    else
      var curated := Kept(frame);
      if !ValidFrame(curated) then Err(InvalidFrame)
      else if !NoRepeats(curated) then Err(StillDuplicated)
      else
        Ok((curated, Summary(|frame|, |curated|, |frame| - |curated|, |DuplicateGroups(frame)|, Removed(frame, 0), Removed(frame, 1))))
  }

  // ----- What is kept -----

  predicate HasVector(frame: Frame, v: Vector) { exists i :: 0 <= i < |frame| && frame[i].features == v }

  /** `ks` lists the rows not seen before, in order. */
  predicate FirstOccurrences(frame: Frame, ks: seq<nat>)
  {
    && (forall i :: 0 <= i < |ks| ==> ks[i] < |frame| && !SeenBefore(frame, ks[i]))
    && (forall i, j :: 0 <= i < j < |ks| ==> ks[i] < ks[j])
    && (forall k :: 0 <= k < |frame| && !SeenBefore(frame, k) ==> k in ks)
  }

  predicate Selects(frame: Frame, ks: seq<nat>, rows: Frame)
  {
    |rows| == |ks| && forall i :: 0 <= i < |ks| ==> ks[i] < |frame| && rows[i] == frame[ks[i]]
  }

  lemma SeenInPrefix(frame: Frame, n: nat, i: nat)
    requires i < n <= |frame|
    ensures SeenBefore(frame[..n], i) <==> SeenBefore(frame, i)
  {
  }

  lemma FirstOccurrencesGrow(frame: Frame, n: nat, ks: seq<nat>)
    requires |frame| == n + 1 && FirstOccurrences(frame[..n], ks)
    ensures FirstOccurrences(frame, if SeenBefore(frame, n) then ks else ks + [n])
  {
    forall i | 0 <= i < n ensures SeenBefore(frame[..n], i) <==> SeenBefore(frame, i) { SeenInPrefix(frame, n, i); }
    var all := if SeenBefore(frame, n) then ks else ks + [n];
    forall k | 0 <= k < |frame| && !SeenBefore(frame, k) ensures k in all {
      if k < n { assert k in ks; } else { assert all[|ks|] == n; }
    }
  }

  lemma SelectsGrow(frame: Frame, n: nat, ks: seq<nat>, rows: Frame)
    requires |frame| == n + 1 && Selects(frame[..n], ks, rows)
    ensures Selects(frame, ks, rows) && Selects(frame, ks + [n], rows + [frame[n]])
  {
  }

  /** The result is the subsequence of first occurrences, in the order of the input. */
  lemma {:induction false} KeptAreFirstOccurrences(frame: Frame) returns (ks: seq<nat>)
    ensures FirstOccurrences(frame, ks) && Selects(frame, ks, Kept(frame))
    decreases |frame|
  {
    if |frame| == 0 {
      ks := [];
    } else {
      var n := |frame| - 1;
      var before := KeptAreFirstOccurrences(frame[..n]);
      FirstOccurrencesGrow(frame, n, before);
      SelectsGrow(frame, n, before, Kept(frame[..n]));
      ks := if SeenBefore(frame, n) then before else before + [n];
    }
  }

  /** Every vector has a first occurrence. */
  lemma {:induction false} FirstOccurrence(frame: Frame, i: nat) returns (k: nat)
    requires i < |frame|
    ensures k <= i && frame[k].features == frame[i].features && !SeenBefore(frame, k)
  {
    if SeenBefore(frame, i) {
      var j :| 0 <= j < i && frame[j].features == frame[i].features;
      k := FirstOccurrence(frame, j);
    } else {
      k := i;
    }
  }

  /** No vector is lost, none is new and none is left twice. */
  lemma KeptVectors(frame: Frame)
    ensures NoRepeats(Kept(frame))
    ensures forall v :: HasVector(Kept(frame), v) <==> HasVector(frame, v)
  {
    var kept := Kept(frame);
    var ks := KeptAreFirstOccurrences(frame);
    forall i, j | 0 <= i < j < |kept| ensures kept[i].features != kept[j].features {
      assert !SeenBefore(frame, ks[j]) && ks[i] < ks[j];
    }
    forall v ensures HasVector(kept, v) <==> HasVector(frame, v) {
      if i :| 0 <= i < |kept| && kept[i].features == v { assert frame[ks[i]].features == v; }
      if i :| 0 <= i < |frame| && frame[i].features == v {
        var k := FirstOccurrence(frame, i);
        assert k in ks;
        var m :| 0 <= m < |ks| && ks[m] == k;
        assert kept[m].features == v;
      }
    }
  }

  /** One class for each feature vector. */
  predicate ClassIsFunction(frame: Frame)
  {
    forall i, j :: 0 <= i < |frame| && 0 <= j < |frame| && frame[i].features == frame[j].features ==> frame[i].target == frame[j].target
  }

  lemma NoConflictIffFunction(frame: Frame)
    ensures |ConflictingGroups(frame)| == 0 <==> ClassIsFunction(frame)
  {
    if i, j :| 0 <= i < |frame| && 0 <= j < |frame| && frame[i].features == frame[j].features && frame[i].target != frame[j].target {
      assert SeenElsewhere(frame, i) && HasOtherClass(frame, i);
      assert frame[i].features in ConflictingGroups(frame);
    }
    if v :| v in ConflictingGroups(frame) {
      var i :| 0 <= i < |frame| && SeenElsewhere(frame, i) && HasOtherClass(frame, i) && frame[i].features == v;
      assert !ClassIsFunction(frame);
    }
  }

  lemma KeptIsValid(frame: Frame)
    requires ValidFrame(frame)
    ensures ValidFrame(Kept(frame))
  {
    var ks := KeptAreFirstOccurrences(frame);
    KeptVectors(frame);
    assert HasVector(frame, frame[0].features);
  }

  /** Curation accepts a frame if and only if it is valid and its class is a function of
      the features; the check of its own result never fails. */
  lemma AcceptedIffFunction(frame: Frame)
    ensures Curate(frame).Ok? <==> ValidFrame(frame) && ClassIsFunction(frame)
    ensures Curate(frame).Err? ==> !Curate(frame).error.StillDuplicated?
  {
    NoConflictIffFunction(frame);
    KeptVectors(frame);
    if ValidFrame(frame) { KeptIsValid(frame); }
  }

  /** An accepted frame loses repetitions only: every row of it is still there. */
  lemma EveryRowIsStillThere(frame: Frame, i: nat)
    requires Curate(frame).Ok? && i < |frame|
    ensures frame[i] in Curate(frame).value.0
  {
    AcceptedIffFunction(frame);
    KeptVectors(frame);
    var curated := Kept(frame);
    assert HasVector(frame, frame[i].features) && HasVector(curated, frame[i].features);
    var k :| 0 <= k < |curated| && curated[k].features == frame[i].features;
    var ks := KeptAreFirstOccurrences(frame);
    assert frame[ks[k]].target == frame[i].target;
    assert curated[k] == frame[i];
  }

  lemma PrefixHasNoRepeats(frame: Frame, n: nat)
    requires NoRepeats(frame) && n <= |frame|
    ensures NoRepeats(frame[..n]) && (n < |frame| ==> !SeenBefore(frame, n))
  {
  }

  lemma LastIsKept(frame: Frame)
    requires |frame| > 0 && !SeenBefore(frame, |frame| - 1)
    ensures Kept(frame) == Kept(frame[..|frame| - 1]) + [frame[|frame| - 1]]
    ensures forall target :: Removed(frame, target) == Removed(frame[..|frame| - 1], target)
  {
  }

  lemma {:induction false} NothingSeenBefore(frame: Frame)
    requires NoRepeats(frame)
    ensures Kept(frame) == frame && forall target :: Removed(frame, target) == 0
    decreases |frame|
  {
    if |frame| > 0 {
      var n := |frame| - 1;
      PrefixHasNoRepeats(frame, n);
      NothingSeenBefore(frame[..n]);
      LastIsKept(frame);
      assert frame == frame[..n] + [frame[n]];
    }
  }

  lemma NoGroupsIffNoRepeats(frame: Frame)
    ensures DuplicateGroups(frame) == {} <==> NoRepeats(frame)
  {
    if i, j :| 0 <= i < j < |frame| && frame[i].features == frame[j].features {
      assert SeenElsewhere(frame, i);
      assert frame[i].features in DuplicateGroups(frame);
    }
    if v :| v in DuplicateGroups(frame) {
      var i :| 0 <= i < |frame| && SeenElsewhere(frame, i) && frame[i].features == v;
      assert !NoRepeats(frame);
    }
  }

  /** Curating again changes nothing. */
  lemma CurateTwice(frame: Frame)
    requires Curate(frame).Ok?
    ensures var curated := Curate(frame).value.0;
            Curate(curated) == Ok((curated, Summary(|curated|, |curated|, 0, 0, 0, 0)))
  {
    var curated := Kept(frame);
    NothingSeenBefore(curated);
    assert ClassIsFunction(curated);
    NoConflictIffFunction(curated);
    NoGroupsIffNoRepeats(curated);
  }

  // ----- Accounting -----

  function Count(frame: Frame, target: int): nat
  {
    if |frame| == 0 then 0 else Count(frame[..|frame| - 1], target) + (if frame[|frame| - 1].target == target then 1 else 0)
  }

  lemma CountAppend(frame: Frame, r: Row, target: int)
    ensures Count(frame + [r], target) == Count(frame, target) + (if r.target == target then 1 else 0)
  {
    assert (frame + [r])[..|frame|] == frame;
  }

  /** The rows of each class are the kept ones and the removed ones. */
  lemma {:induction false} ClassConserved(frame: Frame, target: int)
    ensures Count(frame, target) == Count(Kept(frame), target) + Removed(frame, target)
    decreases |frame|
  {
    if |frame| > 0 {
      var n := |frame| - 1;
      ClassConserved(frame[..n], target);
      CountAppend(Kept(frame[..n]), frame[n], target);
    }
  }

  lemma {:induction false} ClassesAreAll(frame: Frame)
    requires forall i :: 0 <= i < |frame| ==> frame[i].target == 0 || frame[i].target == 1
    ensures |frame| == Count(frame, 0) + Count(frame, 1)
    decreases |frame|
  {
    if |frame| > 0 { ClassesAreAll(frame[..|frame| - 1]); }
  }

  /** Raw rows are the curated ones and the removed legitimate and fraudulent ones; and
      so for each class. */
  lemma RowsConserved(frame: Frame)
    requires Curate(frame).Ok?
    ensures var s := Curate(frame).value.1; var curated := Curate(frame).value.0;
            && s.rawRows == |frame| == s.curatedRows + s.removedLegitimate + s.removedFraud
            && s.removedRows == s.removedLegitimate + s.removedFraud
            && Count(frame, 0) == Count(curated, 0) + s.removedLegitimate
            && Count(frame, 1) == Count(curated, 1) + s.removedFraud
  {
    ClassConserved(frame, 0);
    ClassConserved(frame, 1);
    ClassesAreAll(frame);
    ClassesAreAll(Kept(frame));
  }

  function FeaturesOf(frame: Frame): (r: seq<Vector>)
    ensures |r| == |frame|
  {
    seq(|frame|, i requires 0 <= i < |frame| => frame[i].features)
  }

  predicate Twice(vs: seq<Vector>, v: Vector)
  {
    exists i, j :: 0 <= i < j < |vs| && vs[i] == v && vs[j] == v
  }

  lemma {:induction false} TwiceIffMultiple(vs: seq<Vector>, v: Vector)
    ensures Twice(vs, v) <==> multiset(vs)[v] >= 2
    decreases |vs|
  {
    if |vs| > 0 {
      var n := |vs| - 1;
      var init := vs[..n];
      TwiceIffMultiple(init, v);
      assert vs == init + [vs[n]];
      TwiceInPrefix(vs, n, v);
      assert v in init <==> v in multiset(init);
    }
  }

  lemma TwiceInPrefix(vs: seq<Vector>, n: nat, v: Vector)
    requires |vs| == n + 1
    ensures Twice(vs, v) <==> Twice(vs[..n], v) || (vs[n] == v && v in vs[..n])
  {
    if i, j :| 0 <= i < j < |vs| && vs[i] == v && vs[j] == v {
      assert vs[..n][i] == v;
      if j < n { assert vs[..n][j] == v; }
    }
    if i, j :| 0 <= i < j < n && vs[..n][i] == v && vs[..n][j] == v {
      assert vs[i] == v && vs[j] == v;
    }
    if vs[n] == v && v in vs[..n] {
      var i :| 0 <= i < n && vs[..n][i] == v;
      assert vs[i] == v;
    }
  }

  /** The vectors that occur more than once. */
  function Repeated(frame: Frame): set<Vector>
  {
    var all := multiset(FeaturesOf(frame));
    set v | v in all && all[v] >= 2
  }

  lemma GroupsAreRepeated(frame: Frame)
    ensures DuplicateGroups(frame) == Repeated(frame)
  {
    var vs := FeaturesOf(frame);
    forall v ensures v in DuplicateGroups(frame) <==> v in Repeated(frame) {
      TwiceIffMultiple(vs, v);
      if v in DuplicateGroups(frame) {
        var i :| 0 <= i < |frame| && SeenElsewhere(frame, i) && frame[i].features == v;
        var j :| 0 <= j < |frame| && j != i && frame[j].features == frame[i].features;
        assert vs[i] == v && vs[j] == v;
      }
      if i, j :| 0 <= i < j < |vs| && vs[i] == v && vs[j] == v {
        assert frame[i].features == v && frame[j].features == v;
        assert SeenElsewhere(frame, i);
      }
    }
  }

  predicate HasRow(frame: Frame, v: Vector, target: int) { Row(v, target) in frame }

  /** The vectors that occur with both classes. */
  function Contradictory(frame: Frame): set<Vector>
  {
    set i | 0 <= i < |frame| && HasRow(frame, frame[i].features, 0) && HasRow(frame, frame[i].features, 1) :: frame[i].features
  }

  lemma ConflictsAreContradictory(frame: Frame)
    requires ValidFrame(frame)
    ensures ConflictingGroups(frame) == Contradictory(frame)
  {
    forall v ensures v in ConflictingGroups(frame) <==> v in Contradictory(frame) {
      if v in ConflictingGroups(frame) {
        var i :| 0 <= i < |frame| && SeenElsewhere(frame, i) && HasOtherClass(frame, i) && frame[i].features == v;
        var j :| 0 <= j < |frame| && frame[j].features == frame[i].features && frame[j].target != frame[i].target;
        assert ValidRow(frame[i]) && ValidRow(frame[j]);
        assert frame[i] == Row(v, frame[i].target) && frame[j] == Row(v, frame[j].target);
      }
      if v in Contradictory(frame) {
        var i :| 0 <= i < |frame| && frame[i] == Row(v, 0);
        var j :| 0 <= j < |frame| && frame[j] == Row(v, 1);
        assert frame[j].features == frame[i].features;
        assert SeenElsewhere(frame, i) && HasOtherClass(frame, i);
      }
    }
  }

  /** The number of groups that is reported is that of the vectors which occur more than
      once, whatever the rows; a frame is refused with the number of those that occur with
      both classes, when there is any. */
  lemma GroupsAreCounted(frame: Frame)
    ensures Curate(frame).Ok? ==> Curate(frame).value.1.duplicateGroups == |Repeated(frame)|
    ensures forall n :: Curate(frame) == Err(Conflicting(n)) <==> ValidFrame(frame) && n == |Contradictory(frame)| > 0
  {
    GroupsAreRepeated(frame);
    if ValidFrame(frame) {
      ConflictsAreContradictory(frame);
      KeptIsValid(frame);
    }
  }

  function Vectors(frame: Frame): set<Vector> { set i | 0 <= i < |frame| :: frame[i].features }

  lemma {:induction false} DistinctRowsAreVectors(frame: Frame)
    requires NoRepeats(frame)
    ensures |Vectors(frame)| == |frame|
    decreases |frame|
  {
    if |frame| > 0 {
      var n := |frame| - 1;
      DistinctRowsAreVectors(frame[..n]);
      assert Vectors(frame) == Vectors(frame[..n]) + {frame[n].features};
    }
  }

  /** One curated row for each feature vector; a frame without duplicate groups is
      returned as it is, and only such a frame. */
  lemma OneRowForEachVector(frame: Frame)
    requires Curate(frame).Ok?
    ensures Curate(frame).value.1.curatedRows == |Vectors(frame)|
    ensures Curate(frame).value.1.duplicateGroups == 0 <==> Curate(frame).value.0 == frame
  {
    var kept := Kept(frame);
    KeptVectors(frame);
    DistinctRowsAreVectors(kept);
    assert Vectors(kept) == Vectors(frame) by {
      assert forall v :: v in Vectors(kept) <==> HasVector(kept, v);
      assert forall v :: v in Vectors(frame) <==> HasVector(frame, v);
    }
    NoGroupsIffNoRepeats(frame);
    if NoRepeats(frame) { NothingSeenBefore(frame); }
  }
}

/** Nearest-rank percentiles (api/scale_timing.py). */
module NearestRank {
  import opened Wrappers
  import opened SortedReals

  datatype RankError = IndexError

  /** math.ceil */
  function Ceil(x: real): (n: int)
    ensures n as real - 1.0 < x <= n as real
  {
    -((-x).Floor)
  }

  /** Rounding of a product to a float, whatever it is exactly. */
  type Rounding = real -> real

  /** Rounding to nearest keeps the order, and the integers up to 2^53. */
  ghost predicate RoundingOk(round: Rounding)
  {
    && (forall x, y :: x <= y ==> round(x) <= round(y))
    && (forall x :: IsExact(x) ==> round(x) == x)
  }

  predicate IsExact(x: real) { 0.0 <= x <= EXACT as real && x == x.Floor as real }

  const EXACT: nat := 0x20_0000_0000_0000

  /** len * fraction */
  function Product(round: Rounding, n: nat, fraction: real): real { round(n as real * fraction) }

  /** max(1, ceil(len * fraction)) */
  function Rank(round: Rounding, n: nat, fraction: real): (k: nat)
    ensures k >= 1
  {
    var c := Ceil(Product(round, n, fraction));
    if c > 1 then c else 1
  }

  /** `nearest_rank`; an index past the end raises. */
  function NearestRank(round: Rounding, values: seq<real>, fraction: real): Result<real, RankError>
  {
    var ordered := Sorted(values);
    var k := Rank(round, |ordered|, fraction);
    if k - 1 < |ordered| then Ok(ordered[k - 1]) else Err(IndexError)
  }

  lemma CeilMonotone(x: real, y: real)
    requires x <= y
    ensures Ceil(x) <= Ceil(y)
  {
  }

  lemma CeilWithin(x: real, n: nat)
    ensures Ceil(x) <= n <==> x <= n as real
  {
  }

  lemma Scaled(n: nat, f: real, g: real)
    requires f <= g
    ensures n as real * f <= n as real * g
  {
    assert n as real * (g - f) >= 0.0;
  }

  lemma RankWithin(round: Rounding, n: nat, fraction: real)
    requires n > 0
    ensures Rank(round, n, fraction) <= n <==> Product(round, n, fraction) <= n as real
  {
    CeilWithin(Product(round, n, fraction), n);
  }

  lemma RoundedInOrder(round: Rounding, x: real, y: real)
    requires RoundingOk(round) && x <= y
    ensures round(x) <= round(y)
  {
  }

  lemma ProductMonotone(round: Rounding, n: nat, f: real, g: real)
    requires RoundingOk(round) && f <= g
    ensures Product(round, n, f) <= Product(round, n, g)
  {
    Scaled(n, f, g);
    RoundedInOrder(round, n as real * f, n as real * g);
  }

  lemma ProductOfOne(round: Rounding, n: nat)
    requires RoundingOk(round) && n <= EXACT
    ensures Product(round, n, 1.0) == n as real
  {
    var x := n as real * 1.0;
    assert x == n as real && IsExact(x);
  }

  /** It raises exactly for no values, and for a product above their number; so never for
      values and a fraction of at most one. */
  lemma RaisesIff(round: Rounding, values: seq<real>, fraction: real)
    ensures NearestRank(round, values, fraction).Err? <==> values == [] || Product(round, |values|, fraction) > |values| as real
    ensures RoundingOk(round) && 0 < |values| <= EXACT && fraction <= 1.0 ==> NearestRank(round, values, fraction).Ok?
  {
    SortedSorts(values);
    if values != [] {
      RankWithin(round, |Sorted(values)|, fraction);
    }
    if RoundingOk(round) && 0 < |values| <= EXACT && fraction <= 1.0 {
      ProductMonotone(round, |values|, fraction, 1.0);
      ProductOfOne(round, |values|);
    }
  }

  /** The result is one of the values; at least k of them are at most the result and fewer
      than k below it, whatever the order they came in. */
  lemma IsOrderStatistic(round: Rounding, values: seq<real>, fraction: real)
    requires NearestRank(round, values, fraction).Ok?
    ensures var v, k := NearestRank(round, values, fraction).value, Rank(round, |values|, fraction);
            && v in values
            && CountAtMost(values, v) >= k
            && CountBelow(values, v) < k
  {
    SortedSorts(values);
    var ordered := Sorted(values);
    var k := Rank(round, |values|, fraction);
    var v := ordered[k - 1];
    assert v in multiset(values);
    SortedCounts(values, v);
    OrderedCounts(ordered, k - 1, v);
  }

  /** Only one value can be that: the contract determines the result. */
  lemma OrderStatisticUnique(values: seq<real>, k: nat, v: real, w: real)
    requires v in values && CountAtMost(values, v) >= k && CountBelow(values, v) < k
    requires w in values && CountAtMost(values, w) >= k && CountBelow(values, w) < k
    ensures v == w
  {
    if v < w { AtMostIsBelow(values, v, w); }
    if w < v { AtMostIsBelow(values, w, v); }
  }

  /** At least `p` values are at most `v`, and fewer than `p` are below it, or none. */
  predicate IsNearest(values: seq<real>, p: real, v: real)
  {
    v in values && CountAtMost(values, v) as real >= p && (CountBelow(values, v) == 0 || (CountBelow(values, v) as real) < p)
  }

  lemma RankIsNearest(round: Rounding, values: seq<real>, fraction: real)
    requires NearestRank(round, values, fraction).Ok?
    ensures IsNearest(values, round(|values| as real * fraction), NearestRank(round, values, fraction).value)
  {
    IsOrderStatistic(round, values, fraction);
  }

  lemma NearestOnce(values: seq<real>, p: real, v: real, w: real)
    requires IsNearest(values, p, v) && IsNearest(values, p, w)
    ensures v == w
  {
    CountedSome(values, v);
    CountedSome(values, w);
    if v < w { AtMostIsBelow(values, v, w); }
    if w < v { AtMostIsBelow(values, w, v); }
  }

  lemma {:induction false} CountedSome(values: seq<real>, v: real)
    ensures CountAtMost(values, v) <= |values| && (v in values ==> CountAtMost(values, v) >= 1)
    decreases |values|
  {
    if |values| > 0 { CountedSome(values[1..], v); }
  }

  /** The result in terms of the values and the rounded product alone: it is the one value
      with enough values at most it and too few below it. */
  lemma ResultIff(round: Rounding, values: seq<real>, fraction: real, v: real)
    ensures NearestRank(round, values, fraction) == Ok(v) <==> IsNearest(values, round(|values| as real * fraction), v)
  {
    if NearestRank(round, values, fraction).Ok? {
      RankIsNearest(round, values, fraction);
      var result := NearestRank(round, values, fraction).value;
      if IsNearest(values, round(|values| as real * fraction), v) {
        NearestOnce(values, round(|values| as real * fraction), v, result);
      }
    } else {
      RaisesIff(round, values, fraction);
      CountedSome(values, v);
    }
  }

  lemma {:induction false} AtMostIsBelow(values: seq<real>, v: real, w: real)
    requires v < w
    ensures CountAtMost(values, v) <= CountBelow(values, w)
    decreases |values|
  {
    if |values| > 0 { AtMostIsBelow(values[1..], v, w); }
  }

  /** A larger fraction never gives a smaller value. */
  lemma Monotone(round: Rounding, values: seq<real>, f: real, g: real)
    requires RoundingOk(round) && f <= g && NearestRank(round, values, g).Ok?
    ensures NearestRank(round, values, f).Ok?
    ensures NearestRank(round, values, f).value <= NearestRank(round, values, g).value
  {
    var ordered := Sorted(values);
    SortedSorts(values);
    ProductMonotone(round, |ordered|, f, g);
    CeilMonotone(Product(round, |ordered|, f), Product(round, |ordered|, g));
  }
}

/** Sorting of numbers, and how many of them lie below a bound. */
module SortedReals {

  predicate Ordered(xs: seq<real>) { forall i, j :: 0 <= i < j < |xs| ==> xs[i] <= xs[j] }

  function Insert(x: real, xs: seq<real>): seq<real>
  {
    if |xs| == 0 || x <= xs[0] then [x] + xs else [xs[0]] + Insert(x, xs[1..])
  }

  function Sorted(xs: seq<real>): seq<real>
  {
    if |xs| == 0 then [] else Insert(xs[0], Sorted(xs[1..]))
  }

  lemma {:induction false} InsertAdds(x: real, xs: seq<real>)
    ensures multiset(Insert(x, xs)) == multiset(xs) + multiset{x}
    decreases |xs|
  {
    if !(|xs| == 0 || x <= xs[0]) {
      InsertAdds(x, xs[1..]);
      assert xs == [xs[0]] + xs[1..];
    }
  }

  lemma {:induction false} InsertOrders(x: real, xs: seq<real>, least: real)
    requires Ordered(xs) && least <= x && (|xs| > 0 ==> least <= xs[0])
    ensures Ordered(Insert(x, xs)) && least <= Insert(x, xs)[0]
    decreases |xs|
  {
    if !(|xs| == 0 || x <= xs[0]) {
      InsertOrders(x, xs[1..], xs[0]);
    }
  }

  lemma InsertInserts(x: real, xs: seq<real>)
    ensures multiset(Insert(x, xs)) == multiset(xs) + multiset{x}
    ensures Ordered(xs) ==> Ordered(Insert(x, xs))
  {
    InsertAdds(x, xs);
    if Ordered(xs) { InsertOrders(x, xs, if |xs| > 0 && xs[0] < x then xs[0] else x); }
  }

  lemma {:induction false} SortedSorts(xs: seq<real>)
    ensures Ordered(Sorted(xs)) && multiset(Sorted(xs)) == multiset(xs) && |Sorted(xs)| == |xs|
    decreases |xs|
  {
    if |xs| > 0 {
      SortedSorts(xs[1..]);
      InsertInserts(xs[0], Sorted(xs[1..]));
      assert xs == [xs[0]] + xs[1..];
      assert |multiset(Sorted(xs))| == |multiset(xs)|;
    }
  }

  /** The values at most `v`. */
  function CountAtMost(xs: seq<real>, v: real): (n: nat)
    ensures n <= |xs|
  {
    if |xs| == 0 then 0 else (if xs[0] <= v then 1 else 0) + CountAtMost(xs[1..], v)
  }

  /** The values below `v`. */
  function CountBelow(xs: seq<real>, v: real): (n: nat)
    ensures n <= |xs|
  {
    if |xs| == 0 then 0 else (if xs[0] < v then 1 else 0) + CountBelow(xs[1..], v)
  }

  lemma {:induction false} InsertCounts(x: real, xs: seq<real>, v: real)
    ensures CountAtMost(Insert(x, xs), v) == CountAtMost(xs, v) + (if x <= v then 1 else 0)
    ensures CountBelow(Insert(x, xs), v) == CountBelow(xs, v) + (if x < v then 1 else 0)
    decreases |xs|
  {
    if !(|xs| == 0 || x <= xs[0]) {
      InsertCounts(x, xs[1..], v);
    }
  }

  /** Sorting does not change how many values lie where. */
  lemma {:induction false} SortedCounts(xs: seq<real>, v: real)
    ensures CountAtMost(Sorted(xs), v) == CountAtMost(xs, v) && CountBelow(Sorted(xs), v) == CountBelow(xs, v)
    decreases |xs|
  {
    if |xs| > 0 {
      SortedCounts(xs[1..], v);
      InsertCounts(xs[0], Sorted(xs[1..]), v);
    }
  }

  /** In an ordered list the values up to a position are at most the one there, and those
      from it on are not below it. */
  lemma {:induction false} OrderedCounts(xs: seq<real>, j: nat, v: real)
    requires Ordered(xs) && j < |xs|
    ensures v >= xs[j] ==> CountAtMost(xs, v) >= j + 1
    ensures v <= xs[j] ==> CountBelow(xs, v) <= j
    decreases |xs|
  {
    if j > 0 {
      OrderedCounts(xs[1..], j - 1, v);
    } else {
      NoneBelow(xs, v);
    }
  }

  lemma {:induction false} NoneBelow(xs: seq<real>, v: real)
    ensures Ordered(xs) && |xs| > 0 && v <= xs[0] ==> CountBelow(xs, v) == 0
    decreases |xs|
  {
    if |xs| > 1 && Ordered(xs) { NoneBelow(xs[1..], v); }
  }
}

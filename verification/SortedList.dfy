/** Sorting of strings by character code. */
module SortedList {

  predicate Le(a: string, b: string)
  {
    |a| == 0 || (|b| > 0 && (a[0] < b[0] || (a[0] == b[0] && Le(a[1..], b[1..]))))
  }

  lemma {:induction false} LeTotal(a: string, b: string)
    ensures Le(a, b) || Le(b, a)
  {
    if |a| > 0 && |b| > 0 { LeTotal(a[1..], b[1..]); }
  }

  lemma {:induction false} LeAntisymmetric(a: string, b: string)
    requires Le(a, b) && Le(b, a)
    ensures a == b
  {
    if |a| > 0 && |b| > 0 {
      LeAntisymmetric(a[1..], b[1..]);
      assert a == [a[0]] + a[1..] && b == [b[0]] + b[1..];
    }
  }

  lemma {:induction false} LeTransitive(a: string, b: string, c: string)
    requires Le(a, b) && Le(b, c)
    ensures Le(a, c)
  {
    if |a| > 0 && a[0] == b[0] && b[0] == c[0] { LeTransitive(a[1..], b[1..], c[1..]); }
  }

  predicate Ordered(xs: seq<string>) { forall i, j :: 0 <= i < j < |xs| ==> Le(xs[i], xs[j]) }

  function Insert(x: string, xs: seq<string>): seq<string>
  {
    if |xs| == 0 || Le(x, xs[0]) then [x] + xs else [xs[0]] + Insert(x, xs[1..])
  }

  function Sorted(xs: seq<string>): seq<string>
  {
    if |xs| == 0 then [] else Insert(xs[0], Sorted(xs[1..]))
  }

  lemma {:induction false} InsertKeepsElements(x: string, xs: seq<string>)
    ensures multiset(Insert(x, xs)) == multiset(xs) + multiset{x}
    decreases |xs|
  {
    if !(|xs| == 0 || Le(x, xs[0])) {
      InsertKeepsElements(x, xs[1..]);
      assert xs == [xs[0]] + xs[1..];
    }
  }

  lemma {:induction false} InsertKeepsOrder(x: string, xs: seq<string>)
    requires Ordered(xs)
    ensures Ordered(Insert(x, xs))
    decreases |xs|
  {
    if |xs| == 0 {
    } else if Le(x, xs[0]) {
      forall j | 0 <= j < |xs| ensures Le(x, xs[j]) {
        if j > 0 { LeTransitive(x, xs[0], xs[j]); }
      }
    } else {
      LeTotal(x, xs[0]);
      var rest := Insert(x, xs[1..]);
      InsertKeepsOrder(x, xs[1..]);
      InsertKeepsElements(x, xs[1..]);
      forall j | 0 <= j < |rest| ensures Le(xs[0], rest[j]) {
        assert rest[j] in multiset(rest);
        assert rest[j] != x ==> rest[j] in multiset(xs[1..]);
      }
    }
  }

  /** The same elements, in order. */
  lemma {:induction false} SortedSorts(xs: seq<string>)
    ensures Ordered(Sorted(xs)) && multiset(Sorted(xs)) == multiset(xs)
    decreases |xs|
  {
    if |xs| > 0 {
      SortedSorts(xs[1..]);
      InsertKeepsOrder(xs[0], Sorted(xs[1..]));
      InsertKeepsElements(xs[0], Sorted(xs[1..]));
      assert xs == [xs[0]] + xs[1..];
    }
  }

  lemma MultisetOfTail(a: seq<string>)
    requires |a| > 0
    ensures multiset(a[1..]) == multiset(a) - multiset{a[0]}
  {
    assert a == [a[0]] + a[1..];
  }

  /** The elements determine the ordered list. */
  lemma {:induction false} OrderedUnique(a: seq<string>, b: seq<string>)
    requires Ordered(a) && Ordered(b) && multiset(a) == multiset(b)
    ensures a == b
    decreases |a|
  {
    if |a| == 0 {
      assert |multiset(b)| == 0;
    } else {
      FirstIsLeast(a, b);
      FirstIsLeast(b, a);
      LeAntisymmetric(a[0], b[0]);
      MultisetOfTail(a);
      MultisetOfTail(b);
      OrderedUnique(a[1..], b[1..]);
      assert a == [a[0]] + a[1..] && b == [b[0]] + b[1..];
    }
  }

  lemma FirstIsLeast(a: seq<string>, b: seq<string>)
    requires Ordered(a) && |a| > 0 && multiset(a) == multiset(b)
    ensures |b| > 0 && Le(a[0], b[0])
  {
    assert |multiset(b)| == |a|;
    assert b[0] in multiset(a);
    LeTotal(a[0], a[0]);
  }
}

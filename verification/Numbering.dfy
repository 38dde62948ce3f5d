/** Numbers for lists of numbers: what the premises on encodings and hashes ask for exists. */
module Numbering {

  /** 2^a * (2b + 1) */
  function PairNumber(a: nat, b: nat): (n: nat)
    ensures n > 0
  {
    if a == 0 then 2 * b + 1 else 2 * PairNumber(a - 1, b)
  }

  lemma {:induction false} PairNumberInjective(a: nat, b: nat, c: nat, d: nat)
    requires PairNumber(a, b) == PairNumber(c, d)
    ensures a == c && b == d
    decreases a
  {
    if a > 0 && c > 0 {
      PairNumberInjective(a - 1, b, c - 1, d);
    } else {
      assert PairNumber(a, b) % 2 == (if a == 0 then 1 else 0);
      assert PairNumber(c, d) % 2 == (if c == 0 then 1 else 0);
    }
  }

  function ListNumber(ns: seq<nat>): nat
  {
    if |ns| == 0 then 0 else PairNumber(ns[0], ListNumber(ns[1..]))
  }

  lemma {:induction false} ListNumberInjective(ms: seq<nat>, ns: seq<nat>)
    requires ListNumber(ms) == ListNumber(ns)
    ensures ms == ns
    decreases |ms|
  {
    if |ms| > 0 && |ns| > 0 {
      PairNumberInjective(ms[0], ListNumber(ms[1..]), ns[0], ListNumber(ns[1..]));
      ListNumberInjective(ms[1..], ns[1..]);
      assert ms == [ms[0]] + ms[1..] && ns == [ns[0]] + ns[1..];
    }
  }

  function IntNumber(i: int): nat { if i >= 0 then 2 * i else -2 * i - 1 }

  function CharCodes(s: string): (r: seq<nat>)
    ensures |r| == |s|
  {
    seq(|s|, i requires 0 <= i < |s| => s[i] as nat)
  }

  function TextNumber(s: string): nat { ListNumber(CharCodes(s)) }

  lemma TextNumberInjective(s: string, t: string)
    requires TextNumber(s) == TextNumber(t)
    ensures s == t
  {
    ListNumberInjective(CharCodes(s), CharCodes(t));
    forall i | 0 <= i < |s| ensures s[i] == t[i] { assert CharCodes(s)[i] == CharCodes(t)[i]; }
  }

  /** A number written with that many strokes. */
  function Strokes(n: nat): (s: string)
    ensures |s| == n && forall i :: 0 <= i < n ==> s[i] == 'I'
  {
    seq(n, i => 'I')
  }
}

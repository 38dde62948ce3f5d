/** Double-precision numbers by their bits. */
module Float {
  /** The 64 bits of an IEEE 754 double, as a number. */
  type Float64 = x: int | 0 <= x < 0x1_0000_0000_0000_0000

  /** The sign bit alone is minus zero. */
  const SIGN: int := 0x8000_0000_0000_0000

  const ONE: int := 0x3FF0_0000_0000_0000

  /** All exponent bits set, and no other. */
  const INFINITY: int := 0x7FF0_0000_0000_0000

  predicate IsFinite(x: Float64) { (if x < SIGN then x else x - SIGN) < INFINITY }

  /** Below zero, of finite values; minus zero is not. */
  predicate IsNegative(x: Float64) { x > SIGN }

  // ----- What the bits stand for -----

  function Pow2(n: nat): (p: nat)
    ensures p >= 1
  {
    if n == 0 then 1 else 2 * Pow2(n - 1)
  }

  /** 2^52: the leading bit of a normal number, which is not stored. */
  const LEADING: int := 0x10_0000_0000_0000

  /** The size of a number, in units of 2^-1074: the exponent field scales the fraction. */
  function Size(m: nat): nat
  {
    if m / LEADING == 0 then m % LEADING else (LEADING + m % LEADING) * Pow2(m / LEADING - 1)
  }

  /** The number that finite bits stand for, in the same units. */
  function Value(x: Float64): int
    requires IsFinite(x)
  {
    if x < SIGN then Size(x) else 0 - Size(x - SIGN)
  }

  lemma {:induction false} Pow2Grows(a: nat, b: nat)
    requires a <= b
    ensures Pow2(a) <= Pow2(b)
    decreases b
  {
    if a < b { Pow2Grows(a, b - 1); }
  }

  lemma {:induction false} Pow2Sum(a: nat, b: nat)
    ensures Pow2(a + b) == Pow2(a) * Pow2(b)
    decreases a
  {
    if a > 0 { Pow2Sum(a - 1, b); }
  }

  lemma Scales(a: nat, b: nat, p: nat)
    requires a < b && p >= 1
    ensures a * p < b * p
  {
  }

  lemma MovesTwo(a: nat, p: nat)
    ensures (2 * a) * p == a * (2 * p)
  {
  }

  lemma Distributes(a: nat, f: nat, p: nat)
    ensures a * p <= (a + f) * p
  {
    assert (a + f) * p == a * p + f * p;
  }

  lemma SizeBelow(m: nat)
    ensures Size(m) < LEADING * Pow2(m / LEADING)
  {
    if m / LEADING > 0 {
      var p := Pow2(m / LEADING - 1);
      Scales(LEADING + m % LEADING, 2 * LEADING, p);
      MovesTwo(LEADING, p);
      assert Pow2(m / LEADING) == 2 * p;
    }
  }

  lemma SizeAbove(m: nat)
    requires m / LEADING > 0
    ensures LEADING * Pow2(m / LEADING - 1) <= Size(m)
  {
    Distributes(LEADING, m % LEADING, Pow2(m / LEADING - 1));
  }

  /** Larger bits stand for a larger number. */
  lemma SizeGrows(m: nat, n: nat)
    requires m < n
    ensures Size(m) < Size(n)
  {
    var d, e := m / LEADING, n / LEADING;
    assert d <= e;
    if d == e {
      if d > 0 { Scales(LEADING + m % LEADING, LEADING + n % LEADING, Pow2(d - 1)); }
    } else {
      SizeBelow(m);
      SizeAbove(n);
      Pow2Grows(d, e - 1);
      assert LEADING * Pow2(d) <= LEADING * Pow2(e - 1);
    }
  }

  lemma NothingIsZero()
    ensures Size(0) == 0
  {
  }

  /** Numbers are equal when their bits are, or when both are zeros. */
  lemma ValueDetermines(x: Float64, y: Float64)
    requires IsFinite(x) && IsFinite(y)
    ensures Value(x) == Value(y) <==> x == y || (x in {0, SIGN} && y in {0, SIGN})
  {
    var m, n := if x < SIGN then x else x - SIGN, if y < SIGN then y else y - SIGN;
    NothingIsZero();
    if m < n { SizeGrows(m, n); }
    if n < m { SizeGrows(n, m); }
    if m > 0 { SizeGrows(0, m); }
    if n > 0 { SizeGrows(0, n); }
  }

  /** One is 2^1074 units. */
  function One(): nat { Pow2(UnitsOfOne()) }

  function UnitsOfOne(): nat { 1074 }

  lemma PowerOfTwo(m: nat, e: nat)
    requires m == (e + 1) * LEADING
    ensures Size(m) == Pow2(52 + e)
  {
    assert m / LEADING == e + 1 && m % LEADING == 0;
    assert Pow2(13) == 8192;
    Pow2Sum(13, 13);
    Pow2Sum(26, 26);
    Pow2Sum(52, e);
  }

  lemma OneIsOne(m: nat)
    requires m == ONE
    ensures Size(m) == One()
  {
    var n := UnitsOfOne();
    PowerOfTwo(m, n - 52);
    OneUnfolds(n);
  }

  lemma OneUnfolds(n: nat)
    requires n == UnitsOfOne()
    ensures One() == Pow2(n)
  {
  }

  /** The bits of the numbers from zero to one. */
  lemma UnitInterval(x: Float64)
    requires IsFinite(x)
    ensures !IsNegative(x) <==> Value(x) >= 0
    ensures x <= ONE || x == SIGN <==> 0 <= Value(x) <= One()
  {
    var one: nat := ONE;
    NothingIsZero();
    OneIsOne(one);
    if x < SIGN {
      if x < one { SizeGrows(x, one); }
      if one < x { SizeGrows(one, x); }
    } else if x > SIGN {
      SizeGrows(0, x - SIGN);
    }
  }
}

/** Arithmetic on reals. A product is a term of its own here, so that proofs can
    use its laws one at a time and leave its definition hidden. */
module RealArithmetic {
  function MaxReal(a: real, b: real): real { if a < b then b else a }

  function MinReal(a: real, b: real): real { if a < b then a else b }

  function AbsReal(a: real): real { if a < 0.0 then -a else a }

  /** The least whole number from x on. */
  function Ceil(x: real): (n: int)
    ensures x <= n as real < x + 1.0
  {
    -((-x).Floor)
  }

  function Map(f: real -> real, s: seq<real>): (r: seq<real>)
    ensures |r| == |s|
  {
    seq(|s|, i requires 0 <= i < |s| => f(s[i]))
  }

  /** Left-to-right sum, the order in which the loops accumulate. */
  function Sum(v: seq<real>): real {
    if |v| == 0 then 0.0 else Sum(v[..|v| - 1]) + v[|v| - 1]
  }

  function Times(a: real, b: real): real { a * b }

  lemma TimesSum(a: real, b: real, c: real)
    ensures Times(a + b, c) == Times(a, c) + Times(b, c)
    ensures Times(c, a + b) == Times(c, a) + Times(c, b)
  {
  }

  lemma TimesSwaps(a: real, b: real)
    ensures Times(a, b) == Times(b, a)
  {
  }

  lemma TimesGroups(a: real, b: real, c: real)
    ensures Times(Times(a, b), c) == Times(a, Times(b, c))
  {
  }

  lemma TimesNonNegative(a: real, b: real)
    requires a >= 0.0 && b >= 0.0
    ensures Times(a, b) >= 0.0
  {
  }

  lemma TimesOrdered(a: real, b: real, c: real)
    requires a <= b && c >= 0.0
    ensures Times(a, c) <= Times(b, c) && Times(c, a) <= Times(c, b)
  {
    hide Times;
    TimesNonNegative(b - a, c);
    TimesSum(b - a, a, c);
    TimesSwaps(a, c);
    TimesSwaps(b, c);
  }

  lemma TimesAbs(a: real, b: real)
    ensures AbsReal(Times(a, b)) == Times(AbsReal(a), AbsReal(b))
  {
    if a >= 0.0 {
      if b >= 0.0 { TimesNonNegative(a, b); } else { TimesNonNegative(a, -b); }
    } else {
      if b >= 0.0 { TimesNonNegative(-a, b); } else { TimesNonNegative(-a, -b); }
    }
  }

  lemma TimesConstants(a: real)
    ensures Times(a, 0.0) == 0.0 && Times(0.0, a) == 0.0 && Times(1.0, a) == a && Times(a, 1.0) == a
            && Times(2.0, a) == a + a
  {
  }

  lemma TimesMinus(k: real, a: real)
    ensures Times(k, -a) == -Times(k, a)
  {
  }

  lemma MinusOne(a: real)
    ensures Times(-1.0, a) == -a
  {
  }

  lemma StrictlyLess(a: real, b: real, m: real)
    requires a < b && m > 0.0
    ensures Times(m, a) < Times(m, b)
  {
    assert m * b - m * a == m * (b - a);
  }

  lemma TimesPositive(a: real, b: real)
    requires a > 0.0 && b > 0.0
    ensures Times(a, b) > 0.0
  {
  }

  lemma TimesGrows(a: real, m: real)
    requires a > 0.0 && m > 1.0
    ensures Times(a, m) > a
  {
    TimesPositive(a, m - 1.0);
    assert a * m == a + a * (m - 1.0);
  }
}

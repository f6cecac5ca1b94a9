/** Derivatives at zero of real functions, by epsilon and delta, and the rules
    that the recurrent network's forward pass needs. */
module Calculus {
  import opened RealArithmetic

  /** What is left of f after its line of slope d. */
  function Remainder(f: real -> real, d: real, t: real): real { f(t) - f(0.0) - Times(d, t) }

  ghost predicate Within(f: real -> real, d: real, eps: real, delta: real) {
    forall t: real :: AbsReal(t) < delta ==> AbsReal(Remainder(f, d, t)) <= Times(eps, AbsReal(t))
  }

  ghost predicate Near(f: real -> real, d: real, eps: real) {
    exists delta: real :: delta > 0.0 && Within(f, d, eps, delta)
  }

  /** f is differentiable at zero with derivative d. */
  ghost predicate HasSlope(f: real -> real, d: real) {
    forall eps: real :: eps > 0.0 ==> Near(f, d, eps)
  }

  function Shifted(s: real -> real, x: real): real -> real { h => s(x + h) }

  /** s is differentiable at x with derivative d. */
  ghost predicate HasSlopeAt(s: real -> real, x: real, d: real) {
    HasSlope(Shifted(s, x), d)
  }

  /** eps / m, as a factor. */
  function Part(eps: real, m: real): (p: real)
    requires eps > 0.0 && m > 0.0
    ensures p > 0.0
  {
    eps / m
  }

  lemma PartTimes(eps: real, m: real)
    requires eps > 0.0 && m > 0.0
    ensures Times(Part(eps, m), m) == eps && Times(m, Part(eps, m)) == eps
  {
  }

  // ----- rules

  lemma SameSlope(f: real -> real, g: real -> real, d: real)
    requires HasSlope(f, d) && forall t :: f(t) == g(t)
    ensures HasSlope(g, d)
  {
    hide Times;
    forall eps: real | eps > 0.0 ensures Near(g, d, eps) {
      assert Near(f, d, eps);
      var delta: real :| delta > 0.0 && Within(f, d, eps, delta);
      assert Within(g, d, eps, delta);
    }
  }

  /** A positive point where two approximations both hold. */
  lemma BothWithin(f: real -> real, d: real, e: real, eps: real) returns (t: real)
    requires eps > 0.0 && HasSlope(f, d) && HasSlope(f, e)
    ensures t > 0.0 && AbsReal(Remainder(f, d, t)) <= Times(eps, t) && AbsReal(Remainder(f, e, t)) <= Times(eps, t)
  {
    hide Times, Remainder;
    assert Near(f, d, eps) && Near(f, e, eps);
    var a: real :| a > 0.0 && Within(f, d, eps, a);
    var b: real :| b > 0.0 && Within(f, e, eps, b);
    t := MinReal(a, b) / 2.0;
    assert AbsReal(t) == t;
  }

  /** A function has one derivative at most. */
  lemma SlopeIsUnique(f: real -> real, d: real, e: real)
    requires HasSlope(f, d) && HasSlope(f, e)
    ensures d == e
  {
    if d != e {
      var gap := AbsReal(d - e);
      var t := BothWithin(f, d, e, gap / 3.0);
      SlopesDiffer(d, e, t, gap);
    }
  }

  lemma SlopesDiffer(d: real, e: real, t: real, gap: real)
    requires t > 0.0 && gap == AbsReal(d - e) > 0.0
    ensures AbsReal(Times(d, t) - Times(e, t)) == Times(gap, t) > 2.0 * Times(gap / 3.0, t)
  {
    assert Times(gap / 3.0, t) == Times(gap, t) / 3.0;
    assert Times(gap, t) > 0.0;
    if d > e {
      assert Times(d - e, t) == Times(d, t) - Times(e, t);
    } else {
      assert Times(e - d, t) == Times(e, t) - Times(d, t);
    }
  }

  lemma LineSlope(f: real -> real, a: real, b: real)
    requires forall t :: f(t) == a + Times(b, t)
    ensures HasSlope(f, b)
  {
    hide Times;
    TimesConstants(b);
    forall eps: real | eps > 0.0 ensures Near(f, b, eps) {
      forall t: real | AbsReal(t) < 1.0 ensures AbsReal(Remainder(f, b, t)) <= Times(eps, AbsReal(t)) {
        TimesNonNegative(eps, AbsReal(t));
      }
      assert Within(f, b, eps, 1.0);
    }
  }

  lemma ConstantSlope(f: real -> real, a: real)
    requires forall t :: f(t) == a
    ensures HasSlope(f, 0.0)
  {
    hide Times;
    forall t ensures f(t) == a + Times(0.0, t) { TimesConstants(t); }
    LineSlope(f, a, 0.0);
  }

  lemma SumRemainder(f: real -> real, g: real -> real, h: real -> real, d: real, e: real, t: real)
    requires forall t :: h(t) == f(t) + g(t)
    ensures Remainder(h, d + e, t) == Remainder(f, d, t) + Remainder(g, e, t)
  {
    hide Times;
    TimesSum(d, e, t);
  }

  lemma SumSlope(f: real -> real, g: real -> real, h: real -> real, d: real, e: real)
    requires HasSlope(f, d) && HasSlope(g, e) && forall t :: h(t) == f(t) + g(t)
    ensures HasSlope(h, d + e)
  {
    hide Times, Remainder;
    var slope := d + e;
    forall eps: real | eps > 0.0 ensures Near(h, slope, eps) {
      var half := eps / 2.0;
      assert Near(f, d, half) && Near(g, e, half);
      var a: real :| a > 0.0 && Within(f, d, half, a);
      var b: real :| b > 0.0 && Within(g, e, half, b);
      var delta := MinReal(a, b);
      forall t: real | AbsReal(t) < delta ensures AbsReal(Remainder(h, slope, t)) <= Times(eps, AbsReal(t)) {
        SumRemainder(f, g, h, d, e, t);
        TimesSum(half, half, AbsReal(t));
      }
      assert Within(h, slope, eps, delta);
    }
  }

  /** The remainder of a composition, split at the inner increment. */
  lemma ChainRemainder(s: real -> real, f: real -> real, c: real -> real, k: real, d: real, t: real)
    requires forall t :: c(t) == s(f(t))
    ensures var x := f(0.0); var h := f(t) - x;
            Remainder(c, Times(k, d), t) == Remainder(Shifted(s, x), k, h) + Times(k, Remainder(f, d, t))
  {
    hide Times;
    var x := f(0.0);
    var h := f(t) - x;
    assert x + h == f(t) && x + 0.0 == x;
    TimesGroups(k, d, t);
    TimesSum(h, -Times(d, t), k);
    TimesMinus(k, Times(d, t));
  }

  /** How far the inner function moves. */
  lemma IncrementBound(f: real -> real, d: real, t: real, e: real)
    requires e <= 1.0 && AbsReal(Remainder(f, d, t)) <= Times(e, AbsReal(t))
    ensures AbsReal(f(t) - f(0.0)) <= Times(AbsReal(d) + 1.0, AbsReal(t))
  {
    hide Times;
    TimesOrdered(e, 1.0, AbsReal(t));
    TimesSum(AbsReal(d), 1.0, AbsReal(t));
    TimesAbs(d, t);
  }

  /** The two parts of the remainder, each at most half of eps * |t|. */
  lemma ChainBound(k: real, d: real, eps: real, t: real, h: real, outer: real, inner: real, e1: real, e2: real)
    requires eps > 0.0 && e1 == Part(eps / 2.0, AbsReal(d) + 1.0) && e2 <= Part(eps / 2.0, AbsReal(k) + 1.0) && e2 > 0.0
    requires AbsReal(h) <= Times(AbsReal(d) + 1.0, AbsReal(t))
    requires AbsReal(outer) <= Times(e1, AbsReal(h)) && AbsReal(inner) <= Times(e2, AbsReal(t))
    ensures AbsReal(outer + Times(k, inner)) <= Times(eps, AbsReal(t))
  {
    hide Times, Part;
    var half := eps / 2.0;
    TimesOrdered(AbsReal(h), Times(AbsReal(d) + 1.0, AbsReal(t)), e1);
    TimesGroups(e1, AbsReal(d) + 1.0, AbsReal(t));
    PartTimes(half, AbsReal(d) + 1.0);
    assert AbsReal(outer) <= Times(half, AbsReal(t));

    TimesAbs(k, inner);
    TimesOrdered(AbsReal(k), AbsReal(k) + 1.0, AbsReal(inner));
    TimesOrdered(AbsReal(inner), Times(e2, AbsReal(t)), AbsReal(k) + 1.0);
    TimesOrdered(e2, Part(half, AbsReal(k) + 1.0), AbsReal(t));
    TimesOrdered(Times(e2, AbsReal(t)), Times(Part(half, AbsReal(k) + 1.0), AbsReal(t)), AbsReal(k) + 1.0);
    TimesGroups(AbsReal(k) + 1.0, Part(half, AbsReal(k) + 1.0), AbsReal(t));
    PartTimes(half, AbsReal(k) + 1.0);
    assert AbsReal(Times(k, inner)) <= Times(half, AbsReal(t));
    TimesSum(half, half, AbsReal(t));
  }

  lemma ChainSlope(s: real -> real, f: real -> real, c: real -> real, k: real, d: real)
    requires HasSlopeAt(s, f(0.0), k) && HasSlope(f, d) && forall t :: c(t) == s(f(t))
    ensures HasSlope(c, Times(k, d))
  {
    hide Times, Remainder, Part, Shifted;
    var x := f(0.0);
    forall eps: real | eps > 0.0 ensures Near(c, Times(k, d), eps) {
      var e1 := Part(eps / 2.0, AbsReal(d) + 1.0);
      var e2 := MinReal(1.0, Part(eps / 2.0, AbsReal(k) + 1.0));
      assert Near(Shifted(s, x), k, e1) && Near(f, d, e2);
      var a: real :| a > 0.0 && Within(Shifted(s, x), k, e1, a);
      var b: real :| b > 0.0 && Within(f, d, e2, b);
      var delta := MinReal(b, Part(a, AbsReal(d) + 1.0));
      forall t: real | AbsReal(t) < delta ensures AbsReal(Remainder(c, Times(k, d), t)) <= Times(eps, AbsReal(t)) {
        var h := f(t) - x;
        IncrementBound(f, d, t, e2);
        StaysInside(AbsReal(d) + 1.0, a, AbsReal(t), AbsReal(h));
        ChainRemainder(s, f, c, k, d, t);
        ChainBound(k, d, eps, t, h, Remainder(Shifted(s, x), k, h), Remainder(f, d, t), e1, e2);
      }
      assert Within(c, Times(k, d), eps, delta);
    }
  }

  lemma StaysInside(m: real, a: real, t: real, h: real)
    requires m >= 1.0 && a > 0.0 && 0.0 <= t < Part(a, m) && h <= Times(m, t)
    ensures h < a
  {
    PartTimes(a, m);
    StrictlyLess(t, Part(a, m), m);
  }

  // ----- products, through squares

  function Square(): real -> real { x => Times(x, x) }

  lemma SquareSlope(x: real)
    ensures HasSlopeAt(Square(), x, Times(2.0, x))
  {
    hide Times;
    var f := Shifted(Square(), x);
    forall eps: real | eps > 0.0 ensures Near(f, Times(2.0, x), eps) {
      forall t: real | AbsReal(t) < eps ensures AbsReal(Remainder(f, Times(2.0, x), t)) <= Times(eps, AbsReal(t)) {
        SquareRemainder(x, t);
        TimesAbs(t, t);
        TimesOrdered(AbsReal(t), eps, AbsReal(t));
      }
      assert Within(f, Times(2.0, x), eps, eps);
    }
  }

  lemma SquareRemainder(x: real, t: real)
    ensures Remainder(Shifted(Square(), x), Times(2.0, x), t) == Times(t, t)
  {
    assert (x + t) * (x + t) == x * x + 2.0 * x * t + t * t;
  }

  lemma ScaleSlope(f: real -> real, g: real -> real, k: real, d: real)
    requires HasSlope(f, d) && forall t :: g(t) == Times(k, f(t))
    ensures HasSlope(g, Times(k, d))
  {
    hide Times;
    var s := x => Times(k, x);
    var x := f(0.0);
    forall t ensures Shifted(s, x)(t) == Times(k, x) + Times(k, t) { TimesSum(x, t, k); }
    LineSlope(Shifted(s, x), Times(k, x), k);
    ChainSlope(s, f, g, k, d);
  }

  lemma SquaredSlope(f: real -> real, g: real -> real, d: real)
    requires HasSlope(f, d) && forall t :: g(t) == Times(f(t), f(t))
    ensures HasSlope(g, Times(Times(2.0, f(0.0)), d))
  {
    hide Times;
    SquareSlope(f(0.0));
    ChainSlope(Square(), f, g, Times(2.0, f(0.0)), d);
  }

  /** A product is the first of these plus the second. */
  function SumPart(a: real, b: real): real { Times(0.25, Times(a + b, a + b)) }

  function DifferencePart(a: real, b: real): real { Times(-0.25, Times(a - b, a - b)) }

  lemma Polarized(a: real, b: real)
    ensures Times(a, b) == SumPart(a, b) + DifferencePart(a, b)
  {
    assert (a + b) * (a + b) == a * a + 2.0 * a * b + b * b;
    assert (a - b) * (a - b) == a * a - 2.0 * a * b + b * b;
  }

  /** The slopes of the two parts, from values a, b and slopes d, e. */
  function SumPartRate(a: real, b: real, d: real, e: real): real { Times(0.25, Times(Times(2.0, a + b), d + e)) }

  function DifferencePartRate(a: real, b: real, d: real, e: real): real {
    Times(-0.25, Times(Times(2.0, a - b), d - e))
  }

  function ProductRate(a: real, b: real, d: real, e: real): real { Times(d, b) + Times(a, e) }

  lemma PolarizedSlope(a: real, b: real, d: real, e: real)
    ensures SumPartRate(a, b, d, e) + DifferencePartRate(a, b, d, e) == ProductRate(a, b, d, e)
  {
    assert (a + b) * (d + e) == a * d + a * e + b * d + b * e;
    assert (a - b) * (d - e) == a * d - a * e - b * d + b * e;
  }

  lemma NegatedSlope(g: real -> real, minus: real -> real, e: real)
    requires HasSlope(g, e) && forall t :: minus(t) == -g(t)
    ensures HasSlope(minus, -e)
  {
    hide Times, HasSlope;
    MinusOne(e);
    forall t ensures minus(t) == Times(-1.0, g(t)) { MinusOne(g(t)); }
    ScaleSlope(g, minus, -1.0, e);
  }

  lemma DifferenceSlope(f: real -> real, g: real -> real, h: real -> real, d: real, e: real)
    requires HasSlope(f, d) && HasSlope(g, e) && forall t :: h(t) == f(t) - g(t)
    ensures HasSlope(h, d - e)
  {
    hide Times, HasSlope;
    var minus := t => -g(t);
    NegatedSlope(g, minus, e);
    SumSlope(f, minus, h, d, -e);
    assert d + -e == d - e;
  }

  lemma ScaledSquareSlope(f: real -> real, g: real -> real, k: real, d: real)
    requires HasSlope(f, d) && forall t :: g(t) == Times(k, Times(f(t), f(t)))
    ensures HasSlope(g, Times(k, Times(Times(2.0, f(0.0)), d)))
  {
    hide Times, HasSlope;
    var square := t => Times(f(t), f(t));
    SquaredSlope(f, square, d);
    ScaleSlope(square, g, k, Times(Times(2.0, f(0.0)), d));
  }

  lemma SumPartSlope(f: real -> real, g: real -> real, p: real -> real, d: real, e: real)
    requires HasSlope(f, d) && HasSlope(g, e) && forall t :: p(t) == SumPart(f(t), g(t))
    ensures HasSlope(p, SumPartRate(f(0.0), g(0.0), d, e))
  {
    hide Times, HasSlope;
    var sum := t => f(t) + g(t);
    SumSlope(f, g, sum, d, e);
    ScaledSquareSlope(sum, p, 0.25, d + e);
  }

  lemma DifferencePartSlope(f: real -> real, g: real -> real, q: real -> real, d: real, e: real)
    requires HasSlope(f, d) && HasSlope(g, e) && forall t :: q(t) == DifferencePart(f(t), g(t))
    ensures HasSlope(q, DifferencePartRate(f(0.0), g(0.0), d, e))
  {
    hide Times, HasSlope;
    var difference := t => f(t) - g(t);
    DifferenceSlope(f, g, difference, d, e);
    ScaledSquareSlope(difference, q, -0.25, d - e);
  }

  lemma PartsMakeTheProduct(f: real -> real, g: real -> real, h: real -> real, p: real -> real, q: real -> real)
    requires forall t :: h(t) == Times(f(t), g(t))
    requires forall t :: p(t) == SumPart(f(t), g(t))
    requires forall t :: q(t) == DifferencePart(f(t), g(t))
    ensures forall t :: h(t) == p(t) + q(t)
  {
    hide *;
    forall t ensures h(t) == p(t) + q(t) { Polarized(f(t), g(t)); }
  }

  lemma SumSlopeIs(f: real -> real, g: real -> real, h: real -> real, d: real, e: real, c: real)
    requires HasSlope(f, d) && HasSlope(g, e) && c == d + e && forall t :: h(t) == f(t) + g(t)
    ensures HasSlope(h, c)
  {
    hide *;
    SumSlope(f, g, h, d, e);
  }

  lemma ProductSlope(f: real -> real, g: real -> real, h: real -> real, d: real, e: real)
    requires HasSlope(f, d) && HasSlope(g, e) && forall t :: h(t) == Times(f(t), g(t))
    ensures HasSlope(h, ProductRate(f(0.0), g(0.0), d, e))
  {
    hide *;
    var p := t => SumPart(f(t), g(t));
    var q := t => DifferencePart(f(t), g(t));
    SumPartSlope(f, g, p, d, e);
    DifferencePartSlope(f, g, q, d, e);
    PartsMakeTheProduct(f, g, h, p, q);
    PolarizedSlope(f(0.0), g(0.0), d, e);
    SumSlopeIs(p, q, h, SumPartRate(f(0.0), g(0.0), d, e), DifferencePartRate(f(0.0), g(0.0), d, e),
               ProductRate(f(0.0), g(0.0), d, e));
  }
}

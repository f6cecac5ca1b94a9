/** The tangents of Gru.dfy are derivatives: along every line through the
    weights, the output of the forward pass is differentiable with exactly the
    slope that the backward pass accumulates. */
module GruDerivative {
  import opened RealArithmetic
  import opened Vectors
  import opened Calculus
  import opened Gru

  // ----- curves of vectors

  function At(v: Vec, i: int): real { if 0 <= i < |v| then v[i] else 0.0 }

  function Coordinate(c: real -> Vec, i: int): real -> real { t => At(c(t), i) }

  /** Every coordinate of the curve is differentiable at zero. */
  ghost predicate VecSlope(c: real -> Vec, n: nat, d: Vec) {
    && (forall t :: |c(t)| == n)
    && |d| == n
    && (forall i :: 0 <= i < n ==> HasSlope(Coordinate(c, i), d[i]))
  }

  lemma SumVec(a: real -> Vec, b: real -> Vec, c: real -> Vec, n: nat, da: Vec, db: Vec)
    requires VecSlope(a, n, da) && VecSlope(b, n, db)
    requires forall t :: c(t) == Add(a(t), b(t))
    ensures VecSlope(c, n, Add(da, db))
  {
    hide HasSlope;
    forall i | 0 <= i < n ensures HasSlope(Coordinate(c, i), Add(da, db)[i]) {
      Calculus.SumSlope(Coordinate(a, i), Coordinate(b, i), Coordinate(c, i), da[i], db[i]);
    }
  }

  lemma MulAt(a: Vec, b: Vec, i: nat)
    requires |a| == |b| && i < |a|
    ensures At(Mul(a, b), i) == Times(At(a, i), At(b, i)) == Mul(a, b)[i]
  {
  }

  /** The product rule, coordinate by coordinate. */
  function ProductTangent(a: Vec, b: Vec, da: Vec, db: Vec): (v: Vec)
    requires |a| == |b| == |da| == |db|
    ensures |v| == |a|
  {
    Add(Mul(da, b), Mul(a, db))
  }

  lemma ProductVec(a: real -> Vec, b: real -> Vec, c: real -> Vec, n: nat, da: Vec, db: Vec)
    requires VecSlope(a, n, da) && VecSlope(b, n, db)
    requires forall t :: c(t) == Mul(a(t), b(t))
    ensures VecSlope(c, n, ProductTangent(a(0.0), b(0.0), da, db))
  {
    hide HasSlope, Times, Mul;
    var tangent := ProductTangent(a(0.0), b(0.0), da, db);
    forall i | 0 <= i < n ensures HasSlope(Coordinate(c, i), tangent[i]) {
      forall t ensures Coordinate(c, i)(t) == Times(Coordinate(a, i)(t), Coordinate(b, i)(t)) { MulAt(a(t), b(t), i); }
      ProductSlope(Coordinate(a, i), Coordinate(b, i), Coordinate(c, i), da[i], db[i]);
      MulAt(da, b(0.0), i);
      MulAt(a(0.0), db, i);
    }
  }

  lemma MapVec(s: real -> real, a: real -> Vec, c: real -> Vec, n: nat, da: Vec, rates: Vec)
    requires VecSlope(a, n, da) && |rates| == n
    requires forall i :: 0 <= i < n ==> HasSlopeAt(s, a(0.0)[i], rates[i])
    requires forall t :: c(t) == Map(s, a(t))
    ensures VecSlope(c, n, Mul(rates, da))
  {
    hide HasSlope, Times, HasSlopeAt, Mul;
    forall i | 0 <= i < n ensures HasSlope(Coordinate(c, i), Mul(rates, da)[i]) {
      ChainSlope(s, Coordinate(a, i), Coordinate(c, i), rates[i], da[i]);
      MulAt(rates, da, i);
    }
  }

  lemma ConstantVec(c: real -> Vec, v: Vec)
    requires forall t :: c(t) == v
    ensures VecSlope(c, |v|, Zeros(|v|))
  {
    hide HasSlope;
    forall i | 0 <= i < |v| ensures HasSlope(Coordinate(c, i), Zeros(|v|)[i]) {
      ConstantSlope(Coordinate(c, i), v[i]);
    }
  }

  function Line(v: Vec, d: Vec): real -> Vec
    requires |v| == |d|
  {
    t => Add(v, Scale(t, d))
  }

  lemma Swapped(t: real, d: real)
    ensures t * d == Times(d, t)
  {
  }

  lemma LineAt(v: Vec, d: Vec, t: real, i: nat)
    requires |v| == |d| && i < |v|
    ensures Coordinate(Line(v, d), i)(t) == v[i] + Times(d[i], t)
  {
    hide Times;
    var point := Line(v, d)(t);
    assert point == Add(v, Scale(t, d));
    assert point[i] == v[i] + Scale(t, d)[i];
    assert Scale(t, d)[i] == t * d[i];
    Swapped(t, d[i]);
    assert Coordinate(Line(v, d), i)(t) == At(point, i);
  }

  lemma LineVec(v: Vec, d: Vec)
    requires |v| == |d|
    ensures VecSlope(Line(v, d), |v|, d)
    ensures Line(v, d)(0.0) == v
  {
    hide HasSlope, Times, Line, Coordinate;
    LineLength(v, d);
    forall i | 0 <= i < |v| ensures HasSlope(Coordinate(Line(v, d), i), d[i]) {
      forall t ensures Coordinate(Line(v, d), i)(t) == v[i] + Times(d[i], t) { LineAt(v, d, t, i); }
      LineSlope(Coordinate(Line(v, d), i), v[i], d[i]);
    }
    StartOfLine(v, d);
  }

  lemma LineLength(v: Vec, d: Vec)
    requires |v| == |d|
    ensures forall t :: |Line(v, d)(t)| == |v|
  {
  }

  lemma StartOfLine(v: Vec, d: Vec)
    requires |v| == |d|
    ensures Add(v, Scale(0.0, d)) == v && Line(v, d)(0.0) == v
  {
  }

  // ----- sums and inner products

  function Shorter(c: real -> Vec, n: nat): real -> Vec
    requires forall t :: |c(t)| == n + 1
  {
    t => c(t)[..n]
  }

  lemma {:induction false} TotalSlope(c: real -> Vec, f: real -> real, n: nat, d: Vec)
    requires VecSlope(c, n, d) && forall t :: f(t) == Sum(c(t))
    ensures HasSlope(f, Sum(d))
  {
    hide HasSlope, Coordinate;
    if n == 0 {
      forall t ensures f(t) == 0.0 { assert |c(t)| == 0; }
      ConstantSlope(f, 0.0);
    } else {
      var rest := Shorter(c, n - 1);
      var g := t => Sum(rest(t));
      ShorterSlope(c, n - 1, d);
      TotalSlope(rest, g, n - 1, d[..n - 1]);
      LastTerm(c, f, g, n - 1, d);
    }
  }

  lemma ShorterAt(v: Vec, m: nat, i: nat)
    requires |v| == m + 1 && i < m
    ensures At(v, i) == At(v[..m], i)
  {
  }

  lemma ShorterSlope(c: real -> Vec, m: nat, d: Vec)
    requires VecSlope(c, m + 1, d)
    ensures VecSlope(Shorter(c, m), m, d[..m])
  {
    hide HasSlope;
    var rest := Shorter(c, m);
    forall i | 0 <= i < m ensures HasSlope(Coordinate(rest, i), d[..m][i]) {
      forall t ensures Coordinate(c, i)(t) == Coordinate(rest, i)(t) {
        assert |c(t)| == m + 1;
        ShorterAt(c(t), m, i);
      }
      SameSlope(Coordinate(c, i), Coordinate(rest, i), d[i]);
    }
  }

  lemma SumLast(v: Vec, m: nat)
    requires |v| == m + 1
    ensures Sum(v) == Sum(v[..m]) + At(v, m) && At(v, m) == v[m]
  {
  }

  lemma LastTerm(c: real -> Vec, f: real -> real, g: real -> real, m: nat, d: Vec)
    requires VecSlope(c, m + 1, d) && HasSlope(g, Sum(d[..m]))
    requires forall t :: f(t) == Sum(c(t))
    requires forall t :: g(t) == Sum(Shorter(c, m)(t))
    ensures HasSlope(f, Sum(d))
  {
    hide *;
    HasLength(c, m + 1, d);
    SumLast(d, m);
    LastTerms(c, f, g, m);
    SumSlopeIs(g, Coordinate(c, m), f, Sum(d[..m]), d[m], Sum(d));
  }

  lemma HasLength(c: real -> Vec, n: nat, d: Vec)
    requires VecSlope(c, n, d)
    ensures |d| == n && (forall t :: |c(t)| == n) && forall i :: 0 <= i < n ==> HasSlope(Coordinate(c, i), d[i])
  {
  }

  lemma LastTerms(c: real -> Vec, f: real -> real, g: real -> real, m: nat)
    requires forall t :: |c(t)| == m + 1
    requires forall t :: f(t) == Sum(c(t))
    requires forall t :: g(t) == Sum(Shorter(c, m)(t))
    ensures forall t :: f(t) == g(t) + Coordinate(c, m)(t)
  {
    hide Sum;
    forall t ensures f(t) == g(t) + Coordinate(c, m)(t) { SumLast(c(t), m); }
  }

  function ProductCurve(a: real -> Vec, b: real -> Vec, n: nat): real -> Vec
    requires forall t :: |a(t)| == n && |b(t)| == n
  {
    t => Mul(a(t), b(t))
  }

  lemma InnerSlope(a: real -> Vec, b: real -> Vec, f: real -> real, n: nat, da: Vec, db: Vec)
    requires VecSlope(a, n, da) && VecSlope(b, n, db)
    requires forall t :: f(t) == Inner(a(t), b(t))
    ensures HasSlope(f, Inner(da, b(0.0)) + Inner(a(0.0), db))
  {
    hide HasSlope, Mul, Sum;
    var c := ProductCurve(a, b, n);
    ProductVec(a, b, c, n, da, db);
    TotalSlope(c, f, n, ProductTangent(a(0.0), b(0.0), da, db));
    SumAdd(Mul(da, b(0.0)), Mul(a(0.0), db));
  }

  // ----- weights along a line

  function GateAlong(g: Gate, d: Gate, inputs: nat, n: nat, t: real): (r: Gate)
    requires GateShape(g, inputs, n) && GateShape(d, inputs, n)
    ensures GateShape(r, inputs, n)
  {
    AddGate(g, Gate(ScaleMat(t, d.input, n, inputs), ScaleMat(t, d.hidden, n, n), Scale(t, d.bias)), inputs, n)
  }

  function ScaleMat(t: real, m: Mat, rows: nat, cols: nat): (r: Mat)
    requires IsMat(m, rows, cols)
    ensures IsMat(r, rows, cols)
  {
    seq(rows, i requires 0 <= i < rows => Scale(t, m[i]))
  }

  /** The weights w + t d. */
  function Along(w: Weights, d: Weights, inputs: nat, n: nat, t: real): (r: Weights)
    requires Shape(w, inputs, n) && Shape(d, inputs, n)
    ensures Shape(r, inputs, n)
  {
    Weights(GateAlong(w.update, d.update, inputs, n, t), GateAlong(w.reset, d.reset, inputs, n, t),
            GateAlong(w.state, d.state, inputs, n, t),
            Add(w.output, Scale(t, d.output)), w.outputBias + Times(d.outputBias, t))
  }

  lemma GateAtZero(g: Gate, d: Gate, inputs: nat, n: nat)
    requires GateShape(g, inputs, n) && GateShape(d, inputs, n)
    ensures GateAlong(g, d, inputs, n, 0.0) == g
  {
    hide Add, Scale;
    StartOfLine(g.bias, d.bias);
    forall i | 0 <= i < n
      ensures Add(g.input[i], Scale(0.0, d.input[i])) == g.input[i]
    {
      StartOfLine(g.input[i], d.input[i]);
    }
    forall i | 0 <= i < n
      ensures Add(g.hidden[i], Scale(0.0, d.hidden[i])) == g.hidden[i]
    {
      StartOfLine(g.hidden[i], d.hidden[i]);
    }
    var r := GateAlong(g, d, inputs, n, 0.0);
    assert r.input == g.input && r.hidden == g.hidden;
  }

  lemma AlongAtZero(w: Weights, d: Weights, inputs: nat, n: nat)
    requires Shape(w, inputs, n) && Shape(d, inputs, n)
    ensures Along(w, d, inputs, n, 0.0) == w
  {
    hide GateAlong, Times;
    GateAtZero(w.update, d.update, inputs, n);
    GateAtZero(w.reset, d.reset, inputs, n);
    GateAtZero(w.state, d.state, inputs, n);
    StartOfLine(w.output, d.output);
    TimesConstants(d.outputBias);
  }

  // ----- one gate

  /** Coordinate i of the pre-activation on the line. */
  lemma AffineRow(g: Gate, d: Gate, x: Vec, z: Vec, t: real, i: nat)
    requires GateShape(g, |x|, |z|) && GateShape(d, |x|, |z|) && i < |z|
    ensures At(Affine(GateAlong(g, d, |x|, |z|, t), x, z), i)
         == Coordinate(Line(g.bias, d.bias), i)(t)
           + (Inner(Line(g.input[i], d.input[i])(t), x) + Inner(Line(g.hidden[i], d.hidden[i])(t), z))
  {
    hide Inner, Add, Scale;
    var r := GateAlong(g, d, |x|, |z|, t);
    assert r.input[i] == Line(g.input[i], d.input[i])(t);
    assert r.hidden[i] == Line(g.hidden[i], d.hidden[i])(t);
    assert r.bias == Line(g.bias, d.bias)(t);
    AddTwice(r.bias, MatVec(r.input, x), MatVec(r.hidden, z), i);
  }

  lemma AddTwice(a: Vec, b: Vec, c: Vec, i: nat)
    requires |a| == |b| == |c| && i < |a|
    ensures Add(a, Add(b, c))[i] == a[i] + (b[i] + c[i])
  {
  }

  /** The inner product of a moving weight row with a fixed input. */
  lemma InputSlope(v: Vec, d: Vec, x: Vec, f: real -> real)
    requires |v| == |d| == |x| && forall t :: f(t) == Inner(Line(v, d)(t), x)
    ensures HasSlope(f, Inner(d, x))
  {
    hide HasSlope, Inner, Line;
    var still: real -> Vec := t => x;
    LineVec(v, d);
    ConstantVec(still, x);
    InnerSlope(Line(v, d), still, f, |x|, d, Zeros(|x|));
    InnerZeros(v);
  }

  lemma HiddenSlope(v: Vec, d: Vec, z: real -> Vec, dz: Vec, f: real -> real)
    requires |v| == |d| && VecSlope(z, |v|, dz) && forall t :: f(t) == Inner(Line(v, d)(t), z(t))
    ensures HasSlope(f, Inner(d, z(0.0)) + Inner(v, dz))
  {
    hide HasSlope, Inner, Line;
    LineVec(v, d);
    InnerSlope(Line(v, d), z, f, |v|, d, dz);
  }

  function AffineCurve(g: Gate, d: Gate, x: Vec, z: real -> Vec, n: nat): real -> Vec
    requires GateShape(g, |x|, n) && GateShape(d, |x|, n) && forall t :: |z(t)| == n
  {
    t => Affine(GateAlong(g, d, |x|, n, t), x, z(t))
  }

  function InputPart(v: Vec, d: Vec, x: Vec): real -> real
    requires |v| == |d| == |x|
  {
    t => Inner(Line(v, d)(t), x)
  }

  function HiddenPart(v: Vec, d: Vec, z: real -> Vec): real -> real
    requires |v| == |d| && forall t :: |z(t)| == |v|
  {
    t => Inner(Line(v, d)(t), z(t))
  }

  lemma AffineParts(g: Gate, d: Gate, x: Vec, z: real -> Vec, n: nat, i: nat)
    requires GateShape(g, |x|, n) && GateShape(d, |x|, n) && (forall t :: |z(t)| == n) && i < n
    ensures forall t :: Coordinate(AffineCurve(g, d, x, z, n), i)(t)
                     == Coordinate(Line(g.bias, d.bias), i)(t)
                       + (InputPart(g.input[i], d.input[i], x)(t) + HiddenPart(g.hidden[i], d.hidden[i], z)(t))
  {
    hide Inner, Affine, GateAlong, Line;
    forall t ensures Coordinate(AffineCurve(g, d, x, z, n), i)(t)
        == Coordinate(Line(g.bias, d.bias), i)(t)
          + (InputPart(g.input[i], d.input[i], x)(t) + HiddenPart(g.hidden[i], d.hidden[i], z)(t))
    {
      AffineRow(g, d, x, z(t), t, i);
    }
  }

  lemma TangentRow(g: Gate, d: Gate, x: Vec, z: Vec, dz: Vec, i: nat)
    requires GateShape(g, |x|, |z|) && GateShape(d, |x|, |z|) && |dz| == |z| && i < |z|
    ensures AffineTangent(g, d, x, z, dz)[i] == d.bias[i]
            + (Inner(d.input[i], x) + (Inner(d.hidden[i], z) + Inner(g.hidden[i], dz)))
  {
    hide Inner;
  }

  /** One coordinate of a gate's pre-activation. */
  lemma AffineSlope(g: Gate, d: Gate, x: Vec, z: real -> Vec, dz: Vec, n: nat, i: nat)
    requires GateShape(g, |x|, n) && GateShape(d, |x|, n) && VecSlope(z, n, dz) && i < n
    ensures HasSlope(Coordinate(AffineCurve(g, d, x, z, n), i), AffineTangent(g, d, x, z(0.0), dz)[i])
  {
    hide HasSlope, Inner, Line, AffineCurve, AffineTangent, Coordinate, InputPart, HiddenPart;
    var bias, a, b := Coordinate(Line(g.bias, d.bias), i), InputPart(g.input[i], d.input[i], x),
      HiddenPart(g.hidden[i], d.hidden[i], z);
    LineVec(g.bias, d.bias);
    PartSlopes(g.input[i], d.input[i], g.hidden[i], d.hidden[i], x, z, dz);
    AffineParts(g, d, x, z, n, i);
    TangentRow(g, d, x, z(0.0), dz, i);
    SumOfThree(bias, a, b, Coordinate(AffineCurve(g, d, x, z, n), i), d.bias[i], Inner(d.input[i], x),
               Inner(d.hidden[i], z(0.0)) + Inner(g.hidden[i], dz), AffineTangent(g, d, x, z(0.0), dz)[i]);
  }

  lemma PartSlopes(v: Vec, dv: Vec, u: Vec, du: Vec, x: Vec, z: real -> Vec, dz: Vec)
    requires |v| == |dv| == |x| && |u| == |du| && VecSlope(z, |u|, dz)
    ensures HasSlope(InputPart(v, dv, x), Inner(dv, x))
    ensures HasSlope(HiddenPart(u, du, z), Inner(du, z(0.0)) + Inner(u, dz))
  {
    hide HasSlope, Inner, Line, Coordinate;
    InputSlope(v, dv, x, InputPart(v, dv, x));
    HiddenSlope(u, du, z, dz, HiddenPart(u, du, z));
  }

  lemma SumOfThree(a: real -> real, b: real -> real, c: real -> real, f: real -> real, da: real, db: real, dc: real,
                   d: real)
    requires HasSlope(a, da) && HasSlope(b, db) && HasSlope(c, dc) && d == da + (db + dc)
    requires forall t :: f(t) == a(t) + (b(t) + c(t))
    ensures HasSlope(f, d)
  {
    hide *;
    var both := t => b(t) + c(t);
    SumSlope(b, c, both, db, dc);
    SumSlopeIs(a, both, f, da, db + dc, d);
  }

  lemma AffineVec(g: Gate, d: Gate, x: Vec, z: real -> Vec, dz: Vec, n: nat)
    requires GateShape(g, |x|, n) && GateShape(d, |x|, n) && VecSlope(z, n, dz)
    ensures VecSlope(AffineCurve(g, d, x, z, n), n, AffineTangent(g, d, x, z(0.0), dz))
  {
    hide HasSlope, AffineTangent, Affine, GateAlong, Coordinate;
    forall i | 0 <= i < n
      ensures HasSlope(Coordinate(AffineCurve(g, d, x, z, n), i), AffineTangent(g, d, x, z(0.0), dz)[i])
    {
      AffineSlope(g, d, x, z, dz, n, i);
    }
  }

  // ----- activations

  function SigmoidRate(s: real): real { s * (1.0 - s) }

  function TanhRate(c: real): real { 1.0 - c * c }

  /** The activations are differentiable with the derivatives the backward pass
      uses, expressed in their own values. */
  ghost predicate Differentiable(act: Activations) {
    && (forall y :: HasSlopeAt(act.sigmoid, y, SigmoidRate(act.sigmoid(y))))
    && (forall y :: HasSlopeAt(act.tanh, y, TanhRate(act.tanh(y))))
  }

  function MapCurve(f: real -> real, a: real -> Vec): real -> Vec { t => Map(f, a(t)) }

  lemma SigmoidVec(act: Activations, a: real -> Vec, n: nat, da: Vec)
    requires Differentiable(act) && VecSlope(a, n, da)
    ensures VecSlope(MapCurve(act.sigmoid, a), n, Mul(SigmoidSlope(Map(act.sigmoid, a(0.0))), da))
  {
    hide HasSlope, HasSlopeAt, Coordinate;
    var rates := SigmoidSlope(Map(act.sigmoid, a(0.0)));
    forall i | 0 <= i < n ensures HasSlopeAt(act.sigmoid, a(0.0)[i], rates[i]) {
      assert rates[i] == SigmoidRate(act.sigmoid(a(0.0)[i]));
    }
    MapVec(act.sigmoid, a, MapCurve(act.sigmoid, a), n, da, rates);
  }

  lemma TanhVec(act: Activations, a: real -> Vec, n: nat, da: Vec)
    requires Differentiable(act) && VecSlope(a, n, da)
    ensures VecSlope(MapCurve(act.tanh, a), n, Mul(TanhSlope(Map(act.tanh, a(0.0))), da))
  {
    hide HasSlope, HasSlopeAt, Coordinate;
    var rates := TanhSlope(Map(act.tanh, a(0.0)));
    forall i | 0 <= i < n ensures HasSlopeAt(act.tanh, a(0.0)[i], rates[i]) {
      assert rates[i] == TanhRate(act.tanh(a(0.0)[i]));
    }
    MapVec(act.tanh, a, MapCurve(act.tanh, a), n, da, rates);
  }

  // ----- blending

  function BlendCurve(u: real -> Vec, p: real -> Vec, c: real -> Vec, n: nat): real -> Vec
    requires forall t :: |u(t)| == n && |p(t)| == n && |c(t)| == n
  {
    t => Blend(u(t), p(t), c(t))
  }

  function OneMinusCurve(u: real -> Vec): real -> Vec { t => OneMinus(u(t)) }

  function Negated(v: Vec): (r: Vec)
    ensures |r| == |v|
  {
    seq(|v|, i requires 0 <= i < |v| => -v[i])
  }

  lemma OneMinusAt(v: Vec, i: nat)
    requires i < |v|
    ensures At(OneMinus(v), i) == 1.0 - At(v, i)
  {
  }

  lemma OneMinusVec(u: real -> Vec, n: nat, du: Vec)
    requires VecSlope(u, n, du)
    ensures VecSlope(OneMinusCurve(u), n, Negated(du))
  {
    hide HasSlope;
    var one := t => 1.0;
    ConstantSlope(one, 1.0);
    forall i | 0 <= i < n ensures HasSlope(Coordinate(OneMinusCurve(u), i), Negated(du)[i]) {
      forall t ensures Coordinate(OneMinusCurve(u), i)(t) == one(t) - Coordinate(u, i)(t) {
        assert |u(t)| == n;
        OneMinusAt(u(t), i);
      }
      DifferenceSlope(one, Coordinate(u, i), Coordinate(OneMinusCurve(u), i), 0.0, du[i]);
      assert 0.0 - du[i] == -du[i];
    }
  }

  lemma BlendTangentIs(u: Vec, du: Vec, p: Vec, dp: Vec, c: Vec, dc: Vec)
    requires |u| == |du| == |p| == |dp| == |c| == |dc|
    ensures BlendTangent(u, du, p, dp, c, dc) ==
            Add(ProductTangent(OneMinus(u), p, Negated(du), dp), ProductTangent(u, c, du, dc))
  {
    var v := Add(ProductTangent(OneMinus(u), p, Negated(du), dp), ProductTangent(u, c, du, dc));
    forall i | 0 <= i < |u| ensures BlendTangent(u, du, p, dp, c, dc)[i] == v[i] {
      Regroup(u[i], du[i], p[i], dp[i], c[i], dc[i]);
    }
  }

  lemma Regroup(u: real, du: real, p: real, dp: real, c: real, dc: real)
    ensures (1.0 - u) * dp - du * p + du * c + u * dc == ((-du) * p + (1.0 - u) * dp) + (du * c + u * dc)
  {
    assert (-du) * p == -(du * p);
  }

  lemma BlendVec(u: real -> Vec, p: real -> Vec, c: real -> Vec, n: nat, du: Vec, dp: Vec, dc: Vec)
    requires VecSlope(u, n, du) && VecSlope(p, n, dp) && VecSlope(c, n, dc)
    ensures VecSlope(BlendCurve(u, p, c, n), n, BlendTangent(u(0.0), du, p(0.0), dp, c(0.0), dc))
  {
    hide HasSlope, Coordinate, Mul, Add, OneMinus, ProductTangent, BlendTangent;
    var one := OneMinusCurve(u);
    OneMinusVec(u, n, du);
    var a, b := ProductCurve(one, p, n), ProductCurve(u, c, n);
    ProductVec(one, p, a, n, Negated(du), dp);
    ProductVec(u, c, b, n, du, dc);
    SumVec(a, b, BlendCurve(u, p, c, n), n, ProductTangent(one(0.0), p(0.0), Negated(du), dp),
           ProductTangent(u(0.0), c(0.0), du, dc));
    BlendTangentIs(u(0.0), du, p(0.0), dp, c(0.0), dc);
  }

  // ----- one time step

  function GateCurve(f: real -> real, g: Gate, d: Gate, x: Vec, z: real -> Vec, n: nat): (c: real -> Vec)
    requires GateShape(g, |x|, n) && GateShape(d, |x|, n) && forall t :: |z(t)| == n
    ensures forall t :: |c(t)| == n
  {
    var a := AffineCurve(g, d, x, z, n);
    assert forall t :: |a(t)| == n;
    var c := MapCurve(f, a);
    assert forall t :: c(t) == Map(f, a(t));
    c
  }

  function StepCurve(act: Activations, w: Weights, d: Weights, x: Vec, p: real -> Vec, n: nat): (c: real -> Vec)
    requires Shape(w, |x|, n) && Shape(d, |x|, n) && forall t :: |p(t)| == n
    ensures forall t :: |c(t)| == n
  {
    var c := t => Step(act, Along(w, d, |x|, n, t), x, p(t)).hidden;
    assert forall t :: |c(t)| == n by {
      forall t ensures |c(t)| == n { assert |p(t)| == n; }
    }
    c
  }

  lemma GateStart(f: real -> real, g: Gate, d: Gate, x: Vec, z: real -> Vec, n: nat)
    requires GateShape(g, |x|, n) && GateShape(d, |x|, n) && forall t :: |z(t)| == n
    ensures AffineCurve(g, d, x, z, n)(0.0) == Affine(g, x, z(0.0))
    ensures GateCurve(f, g, d, x, z, n)(0.0) == Map(f, Affine(g, x, z(0.0)))
  {
    hide Affine, GateAlong, Map;
    GateAtZero(g, d, |x|, n);
  }

  lemma SigmoidGate(act: Activations, g: Gate, d: Gate, x: Vec, z: real -> Vec, dz: Vec, n: nat)
    requires Differentiable(act) && GateShape(g, |x|, n) && GateShape(d, |x|, n) && VecSlope(z, n, dz)
    ensures VecSlope(GateCurve(act.sigmoid, g, d, x, z, n), n,
                     Mul(SigmoidSlope(Map(act.sigmoid, Affine(g, x, z(0.0)))), AffineTangent(g, d, x, z(0.0), dz)))
  {
    hide Differentiable, Affine, AffineTangent, HasSlope, Mul, SigmoidSlope, Map, AffineCurve;
    AffineVec(g, d, x, z, dz, n);
    SigmoidVec(act, AffineCurve(g, d, x, z, n), n, AffineTangent(g, d, x, z(0.0), dz));
    GateStart(act.sigmoid, g, d, x, z, n);
  }

  lemma TanhGate(act: Activations, g: Gate, d: Gate, x: Vec, z: real -> Vec, dz: Vec, n: nat)
    requires Differentiable(act) && GateShape(g, |x|, n) && GateShape(d, |x|, n) && VecSlope(z, n, dz)
    ensures VecSlope(GateCurve(act.tanh, g, d, x, z, n), n,
                     Mul(TanhSlope(Map(act.tanh, Affine(g, x, z(0.0)))), AffineTangent(g, d, x, z(0.0), dz)))
  {
    hide Differentiable, Affine, AffineTangent, HasSlope, Mul, TanhSlope, Map, AffineCurve;
    AffineVec(g, d, x, z, dz, n);
    TanhVec(act, AffineCurve(g, d, x, z, n), n, AffineTangent(g, d, x, z(0.0), dz));
    GateStart(act.tanh, g, d, x, z, n);
  }

  /** The hidden vector after one step, as the gates' curves make it. */
  lemma StepIsBlend(act: Activations, w: Weights, d: Weights, x: Vec, p: real -> Vec, n: nat)
    requires Shape(w, |x|, n) && Shape(d, |x|, n) && forall t :: |p(t)| == n
    ensures var u, r := GateCurve(act.sigmoid, w.update, d.update, x, p, n),
            GateCurve(act.sigmoid, w.reset, d.reset, x, p, n);
            var c := GateCurve(act.tanh, w.state, d.state, x, ProductCurve(r, p, n), n);
            forall t :: StepCurve(act, w, d, x, p, n)(t) == BlendCurve(u, p, c, n)(t)
  {
    hide Affine, GateAlong, Map, Blend, Mul;
  }

  lemma SameVec(a: real -> Vec, b: real -> Vec, n: nat, d: Vec)
    requires VecSlope(a, n, d) && forall t :: b(t) == a(t)
    ensures VecSlope(b, n, d)
  {
    hide HasSlope;
    forall i | 0 <= i < n ensures HasSlope(Coordinate(b, i), d[i]) {
      SameSlope(Coordinate(a, i), Coordinate(b, i), d[i]);
    }
  }

  /** StepTangent is the derivative of one time step. */
  lemma StepVec(act: Activations, w: Weights, d: Weights, x: Vec, p: real -> Vec, dp: Vec, n: nat)
    requires Differentiable(act) && Shape(w, |x|, n) && Shape(d, |x|, n) && VecSlope(p, n, dp)
    ensures VecSlope(StepCurve(act, w, d, x, p, n), n, StepTangent(w, d, x, Step(act, w, x, p(0.0)), p(0.0), dp).hidden)
  {
    hide Differentiable, Affine, AffineTangent, Mul, SigmoidSlope, TanhSlope, Map, GateCurve, StepCurve, BlendCurve,
      BlendTangent, Blend, HasSlope, Coordinate;
    var u, r := GateCurve(act.sigmoid, w.update, d.update, x, p, n), GateCurve(act.sigmoid, w.reset, d.reset, x, p, n);
    var z := ProductCurve(r, p, n);
    var c := GateCurve(act.tanh, w.state, d.state, x, z, n);
    var v := StepTangent(w, d, x, Step(act, w, x, p(0.0)), p(0.0), dp);
    SigmoidGate(act, w.update, d.update, x, p, dp, n);
    SigmoidGate(act, w.reset, d.reset, x, p, dp, n);
    GateStart(act.sigmoid, w.update, d.update, x, p, n);
    GateStart(act.sigmoid, w.reset, d.reset, x, p, n);
    ProductVec(r, p, z, n, v.reset, dp);
    TanhGate(act, w.state, d.state, x, z, ProductTangent(r(0.0), p(0.0), v.reset, dp), n);
    GateStart(act.tanh, w.state, d.state, x, z, n);
    BlendVec(u, p, c, n, v.update, dp, v.candidate);
    StepIsBlend(act, w, d, x, p, n);
    SameVec(BlendCurve(u, p, c, n), StepCurve(act, w, d, x, p, n), n, v.hidden);
  }

  // ----- the whole forward pass

  function HiddenCurve(act: Activations, w: Weights, d: Weights, xs: seq<Vec>, n: nat, inputs: nat,
                       k: nat): (c: real -> Vec)
    requires Shape(w, inputs, n) && Shape(d, inputs, n) && InputShape(xs, inputs) && k <= |xs|
    ensures forall t :: |c(t)| == n
  {
    t => Hidden(act, Along(w, d, inputs, n, t), xs, n, inputs, k)
  }

  lemma NextHidden(act: Activations, w: Weights, d: Weights, xs: seq<Vec>, n: nat, inputs: nat, k: nat)
    requires Shape(w, inputs, n) && Shape(d, inputs, n) && InputShape(xs, inputs) && 0 < k <= |xs|
    ensures forall t ::
            HiddenCurve(act, w, d, xs, n, inputs, k)(t) ==
            StepCurve(act, w, d, xs[k - 1], HiddenCurve(act, w, d, xs, n, inputs, k - 1), n)(t)
  {
    hide Step, Along;
  }

  lemma HiddenStart(act: Activations, w: Weights, d: Weights, xs: seq<Vec>, n: nat, inputs: nat, k: nat)
    requires Shape(w, inputs, n) && Shape(d, inputs, n) && InputShape(xs, inputs) && k <= |xs|
    ensures HiddenCurve(act, w, d, xs, n, inputs, k)(0.0) == Hidden(act, w, xs, n, inputs, k)
  {
    hide Hidden, Along;
    AlongAtZero(w, d, inputs, n);
  }

  /** HiddenTangent is the derivative of the hidden vector after any number of
      steps. */
  lemma {:induction false} HiddenVec(act: Activations, w: Weights, d: Weights, xs: seq<Vec>, n: nat, inputs: nat,
                                     k: nat)
    requires Differentiable(act) && Shape(w, inputs, n) && Shape(d, inputs, n) && InputShape(xs, inputs) && k <= |xs|
    ensures VecSlope(HiddenCurve(act, w, d, xs, n, inputs, k), n, HiddenTangent(act, w, d, xs, n, inputs, k))
  {
    hide Differentiable, Step, StepTangent, StepCurve, Along, HasSlope, Coordinate;
    if k == 0 {
      ConstantVec(HiddenCurve(act, w, d, xs, n, inputs, 0), Zeros(n));
    } else {
      var p, dp := HiddenCurve(act, w, d, xs, n, inputs, k - 1), HiddenTangent(act, w, d, xs, n, inputs, k - 1);
      HiddenVec(act, w, d, xs, n, inputs, k - 1);
      StepVec(act, w, d, xs[k - 1], p, dp, n);
      HiddenStart(act, w, d, xs, n, inputs, k - 1);
      NextHidden(act, w, d, xs, n, inputs, k);
      SameVec(StepCurve(act, w, d, xs[k - 1], p, n), HiddenCurve(act, w, d, xs, n, inputs, k), n,
              HiddenTangent(act, w, d, xs, n, inputs, k));
    }
  }

  /** The network's output along the line w + t d. */
  function OutputCurve(act: Activations, w: Weights, d: Weights, xs: seq<Vec>, n: nat, inputs: nat): real -> real
    requires Shape(w, inputs, n) && Shape(d, inputs, n) && InputShape(xs, inputs)
  {
    t => Output(act, Along(w, d, inputs, n, t), xs, n, inputs)
  }

  function BiasCurve(bias: real, d: real): real -> real { t => bias + Times(d, t) }

  function ReadoutCurve(v: Vec, d: Vec, h: real -> Vec): real -> real
    requires |v| == |d| && forall t :: |h(t)| == |v|
  {
    t => Inner(Line(v, d)(t), h(t))
  }

  lemma OutputParts(act: Activations, w: Weights, d: Weights, xs: seq<Vec>, n: nat, inputs: nat)
    requires Shape(w, inputs, n) && Shape(d, inputs, n) && InputShape(xs, inputs)
    ensures var h := HiddenCurve(act, w, d, xs, n, inputs, |xs|);
            forall t :: OutputCurve(act, w, d, xs, n, inputs)(t) ==
              BiasCurve(w.outputBias, d.outputBias)(t) + ReadoutCurve(w.output, d.output, h)(t)
  {
    hide Hidden, Inner, GateAlong, Times, Add, Scale;
  }

  lemma ReadoutSlope(v: Vec, d: Vec, h: real -> Vec, dh: Vec)
    requires |v| == |d| && VecSlope(h, |v|, dh)
    ensures HasSlope(ReadoutCurve(v, d, h), Inner(d, h(0.0)) + Inner(v, dh))
  {
    hide HasSlope, Inner, Line, Coordinate;
    HiddenSlope(v, d, h, dh, ReadoutCurve(v, d, h));
  }

  /** OutputTangent is the derivative of the output in direction d. */
  lemma OutputTangentIsDerivative(act: Activations, w: Weights, d: Weights, xs: seq<Vec>, n: nat, inputs: nat)
    requires Differentiable(act) && Shape(w, inputs, n) && Shape(d, inputs, n) && InputShape(xs, inputs)
    ensures HasSlope(OutputCurve(act, w, d, xs, n, inputs), OutputTangent(act, w, d, xs, n, inputs))
  {
    hide Differentiable, Hidden, HiddenTangent, Inner, HasSlope, HiddenCurve, OutputCurve, ReadoutCurve, Coordinate,
      Times;
    var h, dh := HiddenCurve(act, w, d, xs, n, inputs, |xs|), HiddenTangent(act, w, d, xs, n, inputs, |xs|);
    HiddenVec(act, w, d, xs, n, inputs, |xs|);
    HiddenStart(act, w, d, xs, n, inputs, |xs|);
    LineSlope(BiasCurve(w.outputBias, d.outputBias), w.outputBias, d.outputBias);
    ReadoutSlope(w.output, d.output, h, dh);
    OutputParts(act, w, d, xs, n, inputs);
    SumSlopeIs(BiasCurve(w.outputBias, d.outputBias), ReadoutCurve(w.output, d.output, h),
               OutputCurve(act, w, d, xs, n, inputs),
               d.outputBias, Inner(d.output, h(0.0)) + Inner(w.output, dh), OutputTangent(act, w, d, xs, n, inputs));
  }

  /** Main theorem of the backward pass: in every direction of weight space,
      outputGradient times the network's output is differentiable, and its
      derivative is the inner product of the direction with the gradient that
      backward accumulates. */
  lemma BackwardIsTheGradient(act: Activations, w: Weights, d: Weights, xs: seq<Vec>, og: real, inputs: nat,
                              f: real -> real)
    requires Differentiable(act) && |xs| > 0 && InputShape(xs, inputs)
    requires Shape(w, inputs, |w.output|) && Shape(d, inputs, |w.output|)
    requires forall t :: f(t) == Times(og, Output(act, Along(w, d, inputs, |w.output|, t), xs, |w.output|, inputs))
    ensures HasSlope(f, WeightsInner(d, Gradient(w, xs, States(act, w, xs, |w.output|, inputs), og, inputs), inputs,
                                     |w.output|))
  {
    hide Differentiable, HasSlope, Output, Along, OutputTangent, WeightsInner, Gradient, States, Times;
    var n := |w.output|;
    OutputTangentIsDerivative(act, w, d, xs, n, inputs);
    BackwardIsAdjoint(act, w, d, xs, og, inputs);
    var slope := OutputTangent(act, w, d, xs, n, inputs);
    ScaleSlope(OutputCurve(act, w, d, xs, n, inputs), f, og, slope);
    SlopeIs(f, og, slope, WeightsInner(d, Gradient(w, xs, States(act, w, xs, n, inputs), og, inputs), inputs, n));
  }

  lemma SlopeIs(f: real -> real, a: real, b: real, c: real)
    requires HasSlope(f, Times(a, b)) && c == a * b
    ensures HasSlope(f, c)
  {
    hide HasSlope;
  }

  // ----- the training loss

  /** The pinball loss of a prediction y at quantile q. */
  function Pinball(q: real, target: real, y: real): real {
    if target >= y then Times(q, target - y) else Times(1.0 - q, y - target)
  }

  /** The outputGradient that training passes to the backward pass. */
  function OutputGradient(q: real, target: real, y: real): real {
    if target >= y then -q else 1.0 - q
  }

  function PinballOf(q: real, target: real): real -> real { y => Pinball(q, target, y) }

  /** Away from the kink, on one side of it the loss is a straight line. */
  lemma PinballRemainder(q: real, target: real, y: real, h: real)
    requires (target >= y <==> target >= y + h)
    ensures Remainder(Shifted(PinballOf(q, target), y), OutputGradient(q, target, y), h) == 0.0
  {
    if target >= y {
      assert q * (target - (y + h)) == q * (target - y) - q * h;
    } else {
      assert (1.0 - q) * (y + h - target) == (1.0 - q) * (y - target) + (1.0 - q) * h;
    }
  }

  /** outputGradient is the derivative of the loss, except at the kink. */
  lemma PinballSlope(q: real, target: real, y: real)
    requires y != target
    ensures HasSlopeAt(PinballOf(q, target), y, OutputGradient(q, target, y))
  {
    hide Times, Remainder;
    var f, d := Shifted(PinballOf(q, target), y), OutputGradient(q, target, y);
    var delta := AbsReal(y - target);
    forall eps: real | eps > 0.0 ensures Near(f, d, eps) {
      forall h: real | AbsReal(h) < delta ensures AbsReal(Remainder(f, d, h)) <= Times(eps, AbsReal(h)) {
        PinballRemainder(q, target, y, h);
        TimesNonNegative(eps, AbsReal(h));
      }
      assert Within(f, d, eps, delta);
    }
  }

  lemma KinkRemainders(q: real, target: real, d: real, h: real)
    requires h > 0.0
    ensures var f := Shifted(PinballOf(q, target), target);
            Remainder(f, d, h) + Remainder(f, d, -h) == h
  {
    assert Times(1.0 - q, h) + Times(q, h) == h;
    assert Times(d, h) + Times(d, -h) == 0.0;
    assert Pinball(q, target, target + h) == Times(1.0 - q, h);
    assert Pinball(q, target, target - h) == Times(q, h);
    assert Pinball(q, target, target) == 0.0;
  }

  /** At the kink the loss has no derivative at all. */
  lemma KinkHasNoSlope(q: real, target: real, d: real)
    ensures !HasSlopeAt(PinballOf(q, target), target, d)
  {
    hide Times, Remainder, Pinball;
    var f := Shifted(PinballOf(q, target), target);
    if HasSlope(f, d) {
      assert Near(f, d, 0.25);
      var delta: real :| delta > 0.0 && Within(f, d, 0.25, delta);
      var h := delta / 2.0;
      assert AbsReal(h) < delta && AbsReal(-h) < delta;
      KinkRemainders(q, target, d, h);
      QuarterTwice(h);
      assert false;
    }
  }

  lemma QuarterTwice(h: real)
    requires h > 0.0
    ensures Times(0.25, AbsReal(h)) + Times(0.25, AbsReal(-h)) < h
  {
  }

  /** There outputGradient is the slope of the loss from the left. */
  lemma KinkFromTheLeft(q: real, target: real, h: real)
    requires h >= 0.0
    ensures Pinball(q, target, target - h) + Times(OutputGradient(q, target, target), h) == Pinball(q, target, target)
  {
    assert -q * h == -(q * h);
  }

  /** So outputGradient is the derivative of the loss exactly when prediction and
      target differ, and then the only one. */
  lemma PinballSlopeExactly(q: real, target: real, y: real, d: real)
    ensures HasSlopeAt(PinballOf(q, target), y, d) <==> y != target && d == OutputGradient(q, target, y)
  {
    hide HasSlope, OutputGradient;
    if y == target {
      KinkHasNoSlope(q, target, d);
    } else {
      PinballSlope(q, target, y);
      if HasSlopeAt(PinballOf(q, target), y, d) {
        SlopeIsUnique(Shifted(PinballOf(q, target), y), d, OutputGradient(q, target, y));
      }
    }
  }

  /** For one training example whose prediction differs from its target, the
      accumulated gradient is the derivative of the loss in every direction. */
  lemma BackwardDifferentiatesTheLoss(act: Activations, w: Weights, d: Weights, xs: seq<Vec>, q: real, target: real,
                                      inputs: nat, loss: real -> real)
    requires Differentiable(act) && |xs| > 0 && InputShape(xs, inputs)
    requires Shape(w, inputs, |w.output|) && Shape(d, inputs, |w.output|)
    requires Output(act, w, xs, |w.output|, inputs) != target
    requires forall t ::
             loss(t) ==
             Pinball(q, target, Output(act, Along(w, d, inputs, |w.output|, t), xs, |w.output|, inputs))
    ensures var og := OutputGradient(q, target, Output(act, w, xs, |w.output|, inputs));
            HasSlope(loss, WeightsInner(d, Gradient(w, xs, States(act, w, xs, |w.output|, inputs), og, inputs), inputs,
                                        |w.output|))
  {
    hide Differentiable, HasSlope, HasSlopeAt, Output, Along, OutputTangent, WeightsInner, Gradient, States, Times,
      Pinball, OutputGradient;
    var n := |w.output|;
    var y := Output(act, w, xs, n, inputs);
    var og, slope := OutputGradient(q, target, y), OutputTangent(act, w, d, xs, n, inputs);
    AlongAtZero(w, d, inputs, n);
    OutputTangentIsDerivative(act, w, d, xs, n, inputs);
    BackwardIsAdjoint(act, w, d, xs, og, inputs);
    PinballSlope(q, target, y);
    ChainSlope(PinballOf(q, target), OutputCurve(act, w, d, xs, n, inputs), loss, og, slope);
    SlopeIs(loss, og, slope, WeightsInner(d, Gradient(w, xs, States(act, w, xs, n, inputs), og, inputs), inputs, n));
  }
}

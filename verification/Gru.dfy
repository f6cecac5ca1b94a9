/** The recurrent network of internal/forecast/gru.go: the recurrence its
    forward pass computes, the gradient its backward pass accumulates, and the
    theorem that the second is the adjoint of the first's derivative.

    The activations are arbitrary functions. Their derivatives enter as the
    expressions the backward pass uses: s(1-s) for the sigmoid, 1-t*t for the
    hyperbolic tangent. */
module Gru {
  import opened RealArithmetic
  import opened Vectors

  datatype Activations = Activations(sigmoid: real -> real, tanh: real -> real)

  datatype Gate = Gate(input: Mat, hidden: Mat, bias: Vec)

  datatype Weights = Weights(update: Gate, reset: Gate, state: Gate, output: Vec, outputBias: real)

  datatype State = State(update: Vec, reset: Vec, candidate: Vec, hidden: Vec)

  predicate GateShape(g: Gate, inputs: nat, hidden: nat) {
    IsMat(g.input, hidden, inputs) && IsMat(g.hidden, hidden, hidden) && |g.bias| == hidden
  }

  predicate Shape(w: Weights, inputs: nat, hidden: nat) {
    GateShape(w.update, inputs, hidden) && GateShape(w.reset, inputs, hidden) && GateShape(w.state, inputs, hidden) &&
    |w.output| == hidden
  }

  predicate StateShape(s: State, hidden: nat) {
    |s.update| == |s.reset| == |s.candidate| == |s.hidden| == hidden
  }

  predicate InputShape(xs: seq<Vec>, inputs: nat) {
    forall t :: 0 <= t < |xs| ==> |xs[t]| == inputs
  }

  // ----- the forward recurrence

  function OneMinus(v: Vec): (r: Vec)
    ensures |r| == |v|
  {
    seq(|v|, i requires 0 <= i < |v| => 1.0 - v[i])
  }

  function Sub(a: Vec, b: Vec): (r: Vec)
    requires |a| == |b|
    ensures |r| == |a|
  {
    seq(|a|, i requires 0 <= i < |a| => a[i] - b[i])
  }

  function Affine(g: Gate, x: Vec, z: Vec): (v: Vec)
    requires GateShape(g, |x|, |z|)
    ensures |v| == |z|
  {
    Add(g.bias, Add(MatVec(g.input, x), MatVec(g.hidden, z)))
  }

  function Blend(u: Vec, previous: Vec, candidate: Vec): (v: Vec)
    requires |u| == |previous| == |candidate|
    ensures |v| == |u|
  {
    Add(Mul(OneMinus(u), previous), Mul(u, candidate))
  }

  function Step(act: Activations, w: Weights, x: Vec, previous: Vec): (s: State)
    requires Shape(w, |x|, |previous|)
    ensures StateShape(s, |previous|)
  {
    var u := Map(act.sigmoid, Affine(w.update, x, previous));
    var r := Map(act.sigmoid, Affine(w.reset, x, previous));
    var c := Map(act.tanh, Affine(w.state, x, Mul(r, previous)));
    State(u, r, c, Blend(u, previous, c))
  }

  /** The hidden vector after the first t inputs, starting from zeros. */
  function Hidden(act: Activations, w: Weights, xs: seq<Vec>, n: nat, inputs: nat, t: nat): (h: Vec)
    requires Shape(w, inputs, n) && InputShape(xs, inputs) && t <= |xs|
    ensures |h| == n
  {
    if t == 0 then Zeros(n) else Step(act, w, xs[t - 1], Hidden(act, w, xs, n, inputs, t - 1)).hidden
  }

  function States(act: Activations, w: Weights, xs: seq<Vec>, n: nat, inputs: nat): (s: seq<State>)
    requires Shape(w, inputs, n) && InputShape(xs, inputs)
    ensures |s| == |xs| && forall t :: 0 <= t < |s| ==> StateShape(s[t], n)
  {
    seq(|xs|, t requires 0 <= t < |xs| => Step(act, w, xs[t], Hidden(act, w, xs, n, inputs, t)))
  }

  function Output(act: Activations, w: Weights, xs: seq<Vec>, n: nat, inputs: nat): real
    requires Shape(w, inputs, n) && InputShape(xs, inputs)
  {
    w.outputBias + Inner(w.output, Hidden(act, w, xs, n, inputs, |xs|))
  }

  // ----- the derivative of the recurrence in a weight direction d (forward mode)

  function SigmoidSlope(s: Vec): (v: Vec)
    ensures |v| == |s|
  {
    Mul(s, OneMinus(s))
  }

  function TanhSlope(c: Vec): (v: Vec)
    ensures |v| == |c|
  {
    OneMinus(Mul(c, c))
  }

  function AffineTangent(g: Gate, d: Gate, x: Vec, z: Vec, dz: Vec): (v: Vec)
    requires GateShape(g, |x|, |z|) && GateShape(d, |x|, |z|) && |dz| == |z|
    ensures |v| == |z|
  {
    Add(Affine(d, x, z), MatVec(g.hidden, dz))
  }

  function BlendTangent(u: Vec, du: Vec, p: Vec, dp: Vec, c: Vec, dc: Vec): (v: Vec)
    requires |u| == |du| == |p| == |dp| == |c| == |dc|
    ensures |v| == |u|
  {
    seq(|u|, i requires 0 <= i < |u| => (1.0 - u[i]) * dp[i] - du[i] * p[i] + du[i] * c[i] + u[i] * dc[i])
  }

  datatype StepTangents = StepTangents(update: Vec, reset: Vec, candidate: Vec, hidden: Vec)

  function StepTangent(w: Weights, d: Weights, x: Vec, s: State, p: Vec, dp: Vec): (v: StepTangents)
    requires Shape(w, |x|, |p|) && Shape(d, |x|, |p|) && StateShape(s, |p|) && |dp| == |p|
    ensures |v.update| == |v.reset| == |v.candidate| == |v.hidden| == |p|
  {
    var du := Mul(SigmoidSlope(s.update), AffineTangent(w.update, d.update, x, p, dp));
    var dr := Mul(SigmoidSlope(s.reset), AffineTangent(w.reset, d.reset, x, p, dp));
    var dz := Add(Mul(dr, p), Mul(s.reset, dp));
    var dc := Mul(TanhSlope(s.candidate), AffineTangent(w.state, d.state, x, Mul(s.reset, p), dz));
    StepTangents(du, dr, dc, BlendTangent(s.update, du, p, dp, s.candidate, dc))
  }

  function HiddenTangent(act: Activations, w: Weights, d: Weights, xs: seq<Vec>, n: nat, inputs: nat, t: nat): (v: Vec)
    requires Shape(w, inputs, n) && Shape(d, inputs, n) && InputShape(xs, inputs) && t <= |xs|
    ensures |v| == n
  {
    if t == 0 then Zeros(n)
    else
      var p := Hidden(act, w, xs, n, inputs, t - 1);
      var dp := HiddenTangent(act, w, d, xs, n, inputs, t - 1);
      StepTangent(w, d, xs[t - 1], Step(act, w, xs[t - 1], p), p, dp).hidden
  }

  function OutputTangent(act: Activations, w: Weights, d: Weights, xs: seq<Vec>, n: nat, inputs: nat): real
    requires Shape(w, inputs, n) && Shape(d, inputs, n) && InputShape(xs, inputs)
  {
    d.outputBias + Inner(d.output, Hidden(act, w, xs, n, inputs, |xs|))
    + Inner(w.output, HiddenTangent(act, w, d, xs, n, inputs, |xs|))
  }

  // ----- the gradient the backward pass accumulates

  function GateGradient(raw: Vec, x: Vec, z: Vec): (g: Gate)
    requires |z| == |raw|
    ensures GateShape(g, |x|, |raw|)
  {
    Gate(Outer(raw, x), Outer(raw, z), raw)
  }

  function AddGate(a: Gate, b: Gate, inputs: nat, hidden: nat): (g: Gate)
    requires GateShape(a, inputs, hidden) && GateShape(b, inputs, hidden)
    ensures GateShape(g, inputs, hidden)
  {
    Gate(AddMat(a.input, b.input), AddMat(a.hidden, b.hidden), Add(a.bias, b.bias))
  }

  function AddWeights(a: Weights, b: Weights, inputs: nat, hidden: nat): (w: Weights)
    requires Shape(a, inputs, hidden) && Shape(b, inputs, hidden)
    ensures Shape(w, inputs, hidden)
  {
    Weights(AddGate(a.update, b.update, inputs, hidden), AddGate(a.reset, b.reset, inputs, hidden),
            AddGate(a.state, b.state, inputs, hidden), Add(a.output, b.output), a.outputBias + b.outputBias)
  }

  function ZeroGate(inputs: nat, hidden: nat): (g: Gate)
    ensures GateShape(g, inputs, hidden)
  {
    Gate(ZeroMat(hidden, inputs), ZeroMat(hidden, hidden), Zeros(hidden))
  }

  datatype Raws = Raws(update: Vec, reset: Vec, state: Vec, previous: Vec)

  /** One backward time step: the three pre-activation sensitivities, and the
      sensitivity handed to the previous hidden vector. */
  function StepBack(w: Weights, s: State, p: Vec, dH: Vec, inputs: nat): (b: Raws)
    requires Shape(w, inputs, |p|) && StateShape(s, |p|) && |dH| == |p|
    ensures |b.update| == |b.reset| == |b.state| == |b.previous| == |p|
  {
    var n := |p|;
    var rawState := Mul(Mul(dH, s.update), TanhSlope(s.candidate));
    var dProduct := VecMat(rawState, w.state.hidden, n);
    var rawUpdate := Mul(Mul(dH, Sub(s.candidate, p)), SigmoidSlope(s.update));
    var rawReset := Mul(Mul(dProduct, p), SigmoidSlope(s.reset));
    var direct := Add(Mul(dH, OneMinus(s.update)), Mul(dProduct, s.reset));
    Raws(rawUpdate, rawReset, rawState,
         Add(direct, Add(VecMat(rawUpdate, w.update.hidden, n), VecMat(rawReset, w.reset.hidden, n))))
  }

  function StepGradient(b: Raws, x: Vec, s: State, p: Vec): (g: Weights)
    requires |b.update| == |b.reset| == |b.state| == |p| == |s.reset|
    ensures Shape(g, |x|, |p|)
  {
    Weights(GateGradient(b.update, x, p), GateGradient(b.reset, x, p), GateGradient(b.state, x, Mul(s.reset, p)),
            Zeros(|p|), 0.0)
  }

  function PreviousHidden(states: seq<State>, n: nat, t: nat): (p: Vec)
    requires t < |states| && forall i :: 0 <= i < |states| ==> StateShape(states[i], n)
    ensures |p| == n
  {
    if t == 0 then Zeros(n) else assert StateShape(states[t - 1], n); states[t - 1].hidden
  }

  /** What time steps t-1, ..., 0 contribute, given the sensitivity dH of the
      output to the hidden vector after step t-1. */
  function BackFrom(w: Weights, xs: seq<Vec>, states: seq<State>, dH: Vec, inputs: nat, t: nat): (g: Weights)
    requires Shape(w, inputs, |dH|) && InputShape(xs, inputs) && |states| == |xs| && t <= |xs|
    requires forall i :: 0 <= i < |states| ==> StateShape(states[i], |dH|)
    ensures Shape(g, inputs, |dH|)
    decreases t
  {
    var n := |dH|;
    if t == 0 then Weights(ZeroGate(inputs, n), ZeroGate(inputs, n), ZeroGate(inputs, n), Zeros(n), 0.0)
    else
      var p := PreviousHidden(states, n, t - 1);
      var b := StepBack(w, states[t - 1], p, dH, inputs);
      AddWeights(StepGradient(b, xs[t - 1], states[t - 1], p),
                 BackFrom(w, xs, states, b.previous, inputs, t - 1), inputs, n)
  }

  /** The whole gradient for outputGradient = og. */
  function Gradient(w: Weights, xs: seq<Vec>, states: seq<State>, og: real, inputs: nat): (g: Weights)
    requires Shape(w, inputs, |w.output|) && InputShape(xs, inputs) && |states| == |xs| > 0
    requires forall i :: 0 <= i < |states| ==> StateShape(states[i], |w.output|)
    ensures Shape(g, inputs, |w.output|)
  {
    var rest := BackFrom(w, xs, states, Scale(og, w.output), inputs, |xs|);
    rest.(output := Scale(og, states[|states| - 1].hidden), outputBias := og)
  }

  // ----- inner products over whole weight sets

  function GateInner(a: Gate, b: Gate, inputs: nat, hidden: nat): real
    requires GateShape(a, inputs, hidden) && GateShape(b, inputs, hidden)
  {
    MatInner(a.input, b.input) + MatInner(a.hidden, b.hidden) + Inner(a.bias, b.bias)
  }

  function GatesInner(a: Weights, b: Weights, inputs: nat, hidden: nat): real
    requires Shape(a, inputs, hidden) && Shape(b, inputs, hidden)
  {
    GateInner(a.update, b.update, inputs, hidden) + GateInner(a.reset, b.reset, inputs, hidden)
    + GateInner(a.state, b.state, inputs, hidden)
  }

  /** The sum, over every weight of the network, of direction times gradient. */
  function WeightsInner(a: Weights, b: Weights, inputs: nat, hidden: nat): real
    requires Shape(a, inputs, hidden) && Shape(b, inputs, hidden)
  {
    GatesInner(a, b, inputs, hidden) + Inner(a.output, b.output) + a.outputBias * b.outputBias
  }

  lemma GateInnerAdd(d: Gate, a: Gate, b: Gate, inputs: nat, hidden: nat)
    requires GateShape(d, inputs, hidden) && GateShape(a, inputs, hidden) && GateShape(b, inputs, hidden)
    ensures GateInner(d, AddGate(a, b, inputs, hidden), inputs, hidden)
         == GateInner(d, a, inputs, hidden) + GateInner(d, b, inputs, hidden)
  {
    MatInnerAdd(d.input, a.input, b.input, hidden, inputs);
    MatInnerAdd(d.hidden, a.hidden, b.hidden, hidden, hidden);
    InnerAdd(d.bias, a.bias, b.bias);
  }

  lemma GateInnerZero(d: Gate, inputs: nat, hidden: nat)
    requires GateShape(d, inputs, hidden)
    ensures GateInner(d, ZeroGate(inputs, hidden), inputs, hidden) == 0.0
  {
    MatInnerZeros(d.input, hidden, inputs);
    MatInnerZeros(d.hidden, hidden, hidden);
    InnerZeros(d.bias);
  }

  /** One gate: direction against gradient is the sensitivity against the
      change of the pre-activation that the direction causes. */
  lemma GateAdjoint(d: Gate, raw: Vec, x: Vec, z: Vec)
    requires |z| == |raw| && GateShape(d, |x|, |z|)
    ensures GateInner(d, GateGradient(raw, x, z), |x|, |z|) == Inner(raw, Affine(d, x, z))
  {
    OuterAdjoint(raw, x, d.input);
    OuterAdjoint(raw, z, d.hidden);
    InnerCommutes(d.bias, raw);
    InnerAdd(raw, d.bias, Add(MatVec(d.input, x), MatVec(d.hidden, z)));
    InnerAdd(raw, MatVec(d.input, x), MatVec(d.hidden, z));
  }

  lemma GateTangentAdjoint(g: Gate, d: Gate, raw: Vec, x: Vec, z: Vec, dz: Vec)
    requires |z| == |raw| == |dz| && GateShape(d, |x|, |z|) && GateShape(g, |x|, |z|)
    ensures Inner(raw, AffineTangent(g, d, x, z, dz))
         == GateInner(d, GateGradient(raw, x, z), |x|, |z|) + Inner(VecMat(raw, g.hidden, |z|), dz)
  {
    GateAdjoint(d, raw, x, z);
    InnerAdd(raw, Affine(d, x, z), MatVec(g.hidden, dz));
    TransposeAdjoint(raw, g.hidden, dz);
  }

  lemma BlendTerm(h: real, u: real, du: real, p: real, dp: real, c: real, dc: real)
    ensures h * ((1.0 - u) * dp - du * p + du * c + u * dc)
         == h * (1.0 - u) * dp + h * (c - p) * du + h * u * dc
  {
  }

  lemma BlendAdjoint(dH: Vec, u: Vec, du: Vec, p: Vec, dp: Vec, c: Vec, dc: Vec)
    requires |dH| == |u| == |du| == |p| == |dp| == |c| == |dc|
    ensures Inner(dH, BlendTangent(u, du, p, dp, c, dc))
         == Inner(Mul(dH, OneMinus(u)), dp) + Inner(Mul(dH, Sub(c, p)), du) + Inner(Mul(dH, u), dc)
  {
    var a, b, e := Mul(Mul(dH, OneMinus(u)), dp), Mul(Mul(dH, Sub(c, p)), du), Mul(Mul(dH, u), dc);
    var whole := Mul(dH, BlendTangent(u, du, p, dp, c, dc));
    forall i | 0 <= i < |u| ensures whole[i] == Add(Add(a, b), e)[i] {
      BlendTerm(dH[i], u[i], du[i], p[i], dp[i], c[i], dc[i]);
    }
    assert whole == Add(Add(a, b), e);
    SumAdd(Add(a, b), e);
    SumAdd(a, b);
  }

  /** The reset gate reaches the candidate through reset * previous. */
  lemma ResetProductAdjoint(dProduct: Vec, r: Vec, dr: Vec, p: Vec, dp: Vec)
    requires |dProduct| == |r| == |dr| == |p| == |dp|
    ensures Inner(dProduct, Add(Mul(dr, p), Mul(r, dp))) == Inner(Mul(dProduct, p), dr) + Inner(Mul(dProduct, r), dp)
  {
    InnerAdd(dProduct, Mul(dr, p), Mul(r, dp));
    InnerMul(dProduct, r, dp);
    InnerMul(dProduct, p, dr);
    assert Mul(dr, p) == Mul(p, dr);
  }

  lemma PreviousAdjoint(a: Vec, b: Vec, c: Vec, d: Vec, dp: Vec)
    requires |a| == |b| == |c| == |d| == |dp|
    ensures Inner(Add(Add(a, b), Add(c, d)), dp) == Inner(a, dp) + Inner(b, dp) + Inner(c, dp) + Inner(d, dp)
  {
    InnerAddLeft(Add(a, b), Add(c, d), dp);
    InnerAddLeft(a, b, dp);
    InnerAddLeft(c, d, dp);
  }

  /** One time step conserves direction-against-gradient plus
      <sensitivity, tangent of the hidden vector>. */
  lemma StepAdjoint(w: Weights, d: Weights, x: Vec, s: State, p: Vec, dp: Vec, dH: Vec)
    requires Shape(w, |x|, |p|) && Shape(d, |x|, |p|) && StateShape(s, |p|) && |dp| == |p| == |dH|
    ensures var b := StepBack(w, s, p, dH, |x|);
            GatesInner(d, StepGradient(b, x, s, p), |x|, |p|) + Inner(b.previous, dp)
            == Inner(dH, StepTangent(w, d, x, s, p, dp).hidden)
  {
    var n, b, v := |p|, StepBack(w, s, p, dH, |x|), StepTangent(w, d, x, s, p, dp);
    var dProduct := VecMat(b.state, w.state.hidden, n);
    BlendAdjoint(dH, s.update, v.update, p, dp, s.candidate, v.candidate);

    InnerMul(Mul(dH, Sub(s.candidate, p)), SigmoidSlope(s.update), AffineTangent(w.update, d.update, x, p, dp));
    GateTangentAdjoint(w.update, d.update, b.update, x, p, dp);

    var z, dz := Mul(s.reset, p), Add(Mul(v.reset, p), Mul(s.reset, dp));
    InnerMul(Mul(dH, s.update), TanhSlope(s.candidate), AffineTangent(w.state, d.state, x, z, dz));
    GateTangentAdjoint(w.state, d.state, b.state, x, z, dz);
    ResetProductAdjoint(dProduct, s.reset, v.reset, p, dp);

    InnerMul(Mul(dProduct, p), SigmoidSlope(s.reset), AffineTangent(w.reset, d.reset, x, p, dp));
    GateTangentAdjoint(w.reset, d.reset, b.reset, x, p, dp);

    PreviousAdjoint(Mul(dH, OneMinus(s.update)), Mul(dProduct, s.reset),
                    VecMat(b.update, w.update.hidden, n), VecMat(b.reset, w.reset.hidden, n), dp);
  }

  lemma GatesInnerAdd(d: Weights, a: Weights, b: Weights, inputs: nat, hidden: nat)
    requires Shape(d, inputs, hidden) && Shape(a, inputs, hidden) && Shape(b, inputs, hidden)
    ensures GatesInner(d, AddWeights(a, b, inputs, hidden), inputs, hidden)
         == GatesInner(d, a, inputs, hidden) + GatesInner(d, b, inputs, hidden)
  {
    GateInnerAdd(d.update, a.update, b.update, inputs, hidden);
    GateInnerAdd(d.reset, a.reset, b.reset, inputs, hidden);
    GateInnerAdd(d.state, a.state, b.state, inputs, hidden);
  }

  /** The step identity with everything earlier steps contribute added on. */
  lemma StepsAdjoint(w: Weights, d: Weights, x: Vec, s: State, p: Vec, dp: Vec, dH: Vec, earlier: Weights)
    requires Shape(w, |x|, |p|) && Shape(d, |x|, |p|) && StateShape(s, |p|) && |dp| == |p| == |dH|
    requires Shape(earlier, |x|, |p|)
    requires GatesInner(d, earlier, |x|, |p|) == Inner(StepBack(w, s, p, dH, |x|).previous, dp)
    ensures GatesInner(d, AddWeights(StepGradient(StepBack(w, s, p, dH, |x|), x, s, p), earlier, |x|, |p|), |x|, |p|)
         == Inner(dH, StepTangent(w, d, x, s, p, dp).hidden)
  {
    StepAdjoint(w, d, x, s, p, dp, dH);
    GatesInnerAdd(d, StepGradient(StepBack(w, s, p, dH, |x|), x, s, p), earlier, |x|, |p|);
  }

  lemma ZeroGatesInner(d: Weights, inputs: nat, hidden: nat)
    requires Shape(d, inputs, hidden)
    ensures var z := ZeroGate(inputs, hidden);
            GatesInner(d, Weights(z, z, z, Zeros(hidden), 0.0), inputs, hidden) == 0.0
  {
    GateInnerZero(d.update, inputs, hidden);
    GateInnerZero(d.reset, inputs, hidden);
    GateInnerZero(d.state, inputs, hidden);
  }

  lemma StatesFollowHidden(act: Activations, w: Weights, xs: seq<Vec>, n: nat, inputs: nat, t: nat)
    requires Shape(w, inputs, n) && InputShape(xs, inputs) && t < |xs|
    ensures PreviousHidden(States(act, w, xs, n, inputs), n, t) == Hidden(act, w, xs, n, inputs, t)
    ensures States(act, w, xs, n, inputs)[t] == Step(act, w, xs[t], Hidden(act, w, xs, n, inputs, t))
    ensures States(act, w, xs, n, inputs)[t].hidden == Hidden(act, w, xs, n, inputs, t + 1)
  {
    hide Step;
  }

  /** All time steps: the sensitivity of the hidden vector after t steps against
      its tangent equals what those steps contribute to the gradient. */
  lemma {:induction false} BackFromAdjoint(act: Activations, w: Weights, d: Weights, xs: seq<Vec>, dH: Vec, inputs: nat,
                                           t: nat)
    requires Shape(w, inputs, |dH|) && Shape(d, inputs, |dH|) && InputShape(xs, inputs) && t <= |xs|
    ensures GatesInner(d, BackFrom(w, xs, States(act, w, xs, |dH|, inputs), dH, inputs, t), inputs, |dH|)
         == Inner(dH, HiddenTangent(act, w, d, xs, |dH|, inputs, t))
    decreases t
  {
    hide Step, StepBack, StepGradient, StepTangent, GatesInner, Inner, AddWeights, States, Hidden, PreviousHidden;
    var n := |dH|;
    if t == 0 {
      ZeroGatesInner(d, inputs, n);
      InnerZeros(dH);
    } else {
      var states := States(act, w, xs, n, inputs);
      StatesFollowHidden(act, w, xs, n, inputs, t - 1);
      var x, p, dp := xs[t - 1], Hidden(act, w, xs, n, inputs, t - 1), HiddenTangent(act, w, d, xs, n, inputs, t - 1);
      var s := Step(act, w, x, p);
      var b := StepBack(w, s, p, dH, inputs);
      BackFromAdjoint(act, w, d, xs, b.previous, inputs, t - 1);
      StepsAdjoint(w, d, x, s, p, dp, dH, BackFrom(w, xs, states, b.previous, inputs, t - 1));
    }
  }

  lemma OutputGradientInner(og: real, h: Vec, d: Vec)
    requires |h| == |d|
    ensures Inner(d, Scale(og, h)) == og * Inner(d, h)
  {
    InnerCommutes(d, Scale(og, h));
    InnerScale(og, h, d);
    InnerCommutes(h, d);
  }

  lemma CombineTerms(og: real, bias: real, direct: real, recurrent: real)
    ensures og * recurrent + og * direct + bias * og == og * (bias + direct + recurrent)
  {
  }

  /** Main theorem. For every weight direction d, the inner product of d with
      the accumulated gradient is outputGradient times the derivative of the
      network's output in direction d. */
  lemma BackwardIsAdjoint(act: Activations, w: Weights, d: Weights, xs: seq<Vec>, og: real, inputs: nat)
    requires Shape(w, inputs, |w.output|) && Shape(d, inputs, |w.output|) && InputShape(xs, inputs) && |xs| > 0
    ensures WeightsInner(d, Gradient(w, xs, States(act, w, xs, |w.output|, inputs), og, inputs), inputs, |w.output|)
         == og * OutputTangent(act, w, d, xs, |w.output|, inputs)
  {
    hide Step, Inner, BackFrom, GateInner, States, Hidden, HiddenTangent, Scale;
    var n, states := |w.output|, States(act, w, xs, |w.output|, inputs);
    var h, dh := Hidden(act, w, xs, n, inputs, |xs|), HiddenTangent(act, w, d, xs, n, inputs, |xs|);
    BackFromAdjoint(act, w, d, xs, Scale(og, w.output), inputs, |xs|);
    InnerScale(og, w.output, dh);
    StatesFollowHidden(act, w, xs, n, inputs, |xs| - 1);
    OutputGradientInner(og, h, d.output);
    CombineTerms(og, d.outputBias, Inner(d.output, h), Inner(w.output, dh));
  }
}

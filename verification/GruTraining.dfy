/** The batch loop of trainGRUNetwork in internal/forecast/gru.go: what the
    gradient buffer holds after one batch, before it is scaled and clipped. */
module GruTraining {
  import opened Wrappers
  import opened Vectors
  import opened Calculus
  import opened Gru
  import opened GruLoops
  import opened GruBackward
  import opened GruDerivative
  import opened GruExamples
  import opened RealArithmetic

  /** How samples become network inputs and targets: the input sequence that ends
      at an index (None when it cannot be encoded), and the normalizer. */
  datatype Encoding = Encoding(inputs: int -> Option<seq<Vec>>, minimum: real, scale: real)

  /** An example as the network sees it. */
  datatype Case = Case(xs: seq<Vec>, target: real)

  ghost predicate ValidEncoding(e: Encoding, inputs: nat) {
    && e.scale > 0.0
    && forall end :: e.inputs(end).Some? ==> e.inputs(end).value != [] && InputShape(e.inputs(end).value, inputs)
  }

  predicate ValidCases(cs: seq<Case>, inputs: nat) {
    forall k :: 0 <= k < |cs| ==> cs[k].xs != [] && InputShape(cs[k].xs, inputs)
  }

  function InputsOf(e: Encoding, x: Example): seq<Vec>
    requires e.inputs(x.end).Some?
  {
    e.inputs(x.end).value
  }

  function CaseOf(e: Encoding, x: Example): Case
    requires e.inputs(x.end).Some? && e.scale > 0.0
  {
    Case(InputsOf(e, x), (x.target - e.minimum) / e.scale)
  }

  /** The cases are the examples' inputs, with targets that stand for the observed
      horizon maxima in the units of the network. */
  ghost predicate Encodes(e: Encoding, batch: seq<Example>, cs: seq<Case>) {
    && |cs| == |batch|
    && forall k :: 0 <= k < |cs| ==>
      && e.inputs(batch[k].end).Some? && cs[k].xs == InputsOf(e, batch[k])
      && e.minimum + e.scale * cs[k].target == batch[k].target
  }

  predicate AllEncodable(e: Encoding, batch: seq<Example>) {
    forall k :: 0 <= k < |batch| ==> e.inputs(batch[k].end).Some?
  }

  function CasesOf(e: Encoding, batch: seq<Example>): (cs: seq<Case>)
    requires AllEncodable(e, batch) && e.scale > 0.0
    ensures Encodes(e, batch, cs)
  {
    seq(|batch|, k requires 0 <= k < |batch| => CaseOf(e, batch[k]))
  }

  // ----- the sum over a batch

  function ZeroWeights(inputs: nat, n: nat): (w: Weights)
    ensures Shape(w, inputs, n)
  {
    Weights(ZeroGate(inputs, n), ZeroGate(inputs, n), ZeroGate(inputs, n), Zeros(n), 0.0)
  }

  /** What one example adds to the gradient. */
  function CaseGradient(act: Activations, w: Weights, c: Case, q: real, inputs: nat): (g: Weights)
    requires Shape(w, inputs, |w.output|) && c.xs != [] && InputShape(c.xs, inputs)
    ensures Shape(g, inputs, |w.output|)
  {
    var n := |w.output|;
    Gradient(w, c.xs, States(act, w, c.xs, n, inputs), OutputGradient(q, c.target, Output(act, w, c.xs, n, inputs)),
             inputs)
  }

  function BatchGradient(act: Activations, w: Weights, cs: seq<Case>, q: real, inputs: nat): (g: Weights)
    requires Shape(w, inputs, |w.output|) && ValidCases(cs, inputs)
    ensures Shape(g, inputs, |w.output|)
  {
    if cs == [] then ZeroWeights(inputs, |w.output|)
    else AddWeights(BatchGradient(act, w, cs[..|cs| - 1], q, inputs), CaseGradient(act, w, cs[|cs| - 1], q, inputs),
                    inputs, |w.output|)
  }

  function CaseLoss(act: Activations, w: Weights, c: Case, q: real, inputs: nat): real
    requires Shape(w, inputs, |w.output|) && InputShape(c.xs, inputs)
  {
    Pinball(q, c.target, Output(act, w, c.xs, |w.output|, inputs))
  }

  /** The pinball loss of all examples together. */
  function BatchLoss(act: Activations, w: Weights, cs: seq<Case>, q: real, inputs: nat): real
    requires Shape(w, inputs, |w.output|) && ValidCases(cs, inputs)
  {
    if cs == [] then 0.0
    else BatchLoss(act, w, cs[..|cs| - 1], q, inputs) + CaseLoss(act, w, cs[|cs| - 1], q, inputs)
  }

  /** Forward, the sign of the loss, backward. */
  method AddExample(act: Activations, w: FlatWeights, c: Case, q: real, gradient: GradientBuffer)
    requires gradient.Valid() && ValidWeights(w, gradient.inputs, gradient.hidden)
    requires c.xs != [] && InputShape(c.xs, gradient.inputs)
    modifies gradient, gradient.Repr()
    ensures var ws := WeightsOf(w, gradient.inputs, gradient.hidden);
            && |ws.output| == gradient.hidden
            && gradient.Value() == AddWeights(old(gradient.Value()), CaseGradient(act, ws, c, q, gradient.inputs),
                                              gradient.inputs, gradient.hidden)
  {
    hide States, Output, Gradient, AddWeights, FlatGateValid, WeightsOf;
    WeightsOutput(w, gradient.inputs, gradient.hidden);
    var prediction, states := Forward(act, w, c.xs, gradient.inputs, gradient.hidden);
    var outputGradient := 1.0 - q;
    if c.target >= prediction { outputGradient := -q; }
    Backward(w, c.xs, states, outputGradient, gradient);
  }

  /** The loop over one batch, from a zeroed buffer. It fails exactly when some
      example cannot be encoded. */
  method AccumulateBatch(act: Activations, w: FlatWeights, e: Encoding, batch: seq<Example>, q: real, inputs: nat,
                         hidden: nat)
    returns (r: Option<GradientBuffer>)
    requires ValidWeights(w, inputs, hidden) && ValidEncoding(e, inputs)
    ensures r.Some? <==> AllEncodable(e, batch)
    ensures r.Some? ==>
              && r.value.Valid() && r.value.inputs == inputs && r.value.hidden == hidden
              && ValidCases(CasesOf(e, batch), inputs) && |WeightsOf(w, inputs, hidden).output| == hidden
              && Encodes(e, batch, CasesOf(e, batch))
              && r.value.Value() == BatchGradient(act, WeightsOf(w, inputs, hidden), CasesOf(e, batch), q, inputs)
  {
    hide AddWeights, WeightsOf, CaseGradient, AllEncodable, CasesOf, CaseOf, FlatGateValid;
    ghost var ws := WeightsOf(w, inputs, hidden);
    WeightsOutput(w, inputs, hidden);
    var gradient := new GradientBuffer(inputs, hidden);
    NothingEncoded(e, batch);
    for k := 0 to |batch|
      invariant fresh(gradient) && fresh(gradient.Repr()) && gradient.Valid() && gradient.inputs == inputs
                && gradient.hidden == hidden
      invariant AllEncodable(e, batch[..k]) && ValidCases(CasesOf(e, batch[..k]), inputs)
      invariant gradient.Value() == BatchGradient(act, ws, CasesOf(e, batch[..k]), q, inputs)
    {
      var encoded := e.inputs(batch[k].end);
      if encoded.None? {
        Unencodable(e, batch, k);
        return None;
      }
      OneMore(e, batch, k, inputs);
      var example := Case(encoded.value, (batch[k].target - e.minimum) / e.scale);
      assert example == CaseOf(e, batch[k]) by { EncodedCase(e, batch[k]); }
      AddExample(act, w, example, q, gradient);
    }
    assert batch[..|batch|] == batch;
    r := Some(gradient);
  }

  lemma EncodedCase(e: Encoding, x: Example)
    requires e.scale > 0.0 && e.inputs(x.end).Some?
    ensures CaseOf(e, x) == Case(e.inputs(x.end).value, (x.target - e.minimum) / e.scale)
  {
  }

  lemma NothingEncoded(e: Encoding, batch: seq<Example>)
    requires e.scale > 0.0
    ensures AllEncodable(e, batch[..0]) && CasesOf(e, batch[..0]) == []
  {
  }

  lemma Unencodable(e: Encoding, batch: seq<Example>, k: nat)
    requires k < |batch| && e.inputs(batch[k].end).None?
    ensures !AllEncodable(e, batch)
  {
  }

  lemma OneMore(e: Encoding, batch: seq<Example>, k: nat, inputs: nat)
    requires k < |batch| && ValidEncoding(e, inputs) && AllEncodable(e, batch[..k]) && e.inputs(batch[k].end).Some?
    ensures AllEncodable(e, batch[..k + 1])
    ensures CasesOf(e, batch[..k + 1]) == CasesOf(e, batch[..k]) + [CaseOf(e, batch[k])]
    ensures CasesOf(e, batch[..k + 1])[..k] == CasesOf(e, batch[..k])
    ensures CaseOf(e, batch[k]).xs != [] && InputShape(CaseOf(e, batch[k]).xs, inputs)
    ensures ValidCases(CasesOf(e, batch[..k]), inputs) ==> ValidCases(CasesOf(e, batch[..k + 1]), inputs)
  {
    assert batch[..k + 1] == batch[..k] + [batch[k]];
    var longer := batch[..k + 1];
    forall j | 0 <= j < |longer| ensures e.inputs(longer[j].end).Some? {
      if j < k { assert longer[j] == batch[..k][j]; }
    }
  }

  // ----- it is the derivative of the batch's loss

  lemma WeightsInnerAdd(d: Weights, a: Weights, b: Weights, inputs: nat, n: nat)
    requires Shape(d, inputs, n) && Shape(a, inputs, n) && Shape(b, inputs, n)
    ensures WeightsInner(d, AddWeights(a, b, inputs, n), inputs, n) ==
            WeightsInner(d, a, inputs, n) + WeightsInner(d, b, inputs, n)
  {
    hide GateInner, AddGate, Inner, Add;
    GateInnerAdd(d.update, a.update, b.update, inputs, n);
    GateInnerAdd(d.reset, a.reset, b.reset, inputs, n);
    GateInnerAdd(d.state, a.state, b.state, inputs, n);
    InnerAdd(d.output, a.output, b.output);
    Distributes(d.outputBias, a.outputBias, b.outputBias);
  }

  lemma WeightsInnerZero(d: Weights, inputs: nat, n: nat)
    requires Shape(d, inputs, n)
    ensures WeightsInner(d, ZeroWeights(inputs, n), inputs, n) == 0.0
  {
    hide GateInner, ZeroGate, Inner, Zeros;
    GateInnerZero(d.update, inputs, n);
    GateInnerZero(d.reset, inputs, n);
    GateInnerZero(d.state, inputs, n);
    InnerZeros(d.output);
  }

  /** No prediction of the batch sits on the kink of its loss. */
  predicate OffKinks(act: Activations, w: Weights, cs: seq<Case>, inputs: nat)
    requires Shape(w, inputs, |w.output|) && ValidCases(cs, inputs)
  {
    forall k :: 0 <= k < |cs| ==> Output(act, w, cs[k].xs, |w.output|, inputs) != cs[k].target
  }

  function LossCurve(act: Activations, w: Weights, d: Weights, cs: seq<Case>, q: real, inputs: nat): real -> real
    requires Shape(w, inputs, |w.output|) && Shape(d, inputs, |w.output|) && ValidCases(cs, inputs)
  {
    t => BatchLoss(act, Along(w, d, inputs, |w.output|, t), cs, q, inputs)
  }

  function CaseCurve(act: Activations, w: Weights, d: Weights, c: Case, q: real, inputs: nat): real -> real
    requires Shape(w, inputs, |w.output|) && Shape(d, inputs, |w.output|) && InputShape(c.xs, inputs)
  {
    t => CaseLoss(act, Along(w, d, inputs, |w.output|, t), c, q, inputs)
  }

  lemma CurveParts(act: Activations, w: Weights, d: Weights, cs: seq<Case>, q: real, inputs: nat)
    requires Shape(w, inputs, |w.output|) && Shape(d, inputs, |w.output|) && ValidCases(cs, inputs)
    ensures cs == [] ==> forall t :: LossCurve(act, w, d, cs, q, inputs)(t) == 0.0
    ensures cs != [] ==>
              forall t :: LossCurve(act, w, d, cs, q, inputs)(t) == (
                LossCurve(act, w, d, cs[..|cs| - 1], q, inputs)(t) + CaseCurve(act, w, d, cs[|cs| - 1], q, inputs)(t))
  {
    hide Along, CaseLoss;
  }

  lemma CaseSlope(act: Activations, w: Weights, d: Weights, c: Case, q: real, inputs: nat)
    requires Differentiable(act) && Shape(w, inputs, |w.output|) && Shape(d, inputs, |w.output|)
    requires c.xs != [] && InputShape(c.xs, inputs) && Output(act, w, c.xs, |w.output|, inputs) != c.target
    ensures HasSlope(CaseCurve(act, w, d, c, q, inputs),
                     WeightsInner(d, CaseGradient(act, w, c, q, inputs), inputs, |w.output|))
  {
    hide Differentiable, HasSlope, Output, Along, WeightsInner, Gradient, States, Pinball, OutputGradient;
    BackwardDifferentiatesTheLoss(act, w, d, c.xs, q, c.target, inputs, CaseCurve(act, w, d, c, q, inputs));
  }

  /** Main theorem of training: after the batch loop the buffer holds, in every
      direction of weight space, the derivative of the batch's summed loss. */
  lemma {:induction false} BatchDifferentiatesTheLoss(act: Activations, w: Weights, d: Weights, cs: seq<Case>, q: real,
                                                      inputs: nat)
    requires Differentiable(act) && Shape(w, inputs, |w.output|) && Shape(d, inputs, |w.output|)
    requires ValidCases(cs, inputs) && OffKinks(act, w, cs, inputs)
    ensures HasSlope(LossCurve(act, w, d, cs, q, inputs),
                     WeightsInner(d, BatchGradient(act, w, cs, q, inputs), inputs, |w.output|))
  {
    hide Differentiable, HasSlope, Output, WeightsInner, CaseGradient, LossCurve, CaseCurve, AddWeights;
    CurveParts(act, w, d, cs, q, inputs);
    if cs == [] {
      WeightsInnerZero(d, inputs, |w.output|);
      ConstantSlope(LossCurve(act, w, d, cs, q, inputs), 0.0);
    } else {
      var rest, last := cs[..|cs| - 1], cs[|cs| - 1];
      var a, b := BatchGradient(act, w, rest, q, inputs), CaseGradient(act, w, last, q, inputs);
      BatchDifferentiatesTheLoss(act, w, d, rest, q, inputs);
      CaseSlope(act, w, d, last, q, inputs);
      WeightsInnerAdd(d, a, b, inputs, |w.output|);
      SumSlopeIs(LossCurve(act, w, d, rest, q, inputs), CaseCurve(act, w, d, last, q, inputs),
                 LossCurve(act, w, d, cs, q, inputs),
                 WeightsInner(d, a, inputs, |w.output|), WeightsInner(d, b, inputs, |w.output|),
                 WeightsInner(d, BatchGradient(act, w, cs, q, inputs), inputs, |w.output|));
    }
  }

  // ----- the same in units of demand

  /** A network output as the forecast reports it. */
  function Demand(e: Encoding, y: real): real { e.minimum + e.scale * y }

  /** What one forecast loses in units of demand. */
  function ForecastLoss(act: Activations, w: Weights, e: Encoding, x: Example, q: real, inputs: nat): real
    requires Shape(w, inputs, |w.output|) && ValidEncoding(e, inputs) && e.inputs(x.end).Some?
  {
    Pinball(q, x.target, Demand(e, Output(act, w, InputsOf(e, x), |w.output|, inputs)))
  }

  /** The losses of all forecasts, with the network's output scaled back, against
      the observed horizon maxima. */
  function DemandLoss(act: Activations, w: Weights, e: Encoding, batch: seq<Example>, q: real, inputs: nat): real
    requires Shape(w, inputs, |w.output|) && ValidEncoding(e, inputs) && AllEncodable(e, batch)
  {
    if batch == [] then 0.0
    else DemandLoss(act, w, e, batch[..|batch| - 1], q, inputs) +
         ForecastLoss(act, w, e, batch[|batch| - 1], q, inputs)
  }

  lemma PinballScales(e: Encoding, q: real, target: real, y: real)
    requires e.scale > 0.0
    ensures e.scale * Pinball(q, target, y) == Pinball(q, Demand(e, target), Demand(e, y))
  {
    var up, down := target - y, y - target;
    assert e.scale * target - e.scale * y == e.scale * up;
    assert e.scale * (q * up) == q * (e.scale * up);
    assert e.scale * ((1.0 - q) * down) == (1.0 - q) * (e.scale * down);
  }

  lemma CaseInDemandUnits(act: Activations, w: Weights, e: Encoding, x: Example, c: Case, q: real, inputs: nat)
    requires Shape(w, inputs, |w.output|) && ValidEncoding(e, inputs) && e.inputs(x.end).Some?
    requires c.xs == InputsOf(e, x)
    requires Demand(e, c.target) == x.target
    ensures e.scale * CaseLoss(act, w, c, q, inputs) == ForecastLoss(act, w, e, x, q, inputs)
  {
    hide Output, Pinball;
    PinballScales(e, q, c.target, Output(act, w, c.xs, |w.output|, inputs));
  }

  lemma ShorterCases(e: Encoding, batch: seq<Example>)
    requires batch != [] && AllEncodable(e, batch) && e.scale > 0.0
    ensures AllEncodable(e, batch[..|batch| - 1])
    ensures CasesOf(e, batch)[..|batch| - 1] == CasesOf(e, batch[..|batch| - 1])
  {
  }

  /** The scaled batch loss is the summed loss of the forecasts in units of demand. */
  lemma {:induction false} LossInDemandUnits(act: Activations, w: Weights, e: Encoding, batch: seq<Example>, q: real,
                                             inputs: nat)
    requires Shape(w, inputs, |w.output|) && ValidEncoding(e, inputs) && AllEncodable(e, batch)
    ensures ValidCases(CasesOf(e, batch), inputs)
    ensures e.scale * BatchLoss(act, w, CasesOf(e, batch), q, inputs) == DemandLoss(act, w, e, batch, q, inputs)
  {
    hide CaseLoss, ForecastLoss, CaseOf, CasesOf;
    if batch != [] {
      var n := |batch| - 1;
      var cs := CasesOf(e, batch);
      LossInDemandUnits(act, w, e, batch[..n], q, inputs);
      ShorterCases(e, batch);
      CaseInDemandUnits(act, w, e, batch[n], cs[n], q, inputs);
      Distributes(e.scale, BatchLoss(act, w, cs[..n], q, inputs), CaseLoss(act, w, cs[n], q, inputs));
    }
  }

  function DemandCurve(act: Activations, w: Weights, d: Weights, e: Encoding, batch: seq<Example>, q: real,
                       inputs: nat): real -> real
    requires Shape(w, inputs, |w.output|) && Shape(d, inputs, |w.output|)
    requires ValidEncoding(e, inputs) && AllEncodable(e, batch)
  {
    t => DemandLoss(act, Along(w, d, inputs, |w.output|, t), e, batch, q, inputs)
  }

  /** No forecast of the batch equals the maximum that was observed. */
  predicate NoneExact(act: Activations, w: Weights, e: Encoding, batch: seq<Example>, inputs: nat)
    requires Shape(w, inputs, |w.output|) && ValidEncoding(e, inputs) && AllEncodable(e, batch)
  {
    forall k :: 0 <= k < |batch| ==>
      Demand(e, Output(act, w, InputsOf(e, batch[k]), |w.output|, inputs)) != batch[k].target
  }

  /** So what the batch loop leaves, times the scale, is the derivative of the loss
      of the forecasts in units of demand. */
  lemma BatchDifferentiatesTheDemandLoss(act: Activations, w: Weights, d: Weights, e: Encoding, batch: seq<Example>,
                                         q: real, inputs: nat)
    requires Differentiable(act) && Shape(w, inputs, |w.output|) && Shape(d, inputs, |w.output|)
    requires ValidEncoding(e, inputs) && AllEncodable(e, batch) && NoneExact(act, w, e, batch, inputs)
    ensures ValidCases(CasesOf(e, batch), inputs)
    ensures HasSlope(DemandCurve(act, w, d, e, batch, q, inputs),
                     Times(e.scale,
                           WeightsInner(d, BatchGradient(act, w, CasesOf(e, batch), q, inputs), inputs, |w.output|)))
  {
    hide Differentiable, HasSlope, Output, WeightsInner, BatchGradient, BatchLoss, DemandLoss, CaseOf, CasesOf, Along;
    var cs := CasesOf(e, batch);
    LossInDemandUnits(act, w, e, batch, q, inputs);
    assert OffKinks(act, w, cs, inputs);
    BatchDifferentiatesTheLoss(act, w, d, cs, q, inputs);
    var f, g := LossCurve(act, w, d, cs, q, inputs), DemandCurve(act, w, d, e, batch, q, inputs);
    forall t ensures g(t) == Times(e.scale, f(t)) {
      LossInDemandUnits(act, Along(w, d, inputs, |w.output|, t), e, batch, q, inputs);
    }
    ScaleSlope(f, g, e.scale, WeightsInner(d, BatchGradient(act, w, cs, q, inputs), inputs, |w.output|));
  }
}

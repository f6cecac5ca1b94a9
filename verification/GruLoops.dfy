/** The loops of internal/forecast/gru.go over flat row-major slices, proved
    against the recurrence and the gradient of module Gru. */
module GruLoops {
  import opened Products
  import opened RealArithmetic
  import opened Vectors
  import opened Gru

  // ----- flat row-major storage

  lemma RowOffset(r: nat, rows: nat, cols: nat)
    requires r < rows
    ensures r * cols + cols == (r + 1) * cols <= rows * cols
  {
    ProductNext(r, cols);
    ProductGrows(r + 1, rows, cols);
  }

  function RowAt(m: Vec, rows: nat, cols: nat, r: nat): (v: Vec)
    requires |m| == rows * cols && r < rows
    ensures |v| == cols
  {
    RowOffset(r, rows, cols);
    m[r * cols..r * cols + cols]
  }

  function Rows(m: Vec, rows: nat, cols: nat): (r: Mat)
    requires |m| == rows * cols
    ensures IsMat(r, rows, cols)
  {
    seq(rows, i requires 0 <= i < rows => RowAt(m, rows, cols, i))
  }

  datatype FlatGate = FlatGate(input: Vec, hidden: Vec, bias: Vec)

  datatype FlatWeights = FlatWeights(update: FlatGate, reset: FlatGate, state: FlatGate, output: Vec, outputBias: real)

  predicate FlatGateValid(g: FlatGate, inputs: nat, hidden: nat) {
    |g.input| == hidden * inputs && |g.hidden| == hidden * hidden && |g.bias| == hidden
  }

  /** The length half of validGRUWeights. */
  predicate ValidWeights(w: FlatWeights, inputs: nat, hidden: nat) {
    FlatGateValid(w.update, inputs, hidden) && FlatGateValid(w.reset, inputs, hidden) &&
    FlatGateValid(w.state, inputs, hidden) && |w.output| == hidden
  }

  function GateOf(g: FlatGate, inputs: nat, hidden: nat): (r: Gate)
    requires FlatGateValid(g, inputs, hidden)
    ensures GateShape(r, inputs, hidden)
  {
    Gate(Rows(g.input, hidden, inputs), Rows(g.hidden, hidden, hidden), g.bias)
  }

  function WeightsOf(w: FlatWeights, inputs: nat, hidden: nat): (r: Weights)
    requires ValidWeights(w, inputs, hidden)
    ensures Shape(r, inputs, hidden)
  {
    Weights(GateOf(w.update, inputs, hidden), GateOf(w.reset, inputs, hidden), GateOf(w.state, inputs, hidden),
            w.output, w.outputBias)
  }

  lemma FlatIndex(m: Vec, rows: nat, cols: nat, r: nat, c: nat)
    requires |m| == rows * cols && r < rows && c < cols
    ensures r * cols + c < |m| && Rows(m, rows, cols)[r][c] == m[r * cols + c]
  {
    RowOffset(r, rows, cols);
  }

  lemma SumNext(v: Vec, k: nat)
    requires k < |v|
    ensures Sum(v[..k + 1]) == Sum(v[..k]) + v[k]
  {
    assert v[..k + 1][..k] == v[..k];
  }

  // ----- forward

  /** value + the dot product of one flat row with x. */
  method AccumulateRow(m: Vec, rows: nat, row: nat, x: Vec, start: real) returns (value: real)
    requires |m| == rows * |x| && row < rows
    ensures value == start + Inner(Rows(m, rows, |x|)[row], x)
  {
    value := start;
    ghost var products := Mul(Rows(m, rows, |x|)[row], x);
    for column := 0 to |x|
      invariant value == start + Sum(products[..column])
    {
      FlatIndex(m, rows, |x|, row, column);
      SumNext(products, column);
      value := value + m[row * |x| + column] * x[column];
    }
    assert products[..|x|] == products;
  }

  method GruAffine(g: FlatGate, input: Vec, hidden: Vec, row: nat) returns (value: real)
    requires FlatGateValid(g, |input|, |hidden|) && row < |hidden|
    ensures value == Affine(GateOf(g, |input|, |hidden|), input, hidden)[row]
  {
    value := AccumulateRow(g.input, |hidden|, row, input, g.bias[row]);
    value := AccumulateRow(g.hidden, |hidden|, row, hidden, value);
  }

  lemma CandidateTerm(m: Vec, row: nat, reset: Vec, previous: Vec, column: nat)
    requires |m| == |previous| * |previous| && row < |previous| == |reset| && column < |previous|
    ensures var n := |previous|;
            && row * n + column < |m|
            && Mul(Rows(m, n, n)[row], Mul(reset, previous))[column] ==
              m[row * n + column] * reset[column] * previous[column]
  {
    FlatIndex(m, |previous|, |previous|, row, column);
    Associates(m[row * |previous| + column], reset[column], previous[column]);
  }

  /** start + the dot product of one flat row with reset * previous. */
  method AccumulateProducts(m: Vec, row: nat, reset: Vec, previous: Vec, start: real) returns (value: real)
    requires |m| == |previous| * |previous| && row < |previous| == |reset|
    ensures value == start + Inner(Rows(m, |previous|, |previous|)[row], Mul(reset, previous))
  {
    hide Mul, Rows;
    var n := |previous|;
    value := start;
    ghost var products := Mul(Rows(m, n, n)[row], Mul(reset, previous));
    for column := 0 to n
      invariant value == start + Sum(products[..column])
    {
      CandidateTerm(m, row, reset, previous, column);
      SumNext(products, column);
      value := value + m[row * n + column] * reset[column] * previous[column];
    }
    assert products[..n] == products;
  }

  /** The candidate row reads reset * previous inside its own loop. */
  method CandidateSum(g: FlatGate, input: Vec, reset: Vec, previous: Vec, row: nat) returns (value: real)
    requires FlatGateValid(g, |input|, |previous|) && |reset| == |previous| && row < |previous|
    ensures value == Affine(GateOf(g, |input|, |previous|), input, Mul(reset, previous))[row]
  {
    hide Mul, Inner, Rows;
    value := AccumulateRow(g.input, |previous|, row, input, g.bias[row]);
    value := AccumulateProducts(g.hidden, row, reset, previous, value);
  }

  /** The first row loop of a forward time step. */
  method GateRows(act: Activations, w: FlatWeights, input: Vec, previous: Vec) returns (update: Vec, reset: Vec)
    requires ValidWeights(w, |input|, |previous|)
    ensures update == Map(act.sigmoid, Affine(GateOf(w.update, |input|, |previous|), input, previous))
    ensures reset == Map(act.sigmoid, Affine(GateOf(w.reset, |input|, |previous|), input, previous))
  {
    hide Affine, GateOf;
    var n := |previous|;
    var u, r := new real[n], new real[n];
    ghost var au := Affine(GateOf(w.update, |input|, n), input, previous);
    ghost var ar := Affine(GateOf(w.reset, |input|, n), input, previous);
    for row := 0 to n
      invariant forall i :: 0 <= i < row ==> u[i] == act.sigmoid(au[i]) && r[i] == act.sigmoid(ar[i])
    {
      var a := GruAffine(w.update, input, previous, row);
      var b := GruAffine(w.reset, input, previous, row);
      u[row], r[row] := act.sigmoid(a), act.sigmoid(b);
    }
    update, reset := u[..], r[..];
  }

  /** One row of the new hidden vector. */
  function Mix(update: real, previous: real, candidate: real): real {
    (1.0 - update) * previous + update * candidate
  }

  /** The second row loop of a forward time step. */
  method CandidateRows(act: Activations, w: FlatWeights, input: Vec, previous: Vec, update: Vec, reset: Vec)
    returns (candidate: Vec, hidden: Vec)
    requires ValidWeights(w, |input|, |previous|) && |update| == |reset| == |previous|
    ensures candidate == Map(act.tanh, Affine(GateOf(w.state, |input|, |previous|), input, Mul(reset, previous)))
    ensures hidden == Blend(update, previous, candidate)
  {
    hide Affine, GateOf, Mul, Blend, FlatGateValid, Mix;
    var n := |previous|;
    var c, h := new real[n], new real[n];
    ghost var ac := Affine(GateOf(w.state, |input|, n), input, Mul(reset, previous));
    for row := 0 to n
      invariant forall i :: 0 <= i < row ==> c[i] == act.tanh(ac[i])
      invariant forall i :: 0 <= i < row ==> h[i] == Mix(update[i], previous[i], c[i])
    {
      var value := CandidateSum(w.state, input, reset, previous, row);
      c[row] := act.tanh(value);
      h[row] := Mix(update[row], previous[row], c[row]);
    }
    candidate, hidden := c[..], h[..];
    BlendAt(update, previous, candidate, hidden);
  }

  lemma BlendAt(update: Vec, previous: Vec, candidate: Vec, hidden: Vec)
    requires |update| == |previous| == |candidate| == |hidden|
    requires forall i :: 0 <= i < |hidden| ==> hidden[i] == Mix(update[i], previous[i], candidate[i])
    ensures hidden == Blend(update, previous, candidate)
  {
    var a, b := Mul(OneMinus(update), previous), Mul(update, candidate);
    assert forall i :: 0 <= i < |hidden| ==> hidden[i] == a[i] + b[i];
  }

  method ForwardStep(act: Activations, w: FlatWeights, input: Vec, previous: Vec) returns (s: State)
    requires ValidWeights(w, |input|, |previous|)
    ensures s == Step(act, WeightsOf(w, |input|, |previous|), input, previous)
  {
    var update, reset := GateRows(act, w, input, previous);
    var candidate, hidden := CandidateRows(act, w, input, previous, update, reset);
    s := State(update, reset, candidate, hidden);
  }

  /** The linear readout of the last hidden vector. */
  method Readout(weights: Vec, hidden: Vec, bias: real) returns (output: real)
    requires |weights| == |hidden|
    ensures output == bias + Inner(weights, hidden)
  {
    ghost var products := Mul(weights, hidden);
    output := bias;
    for i := 0 to |hidden|
      invariant output == bias + Sum(products[..i])
    {
      SumNext(products, i);
      output := output + weights[i] * hidden[i];
    }
    assert products[..|hidden|] == products;
  }

  method Forward(act: Activations, w: FlatWeights, xs: seq<Vec>, inputs: nat, hidden: nat)
    returns (output: real, states: seq<State>)
    requires ValidWeights(w, inputs, hidden) && InputShape(xs, inputs)
    ensures states == States(act, WeightsOf(w, inputs, hidden), xs, hidden, inputs)
    ensures output == Output(act, WeightsOf(w, inputs, hidden), xs, hidden, inputs)
  {
    hide Step, FlatGateValid, GateOf;
    var previous := Zeros(hidden);
    states := [];
    ghost var ws := WeightsOf(w, inputs, hidden);
    for t := 0 to |xs|
      invariant previous == Hidden(act, ws, xs, hidden, inputs, t)
      invariant states == States(act, ws, xs, hidden, inputs)[..t]
    {
      var state := ForwardStep(act, w, xs[t], previous);
      states := states + [state];
      previous := state.hidden;
    }
    output := Readout(w.output, previous, w.outputBias);
  }
}

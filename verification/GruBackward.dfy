/** `backward` of internal/forecast/gru.go: nested loops that accumulate into
    the gradient slices in place. */
module GruBackward {
  import opened Vectors
  import opened Gru
  import opened GruLoops

  // ----- one flat matrix, updated one row at a time

  lemma RowsAfterWrite(before: Vec, after: Vec, rows: nat, cols: nat, row: nat, v: Vec)
    requires |before| == |after| == rows * cols && row < rows && |v| == cols
    requires row * cols + cols <= rows * cols
    requires after == before[..row * cols] + v + before[row * cols + cols..]
    ensures Rows(after, rows, cols) == Rows(before, rows, cols)[row := v]
  {
    var a, b := Rows(after, rows, cols), Rows(before, rows, cols)[row := v];
    forall i | 0 <= i < rows ensures a[i] == b[i] {
      RowOffset(i, rows, cols);
      if i < row {
        RowOffset(i, row, cols);
      } else if i > row {
        RowOffset(row, i, cols);
      }
    }
  }

  /** m[off+column] += k*x[column], for every column. */
  method AddScaledAt(m: array<real>, off: nat, k: real, x: Vec)
    requires off + |x| <= m.Length
    modifies m
    ensures m[..] == old(m[..off]) + Add(old(m[off..off + |x|]), Scale(k, x)) + old(m[off + |x|..])
  {
    ghost var before := m[..];
    ghost var v := Add(before[off..off + |x|], Scale(k, x));
    for column := 0 to |x|
      invariant forall j :: 0 <= j < m.Length ==> m[j] == if off <= j < off + column then v[j - off] else before[j]
    {
      m[off + column] := m[off + column] + k * x[column];
    }
  }

  /** m[row*cols+column] += k*x[column], for every column. */
  method AddScaledRow(m: array<real>, rows: nat, row: nat, k: real, x: Vec)
    requires m.Length == rows * |x| && row < rows
    modifies m
    ensures Rows(m[..], rows, |x|)
         == Rows(old(m[..]), rows, |x|)[row := Add(Rows(old(m[..]), rows, |x|)[row], Scale(k, x))]
  {
    hide Add, Scale;
    RowOffset(row, rows, |x|);
    ghost var before := m[..];
    assert before[row * |x|..row * |x| + |x|] == Rows(before, rows, |x|)[row];
    AddScaledAt(m, row * |x|, k, x);
    RowsAfterWrite(before, m[..], rows, |x|, row, Add(Rows(before, rows, |x|)[row], Scale(k, x)));
  }

  // ----- the gradient slices of one gate

  function RowAdded(v: Gate, row: nat, raw: real, x: Vec, z: Vec): (g: Gate)
    requires GateShape(v, |x|, |z|) && row < |z|
    ensures GateShape(g, |x|, |z|)
  {
    Gate(v.input[row := Add(v.input[row], Scale(raw, x))],
         v.hidden[row := Add(v.hidden[row], Scale(raw, z))],
         v.bias[row := v.bias[row] + raw])
  }

  function RowsAdded(v: Gate, raws: Vec, x: Vec, z: Vec, k: nat): (g: Gate)
    requires GateShape(v, |x|, |z|) && |raws| == |z| && k <= |z|
    ensures GateShape(g, |x|, |z|)
  {
    if k == 0 then v else RowAdded(RowsAdded(v, raws, x, z, k - 1), k - 1, raws[k - 1], x, z)
  }

  lemma {:induction false} RowsAddedAt(v: Gate, raws: Vec, x: Vec, z: Vec, k: nat)
    requires GateShape(v, |x|, |z|) && |raws| == |z| && k <= |z|
    ensures var g := RowsAdded(v, raws, x, z, k);
            && (forall r :: 0 <= r < k ==>
                  (g.input[r] == Add(v.input[r], Scale(raws[r], x)) &&
                   g.hidden[r] == Add(v.hidden[r], Scale(raws[r], z)) &&
                   g.bias[r] == v.bias[r] + raws[r]))
            && (forall r :: k <= r < |z| ==>
                  (g.input[r] == v.input[r] && g.hidden[r] == v.hidden[r] && g.bias[r] == v.bias[r]))
  {
    hide Add, Scale;
    if k > 0 { RowsAddedAt(v, raws, x, z, k - 1); }
  }

  /** Adding every row adds the outer products. */
  lemma AllRowsAdded(v: Gate, raws: Vec, x: Vec, z: Vec)
    requires GateShape(v, |x|, |z|) && |raws| == |z|
    ensures RowsAdded(v, raws, x, z, |z|) == AddGate(v, GateGradient(raws, x, z), |x|, |z|)
  {
    hide Add, Scale;
    RowsAddedAt(v, raws, x, z, |z|);
    var g, s := RowsAdded(v, raws, x, z, |z|), AddGate(v, GateGradient(raws, x, z), |x|, |z|);
    assert g.input == s.input;
    assert g.hidden == s.hidden;
    BiasAdded(v.bias, raws, g.bias);
  }

  lemma BiasAdded(v: Vec, raws: Vec, g: Vec)
    requires |v| == |raws| == |g| && forall r :: 0 <= r < |g| ==> g[r] == v[r] + raws[r]
    ensures g == Add(v, raws)
  {
  }

  class GateBuffer {
    const inputs: nat
    const hiddenSize: nat
    const input: array<real>
    const hidden: array<real>
    const bias: array<real>

    constructor (inputs: nat, hiddenSize: nat)
      ensures Valid() && this.inputs == inputs && this.hiddenSize == hiddenSize
      ensures fresh(Repr())
      ensures Value() == ZeroGate(inputs, hiddenSize)
    {
      this.inputs, this.hiddenSize := inputs, hiddenSize;
      input := new real[hiddenSize * inputs](_ => 0.0);
      hidden := new real[hiddenSize * hiddenSize](_ => 0.0);
      bias := new real[hiddenSize](_ => 0.0);
      new;
      ZeroRows(input[..], hiddenSize, inputs);
      ZeroRows(hidden[..], hiddenSize, hiddenSize);
      assert bias[..] == Zeros(hiddenSize);
    }

    ghost predicate Valid() {
      && input.Length == hiddenSize * inputs && hidden.Length == hiddenSize * hiddenSize && bias.Length == hiddenSize
      && input != hidden && input != bias && hidden != bias
    }

    ghost function Repr(): set<object> { {input, hidden, bias} }

    ghost function Value(): (g: Gate)
      requires Valid()
      reads input, hidden, bias
      ensures GateShape(g, inputs, hiddenSize)
    {
      Gate(Rows(input[..], hiddenSize, inputs), Rows(hidden[..], hiddenSize, hiddenSize), bias[..])
    }

    /** The column loops of one row. */
    method AddRow(row: nat, raw: real, x: Vec, z: Vec)
      requires Valid() && |x| == inputs && |z| == hiddenSize && row < hiddenSize
      modifies input, hidden, bias
      ensures Value() == RowAdded(old(Value()), row, raw, x, z)
    {
      bias[row] := bias[row] + raw;
      AddScaledRow(input, hiddenSize, row, raw, x);
      AddScaledRow(hidden, hiddenSize, row, raw, z);
    }
  }

  lemma ZeroRows(m: Vec, rows: nat, cols: nat)
    requires |m| == rows * cols && forall i :: 0 <= i < |m| ==> m[i] == 0.0
    ensures Rows(m, rows, cols) == ZeroMat(rows, cols)
  {
    forall r | 0 <= r < rows ensures Rows(m, rows, cols)[r] == Zeros(cols) {
      RowOffset(r, rows, cols);
    }
  }

  // ----- one backward time step

  lemma DirectTerms(s: State, p: Vec, dH: Vec, i: nat)
    requires StateShape(s, |p|) && |dH| == |p| && i < |p|
    ensures Mul(dH, OneMinus(s.update))[i] == dH[i] * (1.0 - s.update[i])
    ensures Mul(dH, Sub(s.candidate, p))[i] == dH[i] * (s.candidate[i] - p[i])
    ensures Mul(dH, s.update)[i] == dH[i] * s.update[i]
  {
  }

  /** The first row loop: what reaches the previous hidden vector directly, and
      the sensitivities of the update gate and of the candidate. */
  method DirectRows(s: State, previous: Vec, dHidden: Vec)
    returns (dPrevious: array<real>, dUpdate: Vec, dCandidate: Vec)
    requires StateShape(s, |previous|) && |dHidden| == |previous|
    ensures fresh(dPrevious)
    ensures dPrevious[..] == Mul(dHidden, OneMinus(s.update))
    ensures dUpdate == Mul(dHidden, Sub(s.candidate, previous))
    ensures dCandidate == Mul(dHidden, s.update)
  {
    hide Mul, Sub, OneMinus;
    var n := |previous|;
    dPrevious := new real[n](_ => 0.0);
    var u, c := new real[n](_ => 0.0), new real[n](_ => 0.0);
    ghost var direct, du := Mul(dHidden, OneMinus(s.update)), Mul(dHidden, Sub(s.candidate, previous));
    ghost var dc := Mul(dHidden, s.update);
    for row := 0 to n
      invariant forall i :: 0 <= i < n ==> dPrevious[i] == if i < row then direct[i] else 0.0
      invariant forall i :: 0 <= i < row ==> u[i] == du[i] && c[i] == dc[i]
    {
      DirectTerms(s, previous, dHidden, row);
      dPrevious[row] := dPrevious[row] + dHidden[row] * (1.0 - s.update[row]);
      u[row] := dHidden[row] * (s.candidate[row] - previous[row]);
      c[row] := dHidden[row] * s.update[row];
    }
    dUpdate, dCandidate := u[..], c[..];
  }

  lemma VecMatNext(y: Vec, m: Mat, cols: nat, k: nat)
    requires IsMat(m, |y|, cols) && k < |y|
    ensures VecMat(y[..k + 1], m[..k + 1], cols) == Add(VecMat(y[..k], m[..k], cols), Scale(y[k], m[k]))
  {
    assert y[..k + 1][..k] == y[..k] && m[..k + 1][..k] == m[..k];
  }

  /** The column loops of one candidate row. */
  method StateRow(g: GateBuffer, w: FlatGate, x: Vec, z: Vec, row: nat, raw: real, product: array<real>)
    requires g.Valid() && g.inputs == |x| && g.hiddenSize == |z| == product.Length && row < |z|
    requires FlatGateValid(w, |x|, |z|) && product !in g.Repr()
    modifies g.input, g.hidden, g.bias, product
    ensures g.Value() == RowAdded(old(g.Value()), row, raw, x, z)
    ensures product[..] == Add(old(product[..]), Scale(raw, GateOf(w, |x|, |z|).hidden[row]))
  {
    hide RowAdded, Add, Scale;
    g.AddRow(row, raw, x, z);
    RowOffset(row, |z|, |z|);
    AddInto(product, raw, w.hidden[row * |z|..row * |z| + |z|]);
  }

  /** The candidate's row loop: its weight gradients, and the sensitivity of
      the product reset * previous. */
  method StateRows(g: GateBuffer, w: FlatGate, x: Vec, s: State, previous: Vec, dCandidate: Vec) returns (dProduct: Vec)
    requires g.Valid() && g.inputs == |x| && g.hiddenSize == |previous|
    requires FlatGateValid(w, |x|, |previous|) && StateShape(s, |previous|) && |dCandidate| == |previous|
    modifies g.input, g.hidden, g.bias
    ensures g.Value() == AddGate(old(g.Value()),
                                 GateGradient(Mul(dCandidate, TanhSlope(s.candidate)), x, Mul(s.reset, previous)),
                                 |x|, |previous|)
    ensures dProduct == VecMat(Mul(dCandidate, TanhSlope(s.candidate)), GateOf(w, |x|, |previous|).hidden, |previous|)
  {
    hide RawState, FlatGateValid, RowAdded, AddGate, GateGradient, GateOf, VecMat, Mul, TanhSlope, Add, Scale, Zeros;
    var n, z := |previous|, Mul(s.reset, previous);
    ghost var raws, m, start := Mul(dCandidate, TanhSlope(s.candidate)), GateOf(w, |x|, n).hidden, g.Value();
    var product := new real[n](_ => 0.0);
    StartZero(product[..]);
    VecMatNone(raws[..0], m[..0], n);
    for row := 0 to n
      invariant g.Value() == RowsAdded(start, raws, x, z, row)
      invariant product[..] == VecMat(raws[..row], m[..row], n)
    {
      var raw := RawState(dCandidate[row], s.candidate[row]);
      StateTerm(s.candidate, dCandidate, row);
      StateRow(g, w, x, z, row, raw, product);
      VecMatNext(raws, m, n, row);
    }
    AllRowsAdded(start, raws, x, z);
    assert raws[..n] == raws && m[..n] == m;
    dProduct := product[..];
  }

  function RawState(dCandidate: real, candidate: real): real {
    dCandidate * (1.0 - candidate * candidate)
  }

  lemma StateTerm(candidate: Vec, dCandidate: Vec, i: nat)
    requires |candidate| == |dCandidate| && i < |candidate|
    ensures Mul(dCandidate, TanhSlope(candidate))[i] == RawState(dCandidate[i], candidate[i])
  {
  }

  lemma StartZero(v: Vec)
    requires forall i :: 0 <= i < |v| ==> v[i] == 0.0
    ensures v == Zeros(|v|)
  {
  }

  lemma VecMatNone(y: Vec, m: Mat, cols: nat)
    requires |y| == |m| == 0
    ensures VecMat(y, m, cols) == Zeros(cols)
  {
  }

  /** v[column] += k*x[column]. */
  method AddInto(v: array<real>, k: real, x: Vec)
    requires |x| == v.Length
    modifies v
    ensures v[..] == Add(old(v[..]), Scale(k, x))
  {
    ghost var before := v[..];
    AddScaledAt(v, 0, k, x);
    assert before[0..|x|] == before;
  }

  lemma ResetTerms(before: Vec, s: State, p: Vec, dProduct: Vec, i: nat)
    requires StateShape(s, |p|) && |dProduct| == |before| == |p| && i < |p|
    ensures Add(before, Mul(dProduct, s.reset))[i] == before[i] + dProduct[i] * s.reset[i]
    ensures Mul(dProduct, p)[i] == dProduct[i] * p[i]
  {
  }

  /** The reset row loop. */
  method ResetRows(dPrevious: array<real>, s: State, previous: Vec, dProduct: Vec) returns (dReset: Vec)
    requires StateShape(s, |previous|) && |dProduct| == dPrevious.Length == |previous|
    modifies dPrevious
    ensures dPrevious[..] == Add(old(dPrevious[..]), Mul(dProduct, s.reset))
    ensures dReset == Mul(dProduct, previous)
  {
    hide Mul, Add;
    var n := |previous|;
    ghost var before := dPrevious[..];
    ghost var after, dr := Add(before, Mul(dProduct, s.reset)), Mul(dProduct, previous);
    var r := new real[n](_ => 0.0);
    for row := 0 to n
      invariant forall i :: 0 <= i < n ==> dPrevious[i] == if i < row then after[i] else before[i]
      invariant forall i :: 0 <= i < row ==> r[i] == dr[i]
    {
      ResetTerms(before, s, previous, dProduct, row);
      r[row] := dProduct[row] * previous[row];
      dPrevious[row] := dPrevious[row] + dProduct[row] * s.reset[row];
    }
    dReset := r[..];
  }

  function RawGate(d: real, s: real): real {
    d * s * (1.0 - s)
  }

  lemma GateTerm(d: Vec, s: Vec, i: nat)
    requires |d| == |s| && i < |s|
    ensures Mul(d, SigmoidSlope(s))[i] == RawGate(d[i], s[i])
  {
    Associates(d[i], s[i], 1.0 - s[i]);
  }

  /** dPrevious[column] += ku*a[column] + kr*b[column]. */
  method AddTwo(v: array<real>, ku: real, a: Vec, kr: real, b: Vec)
    requires |a| == |b| == v.Length
    modifies v
    ensures v[..] == Add(old(v[..]), Add(Scale(ku, a), Scale(kr, b)))
  {
    hide Add, Scale;
    ghost var before := v[..];
    ghost var after := Add(before, Add(Scale(ku, a), Scale(kr, b)));
    for column := 0 to v.Length
      invariant forall i :: 0 <= i < v.Length ==> v[i] == if i < column then after[i] else before[i]
    {
      TwoTerms(before, ku, a, kr, b, column);
      v[column] := v[column] + (ku * a[column] + kr * b[column]);
    }
  }

  lemma TwoTerms(before: Vec, ku: real, a: Vec, kr: real, b: Vec, i: nat)
    requires |before| == |a| == |b| && i < |a|
    ensures Add(before, Add(Scale(ku, a), Scale(kr, b)))[i] == before[i] + (ku * a[i] + kr * b[i])
  {
  }

  /** The column loops of one row of the update and reset gates. */
  method GateRow(gu: GateBuffer, gr: GateBuffer, wu: FlatGate, wr: FlatGate, x: Vec, p: Vec, row: nat,
                 rawUpdate: real, rawReset: real, dPrevious: array<real>)
    requires gu.Valid() && gu.inputs == |x| && gu.hiddenSize == |p|
    requires gr.Valid() && gr.inputs == |x| && gr.hiddenSize == |p| && gu.Repr() !! gr.Repr()
    requires dPrevious !in gu.Repr() + gr.Repr() && dPrevious.Length == |p| && row < |p|
    requires FlatGateValid(wu, |x|, |p|) && FlatGateValid(wr, |x|, |p|)
    modifies gu.Repr(), gr.Repr(), dPrevious
    ensures gu.Value() == RowAdded(old(gu.Value()), row, rawUpdate, x, p)
    ensures gr.Value() == RowAdded(old(gr.Value()), row, rawReset, x, p)
    ensures dPrevious[..] == Add(old(dPrevious[..]), Add(Scale(rawUpdate, GateOf(wu, |x|, |p|).hidden[row]),
                                                         Scale(rawReset, GateOf(wr, |x|, |p|).hidden[row])))
  {
    hide RowAdded, Add, Scale;
    var n := |p|;
    gu.AddRow(row, rawUpdate, x, p);
    gr.AddRow(row, rawReset, x, p);
    RowOffset(row, n, n);
    AddTwo(dPrevious, rawUpdate, wu.hidden[row * n..row * n + n], rawReset, wr.hidden[row * n..row * n + n]);
  }

  /** direct + y a + z b, over the first k rows. */
  function FlowBack(direct: Vec, y: Vec, a: Mat, z: Vec, b: Mat, k: nat): (v: Vec)
    requires IsMat(a, |y|, |direct|) && IsMat(b, |z|, |direct|) && k <= |y| && k <= |z|
    ensures |v| == |direct|
  {
    Add(direct, Add(VecMat(y[..k], a[..k], |direct|), VecMat(z[..k], b[..k], |direct|)))
  }

  lemma FlowBackNext(direct: Vec, y: Vec, a: Mat, z: Vec, b: Mat, k: nat)
    requires IsMat(a, |y|, |direct|) && IsMat(b, |z|, |direct|) && k < |y| && k < |z|
    ensures FlowBack(direct, y, a, z, b, k + 1)
         == Add(FlowBack(direct, y, a, z, b, k), Add(Scale(y[k], a[k]), Scale(z[k], b[k])))
  {
    hide VecMat, Scale;
    var n := |direct|;
    VecMatNext(y, a, n, k);
    VecMatNext(z, b, n, k);
    AddShuffle(direct, VecMat(y[..k], a[..k], n), VecMat(z[..k], b[..k], n), Scale(y[k], a[k]), Scale(z[k], b[k]));
  }

  lemma AddShuffle(d: Vec, a: Vec, b: Vec, e: Vec, f: Vec)
    requires |d| == |a| == |b| == |e| == |f|
    ensures Add(d, Add(Add(a, e), Add(b, f))) == Add(Add(d, Add(a, b)), Add(e, f))
  {
  }

  lemma FlowBackNone(direct: Vec, y: Vec, a: Mat, z: Vec, b: Mat)
    requires IsMat(a, |y|, |direct|) && IsMat(b, |z|, |direct|)
    ensures FlowBack(direct, y, a, z, b, 0) == direct
  {
  }

  lemma FlowBackAll(direct: Vec, y: Vec, a: Mat, z: Vec, b: Mat, k: nat)
    requires IsMat(a, k, |direct|) && IsMat(b, k, |direct|) && |y| == |z| == k
    ensures FlowBack(direct, y, a, z, b, k) == Add(direct, Add(VecMat(y, a, |direct|), VecMat(z, b, |direct|)))
  {
    assert y[..k] == y && z[..k] == z && a[..k] == a && b[..k] == b;
  }

  /** The last row loop: update and reset gates together. */
  method GateRowsBack(gu: GateBuffer, gr: GateBuffer, wu: FlatGate, wr: FlatGate, x: Vec, p: Vec, s: State,
                      dUpdate: Vec, dReset: Vec, dPrevious: array<real>)
    requires gu.Valid() && gu.inputs == |x| && gu.hiddenSize == |p|
    requires gr.Valid() && gr.inputs == |x| && gr.hiddenSize == |p| && gu.Repr() !! gr.Repr()
    requires dPrevious !in gu.Repr() + gr.Repr() && dPrevious.Length == |p|
    requires FlatGateValid(wu, |x|, |p|) && FlatGateValid(wr, |x|, |p|)
    requires StateShape(s, |p|) && |dUpdate| == |dReset| == |p|
    modifies gu.Repr(), gr.Repr(), dPrevious
    ensures gu.Value() == AddGate(old(gu.Value()), GateGradient(Mul(dUpdate, SigmoidSlope(s.update)), x, p), |x|, |p|)
    ensures gr.Value() == AddGate(old(gr.Value()), GateGradient(Mul(dReset, SigmoidSlope(s.reset)), x, p), |x|, |p|)
    ensures dPrevious[..] == Add(old(dPrevious[..]),
                                 Add(VecMat(Mul(dUpdate, SigmoidSlope(s.update)), GateOf(wu, |x|, |p|).hidden, |p|),
                                     VecMat(Mul(dReset, SigmoidSlope(s.reset)), GateOf(wr, |x|, |p|).hidden, |p|)))
  {
    hide RawGate, FlatGateValid, RowAdded, AddGate, GateGradient, GateOf, VecMat, Mul, SigmoidSlope, Add, Scale,
      FlowBack;
    var n := |p|;
    ghost var y, z := Mul(dUpdate, SigmoidSlope(s.update)), Mul(dReset, SigmoidSlope(s.reset));
    ghost var a, b := GateOf(wu, |x|, n).hidden, GateOf(wr, |x|, n).hidden;
    ghost var startU, startR, direct := gu.Value(), gr.Value(), dPrevious[..];
    FlowBackNone(direct, y, a, z, b);
    for row := 0 to n
      invariant gu.Value() == RowsAdded(startU, y, x, p, row)
      invariant gr.Value() == RowsAdded(startR, z, x, p, row)
      invariant dPrevious[..] == FlowBack(direct, y, a, z, b, row)
    {
      GateTerm(dUpdate, s.update, row);
      GateTerm(dReset, s.reset, row);
      GateRow(gu, gr, wu, wr, x, p, row, RawGate(dUpdate[row], s.update[row]), RawGate(dReset[row], s.reset[row]),
              dPrevious);
      FlowBackNext(direct, y, a, z, b, row);
    }
    AllRowsAdded(startU, y, x, p);
    AllRowsAdded(startR, z, x, p);
    FlowBackAll(direct, y, a, z, b, n);
  }

  // ----- the whole backward pass

  lemma AddGateAssociates(a: Gate, b: Gate, c: Gate, inputs: nat, hidden: nat)
    requires GateShape(a, inputs, hidden) && GateShape(b, inputs, hidden) && GateShape(c, inputs, hidden)
    ensures AddGate(AddGate(a, b, inputs, hidden), c, inputs, hidden) ==
            AddGate(a, AddGate(b, c, inputs, hidden), inputs, hidden)
  {
    AddMatAssociates(a.input, b.input, c.input, hidden, inputs);
    AddMatAssociates(a.hidden, b.hidden, c.hidden, hidden, hidden);
    AddAssociates(a.bias, b.bias, c.bias);
  }

  lemma AddWeightsAssociates(a: Weights, b: Weights, c: Weights, inputs: nat, hidden: nat)
    requires Shape(a, inputs, hidden) && Shape(b, inputs, hidden) && Shape(c, inputs, hidden)
    ensures AddWeights(AddWeights(a, b, inputs, hidden), c, inputs, hidden)
         == AddWeights(a, AddWeights(b, c, inputs, hidden), inputs, hidden)
  {
    hide AddGate, Add;
    AddGateAssociates(a.update, b.update, c.update, inputs, hidden);
    AddGateAssociates(a.reset, b.reset, c.reset, inputs, hidden);
    AddGateAssociates(a.state, b.state, c.state, inputs, hidden);
    AddAssociates(a.output, b.output, c.output);
  }

  lemma AddZeros(a: Vec)
    ensures Add(a, Zeros(|a|)) == a
  {
  }

  lemma AddZeroMat(a: Mat, rows: nat, cols: nat)
    requires IsMat(a, rows, cols)
    ensures AddMat(a, ZeroMat(rows, cols)) == a
  {
    forall r | 0 <= r < rows ensures AddMat(a, ZeroMat(rows, cols))[r] == a[r] { AddZeros(a[r]); }
  }

  lemma AddZeroWeights(a: Weights, inputs: nat, hidden: nat)
    requires Shape(a, inputs, hidden)
    ensures var z := ZeroGate(inputs, hidden); AddWeights(a, Weights(z, z, z, Zeros(hidden), 0.0), inputs, hidden) == a
  {
    AddZeroMat(a.update.input, hidden, inputs);
    AddZeroMat(a.update.hidden, hidden, hidden);
    AddZeroMat(a.reset.input, hidden, inputs);
    AddZeroMat(a.reset.hidden, hidden, hidden);
    AddZeroMat(a.state.input, hidden, inputs);
    AddZeroMat(a.state.hidden, hidden, hidden);
    AddZeros(a.update.bias);
    AddZeros(a.reset.bias);
    AddZeros(a.state.bias);
    AddZeros(a.output);
  }

  /** The recurrent steps contribute nothing to the output weights. */
  lemma {:induction false} BackFromOutput(w: Weights, xs: seq<Vec>, states: seq<State>, dH: Vec, inputs: nat, t: nat)
    requires Shape(w, inputs, |dH|) && InputShape(xs, inputs) && |states| == |xs| && t <= |xs|
    requires forall i :: 0 <= i < |states| ==> StateShape(states[i], |dH|)
    ensures BackFrom(w, xs, states, dH, inputs, t).output == Zeros(|dH|)
    ensures BackFrom(w, xs, states, dH, inputs, t).outputBias == 0.0
    decreases t
  {
    hide StepBack, AddGate, GateGradient, Add;
    if t > 0 {
      var p := PreviousHidden(states, |dH|, t - 1);
      assert StateShape(states[t - 1], |dH|);
      var b := StepBack(w, states[t - 1], p, dH, inputs);
      BackFromOutput(w, xs, states, b.previous, inputs, t - 1);
      AddZeros(Zeros(|dH|));
    }
  }

  class GradientBuffer {
    const inputs: nat
    const hidden: nat
    const update: GateBuffer
    const reset: GateBuffer
    const state: GateBuffer
    const output: array<real>
    var outputBias: real

    /** zeroGRUWeights */
    constructor (inputs: nat, hidden: nat)
      ensures Valid() && this.inputs == inputs && this.hidden == hidden && fresh(Repr())
      ensures Value() == Weights(ZeroGate(inputs, hidden), ZeroGate(inputs, hidden), ZeroGate(inputs, hidden),
                                 Zeros(hidden), 0.0)
    {
      this.inputs, this.hidden := inputs, hidden;
      update := new GateBuffer(inputs, hidden);
      reset := new GateBuffer(inputs, hidden);
      state := new GateBuffer(inputs, hidden);
      output := new real[hidden](_ => 0.0);
      outputBias := 0.0;
      new;
      StartZero(output[..]);
    }

    ghost predicate Valid() {
      && update.Valid() && reset.Valid() && state.Valid() && output.Length == hidden
      && update.inputs == reset.inputs == state.inputs == inputs
      && update.hiddenSize == reset.hiddenSize == state.hiddenSize == hidden
      && update.Repr() !! reset.Repr() !! state.Repr()
      && output !in update.Repr() + reset.Repr() + state.Repr()
    }

    ghost function Repr(): set<object> { update.Repr() + reset.Repr() + state.Repr() + {output} }

    ghost function Value(): (w: Weights)
      requires Valid()
      reads this, Repr()
      ensures Shape(w, inputs, hidden)
    {
      Weights(update.Value(), reset.Value(), state.Value(), output[..], outputBias)
    }
  }

  /** One iteration of the loop over time. */
  method StepBackward(w: FlatWeights, x: Vec, s: State, previous: Vec, dHidden: Vec, gradient: GradientBuffer)
    returns (dPrevious: Vec)
    requires gradient.Valid() && gradient.inputs == |x| && gradient.hidden == |previous|
    requires ValidWeights(w, |x|, |previous|) && StateShape(s, |previous|) && |dHidden| == |previous|
    modifies gradient.Repr()
    ensures var b := StepBack(WeightsOf(w, |x|, |previous|), s, previous, dHidden, |x|);
            && dPrevious == b.previous
            && gradient.Value() == AddWeights(old(gradient.Value()), StepGradient(b, x, s, previous), |x|, |previous|)
  {
    hide FlatGateValid, AddGate, GateGradient, GateOf, VecMat, Mul, Sub, OneMinus, SigmoidSlope, TanhSlope, Add, Zeros;
    ghost var before := gradient.Value();
    var p, dUpdate, dCandidate := DirectRows(s, previous, dHidden);
    var dProduct := StateRows(gradient.state, w.state, x, s, previous, dCandidate);
    var dReset := ResetRows(p, s, previous, dProduct);
    GateRowsBack(gradient.update, gradient.reset, w.update, w.reset, x, previous, s, dUpdate, dReset, p);
    AddZeros(before.output);
    dPrevious := p[..];
  }

  /** `backward`: adds the gradient of the whole sequence to the buffer. The
      caller passes the states its forward pass returned, at least one. */
  method Backward(w: FlatWeights, xs: seq<Vec>, states: seq<State>, outputGradient: real, gradient: GradientBuffer)
    requires gradient.Valid() && ValidWeights(w, gradient.inputs, gradient.hidden)
    requires InputShape(xs, gradient.inputs) && |states| == |xs| > 0
    requires forall t :: 0 <= t < |states| ==> StateShape(states[t], gradient.hidden)
    modifies gradient, gradient.Repr()
    ensures gradient.Value() == AddWeights(old(gradient.Value()),
      Gradient(WeightsOf(w, gradient.inputs, gradient.hidden), xs, states, outputGradient, gradient.inputs),
      gradient.inputs, gradient.hidden)
  {
    hide FlatGateValid, AddGate, ZeroGate, AddWeights, StepBack, StepGradient, Add, Scale, Zeros, WeightsOf;
    var n := gradient.hidden;
    ghost var ws, start, inputs := WeightsOf(w, gradient.inputs, n), gradient.Value(), gradient.inputs;
    assert ws.output == w.output by { WeightsOutput(w, inputs, n); }
    assert StateShape(states[|states| - 1], n);
    var last := states[|states| - 1].hidden;
    gradient.outputBias := gradient.outputBias + outputGradient;
    AddInto(gradient.output, outputGradient, last);
    var dHidden := Scale(outputGradient, w.output);
    ghost var first, d0 := gradient.Value(), dHidden;
    ghost var target := AddWeights(first, BackFrom(ws, xs, states, d0, inputs, |xs|), inputs, n);
    var t := |states|;
    while t > 0
      invariant 0 <= t <= |states| && |dHidden| == n
      invariant AddWeights(gradient.Value(), BackFrom(ws, xs, states, dHidden, inputs, t), inputs, n) == target
    {
      t := t - 1;
      ghost var value := gradient.Value();
      assert StateShape(states[t], n);
      var previous := PreviousHidden(states, n, t);
      ghost var b := StepBack(ws, states[t], previous, dHidden, inputs);
      AddWeightsAssociates(value, StepGradient(b, xs[t], states[t], previous),
                           BackFrom(ws, xs, states, b.previous, inputs, t), inputs, n);
      dHidden := StepBackward(w, xs[t], states[t], previous, dHidden, gradient);
    }
    AddZeroWeights(gradient.Value(), inputs, n);
    BackFromOutput(ws, xs, states, d0, inputs, |xs|);
    OutputLast(start, first, BackFrom(ws, xs, states, d0, inputs, |xs|), outputGradient, last, inputs, n);
  }

  lemma WeightsOutput(w: FlatWeights, inputs: nat, hidden: nat)
    requires ValidWeights(w, inputs, hidden)
    ensures WeightsOf(w, inputs, hidden).output == w.output
  {
  }

  lemma OutputLast(start: Weights, first: Weights, rest: Weights, og: real, last: Vec, inputs: nat, n: nat)
    requires Shape(start, inputs, n) && Shape(first, inputs, n) && Shape(rest, inputs, n) && |last| == n
    requires first == start.(output := Add(start.output, Scale(og, last)), outputBias := start.outputBias + og)
    requires rest.output == Zeros(n) && rest.outputBias == 0.0
    ensures AddWeights(first, rest, inputs, n)
         == AddWeights(start, rest.(output := Scale(og, last), outputBias := og), inputs, n)
  {
    AddZeros(first.output);
  }
}

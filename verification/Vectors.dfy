/** Real vectors and matrices (as sequences of rows), with the bilinear
    identities that backpropagation rests on. */
module Vectors {
  import opened RealArithmetic

  type Vec = seq<real>
  type Mat = seq<Vec>

  predicate IsMat(m: Mat, rows: nat, cols: nat) {
    |m| == rows && forall r :: 0 <= r < rows ==> |m[r]| == cols
  }

  function Zeros(n: nat): (v: Vec)
    ensures |v| == n
  {
    seq(n, _ => 0.0)
  }

  function Add(a: Vec, b: Vec): (v: Vec)
    requires |a| == |b|
    ensures |v| == |a|
  {
    seq(|a|, i requires 0 <= i < |a| => a[i] + b[i])
  }

  function Mul(a: Vec, b: Vec): (v: Vec)
    requires |a| == |b|
    ensures |v| == |a|
  {
    seq(|a|, i requires 0 <= i < |a| => a[i] * b[i])
  }

  function Scale(k: real, a: Vec): (v: Vec)
    ensures |v| == |a|
  {
    seq(|a|, i requires 0 <= i < |a| => k * a[i])
  }

  function Inner(a: Vec, b: Vec): real
    requires |a| == |b|
  {
    Sum(Mul(a, b))
  }

  function MatVec(m: Mat, x: Vec): (v: Vec)
    requires IsMat(m, |m|, |x|)
    ensures |v| == |m|
  {
    seq(|m|, r requires 0 <= r < |m| => Inner(m[r], x))
  }

  /** y m: the rows of m summed with weights y. */
  function VecMat(y: Vec, m: Mat, cols: nat): (v: Vec)
    requires IsMat(m, |y|, cols)
    ensures |v| == cols
  {
    if |y| == 0 then Zeros(cols)
    else
      var k := |y| - 1;
      Add(VecMat(y[..k], m[..k], cols), Scale(y[k], m[k]))
  }

  function Outer(y: Vec, x: Vec): (m: Mat)
    ensures IsMat(m, |y|, |x|)
  {
    seq(|y|, r requires 0 <= r < |y| => Scale(y[r], x))
  }

  function AddMat(a: Mat, b: Mat): (m: Mat)
    requires |a| == |b| && forall r :: 0 <= r < |a| ==> |a[r]| == |b[r]|
    ensures |m| == |a| && forall r :: 0 <= r < |a| ==> |m[r]| == |a[r]|
  {
    seq(|a|, r requires 0 <= r < |a| => Add(a[r], b[r]))
  }

  function ZeroMat(rows: nat, cols: nat): (m: Mat)
    ensures IsMat(m, rows, cols)
  {
    seq(rows, _ => Zeros(cols))
  }

  function RowInners(a: Mat, b: Mat): (v: Vec)
    requires |a| == |b| && forall r :: 0 <= r < |a| ==> |a[r]| == |b[r]|
    ensures |v| == |a|
  {
    seq(|a|, r requires 0 <= r < |a| => Inner(a[r], b[r]))
  }

  function MatInner(a: Mat, b: Mat): real
    requires |a| == |b| && forall r :: 0 <= r < |a| ==> |a[r]| == |b[r]|
  {
    Sum(RowInners(a, b))
  }

  // ----- scalar ring laws, stated where the solver needs them one at a time

  lemma Distributes(a: real, b: real, c: real)
    ensures a * (b + c) == a * b + a * c
  {
  }

  lemma Associates(a: real, b: real, c: real)
    ensures a * b * c == a * (b * c)
  {
  }

  // ----- sums

  lemma {:induction false} SumAdd(a: Vec, b: Vec)
    requires |a| == |b|
    ensures Sum(Add(a, b)) == Sum(a) + Sum(b)
  {
    if |a| > 0 {
      var k := |a| - 1;
      SumAdd(a[..k], b[..k]);
      assert Add(a, b)[..k] == Add(a[..k], b[..k]);
    }
  }

  lemma {:induction false} SumScale(k: real, a: Vec)
    ensures Sum(Scale(k, a)) == k * Sum(a)
  {
    if |a| > 0 {
      var n := |a| - 1;
      SumScale(k, a[..n]);
      var whole, init := Scale(k, a), Scale(k, a[..n]);
      assert whole[..n] == init by {
        assert forall i :: 0 <= i < n ==> whole[i] == init[i];
      }
      Distributes(k, Sum(a[..n]), a[n]);
    }
  }

  lemma {:induction false} SumZeros(n: nat)
    ensures Sum(Zeros(n)) == 0.0
  {
    if n > 0 {
      SumZeros(n - 1);
      assert Zeros(n)[..n - 1] == Zeros(n - 1);
    }
  }

  // ----- bilinearity

  lemma InnerCommutes(a: Vec, b: Vec)
    requires |a| == |b|
    ensures Inner(a, b) == Inner(b, a)
  {
    assert Mul(a, b) == Mul(b, a);
  }

  lemma InnerAdd(a: Vec, b: Vec, c: Vec)
    requires |a| == |b| == |c|
    ensures Inner(a, Add(b, c)) == Inner(a, b) + Inner(a, c)
  {
    forall i | 0 <= i < |a| ensures Mul(a, Add(b, c))[i] == Add(Mul(a, b), Mul(a, c))[i] {
      Distributes(a[i], b[i], c[i]);
    }
    assert Mul(a, Add(b, c)) == Add(Mul(a, b), Mul(a, c));
    SumAdd(Mul(a, b), Mul(a, c));
  }

  lemma InnerAddLeft(a: Vec, b: Vec, c: Vec)
    requires |a| == |b| == |c|
    ensures Inner(Add(a, b), c) == Inner(a, c) + Inner(b, c)
  {
    InnerCommutes(Add(a, b), c);
    InnerAdd(c, a, b);
    InnerCommutes(a, c);
    InnerCommutes(b, c);
  }

  lemma InnerScale(k: real, a: Vec, b: Vec)
    requires |a| == |b|
    ensures Inner(Scale(k, a), b) == k * Inner(a, b)
  {
    forall i | 0 <= i < |a| ensures Mul(Scale(k, a), b)[i] == Scale(k, Mul(a, b))[i] {
      Associates(k, a[i], b[i]);
    }
    assert Mul(Scale(k, a), b) == Scale(k, Mul(a, b));
    SumScale(k, Mul(a, b));
  }

  lemma InnerMul(a: Vec, b: Vec, c: Vec)
    requires |a| == |b| == |c|
    ensures Inner(Mul(a, b), c) == Inner(a, Mul(b, c))
  {
    forall i | 0 <= i < |a| ensures Mul(Mul(a, b), c)[i] == Mul(a, Mul(b, c))[i] {
      Associates(a[i], b[i], c[i]);
    }
    assert Mul(Mul(a, b), c) == Mul(a, Mul(b, c));
  }

  lemma InnerZeros(a: Vec)
    ensures Inner(a, Zeros(|a|)) == 0.0
  {
    assert Mul(a, Zeros(|a|)) == Zeros(|a|);
    SumZeros(|a|);
  }

  lemma AddAssociates(a: Vec, b: Vec, c: Vec)
    requires |a| == |b| == |c|
    ensures Add(Add(a, b), c) == Add(a, Add(b, c))
  {
  }

  lemma AddMatAssociates(a: Mat, b: Mat, c: Mat, rows: nat, cols: nat)
    requires IsMat(a, rows, cols) && IsMat(b, rows, cols) && IsMat(c, rows, cols)
    ensures AddMat(AddMat(a, b), c) == AddMat(a, AddMat(b, c))
  {
    forall r | 0 <= r < rows ensures AddMat(AddMat(a, b), c)[r] == AddMat(a, AddMat(b, c))[r] {
      AddAssociates(a[r], b[r], c[r]);
    }
  }

  lemma MatInnerAdd(d: Mat, a: Mat, b: Mat, rows: nat, cols: nat)
    requires IsMat(d, rows, cols) && IsMat(a, rows, cols) && IsMat(b, rows, cols)
    ensures MatInner(d, AddMat(a, b)) == MatInner(d, a) + MatInner(d, b)
  {
    forall r | 0 <= r < rows
      ensures RowInners(d, AddMat(a, b))[r] == Add(RowInners(d, a), RowInners(d, b))[r]
    {
      InnerAdd(d[r], a[r], b[r]);
    }
    assert RowInners(d, AddMat(a, b)) == Add(RowInners(d, a), RowInners(d, b));
    SumAdd(RowInners(d, a), RowInners(d, b));
  }

  lemma MatInnerZeros(d: Mat, rows: nat, cols: nat)
    requires IsMat(d, rows, cols)
    ensures MatInner(d, ZeroMat(rows, cols)) == 0.0
  {
    forall r | 0 <= r < rows ensures RowInners(d, ZeroMat(rows, cols))[r] == 0.0 {
      InnerZeros(d[r]);
    }
    assert RowInners(d, ZeroMat(rows, cols)) == Zeros(rows);
    SumZeros(rows);
  }

  // ----- the two adjoint identities

  /** y (m x) is the inner product of m with the outer product of y and x. */
  lemma OuterAdjoint(y: Vec, x: Vec, m: Mat)
    requires IsMat(m, |y|, |x|)
    ensures MatInner(m, Outer(y, x)) == Inner(y, MatVec(m, x))
  {
    forall r | 0 <= r < |y| ensures RowInners(m, Outer(y, x))[r] == Mul(y, MatVec(m, x))[r] {
      InnerCommutes(m[r], Scale(y[r], x));
      InnerScale(y[r], x, m[r]);
      InnerCommutes(x, m[r]);
    }
    assert RowInners(m, Outer(y, x)) == Mul(y, MatVec(m, x));
  }

  lemma InnerLast(a: Vec, b: Vec, k: nat)
    requires |a| == |b| == k + 1
    ensures Inner(a, b) == Inner(a[..k], b[..k]) + a[k] * b[k]
  {
    var whole, init := Mul(a, b), Mul(a[..k], b[..k]);
    assert whole[..k] == init by {
      assert forall i :: 0 <= i < k ==> whole[i] == init[i];
    }
  }

  /** (y m) x == y (m x). */
  lemma {:induction false} TransposeAdjoint(y: Vec, m: Mat, x: Vec)
    requires IsMat(m, |y|, |x|)
    ensures Inner(VecMat(y, m, |x|), x) == Inner(y, MatVec(m, x))
  {
    if |y| == 0 {
      InnerCommutes(Zeros(|x|), x);
      InnerZeros(x);
    } else {
      var k := |y| - 1;
      TransposeAdjoint(y[..k], m[..k], x);
      InnerAddLeft(VecMat(y[..k], m[..k], |x|), Scale(y[k], m[k]), x);
      InnerScale(y[k], m[k], x);
      assert MatVec(m[..k], x) == MatVec(m, x)[..k];
      InnerLast(y, MatVec(m, x), k);
    }
  }
}

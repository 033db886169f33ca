/** Dense real vectors and matrices, the part of `ndarray` the network uses.
    A matrix is a sequence of rows; `f64` arithmetic is modelled by `real`. */
module Vectors {

  type Vector = seq<real>
  type Matrix = seq<seq<real>>

  /** Sum of the entries, accumulated left to right as the source's loops do. */
  function Sum(v: Vector): real
    decreases |v|
  {
    if |v| == 0 then 0.0 else Sum(v[..|v| - 1]) + v[|v| - 1]
  }

  function Zeros(n: nat): Vector
  {
    seq(n, _ => 0.0)
  }

  function Ones(n: nat): Vector
  {
    seq(n, _ => 1.0)
  }

  predicate IsZero(v: Vector)
  {
    forall i :: 0 <= i < |v| ==> v[i] == 0.0
  }

  predicate IsZeroMatrix(m: Matrix)
  {
    forall i :: 0 <= i < |m| ==> IsZero(m[i])
  }

  /** `m` has `rows` rows of `cols` entries each. */
  predicate IsMatrix(m: Matrix, rows: nat, cols: nat)
  {
    |m| == rows && forall i :: 0 <= i < |m| ==> |m[i]| == cols
  }

  function Add(u: Vector, v: Vector): Vector
    requires |u| == |v|
  {
    seq(|u|, i requires 0 <= i < |u| => u[i] + v[i])
  }

  function Sub(u: Vector, v: Vector): Vector
    requires |u| == |v|
  {
    seq(|u|, i requires 0 <= i < |u| => u[i] - v[i])
  }

  /** Entrywise product. */
  function Mul(u: Vector, v: Vector): Vector
    requires |u| == |v|
  {
    seq(|u|, i requires 0 <= i < |u| => u[i] * v[i])
  }

  function Scale(v: Vector, k: real): Vector
  {
    seq(|v|, i requires 0 <= i < |v| => v[i] * k)
  }

  function Dot(u: Vector, v: Vector): real
    requires |u| == |v|
  {
    Sum(Mul(u, v))
  }

  /** `m · x`: one dot product per row. */
  function MatVec(m: Matrix, x: Vector): Vector
    requires forall i :: 0 <= i < |m| ==> |m[i]| == |x|
  {
    seq(|m|, i requires 0 <= i < |m| => Dot(m[i], x))
  }

  /** Column `j` of an `|m| × cols` matrix. */
  function Column(m: Matrix, j: nat): Vector
    requires forall i :: 0 <= i < |m| ==> j < |m[i]|
  {
    seq(|m|, i requires 0 <= i < |m| => m[i][j])
  }

  /** `r · m` for an `|r| × cols` matrix `m`: one dot product per column. */
  function VecMat(r: Vector, m: Matrix, cols: nat): Vector
    requires IsMatrix(m, |r|, cols)
  {
    seq(cols, j requires 0 <= j < cols => Dot(r, Column(m, j)))
  }

  /** The `|r| × |x|` matrix whose entry `(i, j)` is `x[j] * r[i]`. */
  function Outer(r: Vector, x: Vector): Matrix
  {
    seq(|r|, i requires 0 <= i < |r| => Scale(x, r[i]))
  }

  lemma OuterEntries(r: Vector, x: Vector)
    ensures IsMatrix(Outer(r, x), |r|, |x|)
    ensures forall i, j :: 0 <= i < |r| && 0 <= j < |x| ==> Outer(r, x)[i][j] == x[j] * r[i]
  {
  }

  function MatScale(m: Matrix, k: real): Matrix
  {
    seq(|m|, i requires 0 <= i < |m| => Scale(m[i], k))
  }

  function MatSub(a: Matrix, b: Matrix): Matrix
    requires |a| == |b| && forall i :: 0 <= i < |a| ==> |a[i]| == |b[i]|
  {
    seq(|a|, i requires 0 <= i < |a| => Sub(a[i], b[i]))
  }

  lemma MulOfZero(z: Vector, v: Vector)
    requires |z| == |v| && IsZero(z)
    ensures IsZero(Mul(z, v))
  {
    forall i | 0 <= i < |z| ensures Mul(z, v)[i] == 0.0 {
      assert z[i] == 0.0;
    }
  }

  lemma MulByZero(v: Vector, z: Vector)
    requires |z| == |v| && IsZero(z)
    ensures IsZero(Mul(v, z))
  {
    forall i | 0 <= i < |z| ensures Mul(v, z)[i] == 0.0 {
      assert z[i] == 0.0;
    }
  }

  lemma OuterOfZero(z: Vector, x: Vector)
    requires IsZero(z)
    ensures IsZeroMatrix(Outer(z, x))
  {
    forall i, j | 0 <= i < |z| && 0 <= j < |x| ensures Outer(z, x)[i][j] == 0.0 {
      assert z[i] == 0.0;
    }
  }

  lemma VecMatOfZero(z: Vector, m: Matrix, cols: nat)
    requires IsMatrix(m, |z|, cols) && IsZero(z)
    ensures IsZero(VecMat(z, m, cols))
  {
    forall j | 0 <= j < cols ensures VecMat(z, m, cols)[j] == 0.0 {
      DotOfZero(z, Column(m, j));
    }
  }

  /** Subtracting a scaled zero vector changes nothing. */
  lemma SubScaledZero(v: Vector, z: Vector, k: real)
    requires |v| == |z| && IsZero(z)
    ensures Sub(v, Scale(z, k)) == v
  {
    forall i | 0 <= i < |v| ensures Sub(v, Scale(z, k))[i] == v[i] {
      assert z[i] == 0.0;
    }
  }

  lemma {:induction false} SumOfZeros(v: Vector)
    requires IsZero(v)
    ensures Sum(v) == 0.0
    decreases |v|
  {
    if |v| > 0 {
      SumOfZeros(v[..|v| - 1]);
    }
  }

  lemma {:induction false} SumOfPositives(v: Vector)
    requires |v| > 0
    requires forall i :: 0 <= i < |v| ==> v[i] > 0.0
    ensures Sum(v) > 0.0
    decreases |v|
  {
    if |v| > 1 {
      SumOfPositives(v[..|v| - 1]);
    }
  }

  /** Scaling every entry by `k` scales the sum by `k`. */
  lemma {:induction false} SumScaled(v: Vector, k: real)
    ensures Sum(Scale(v, k)) == Sum(v) * k
    decreases |v|
  {
    if |v| > 0 {
      var n := |v| - 1;
      assert forall i :: 0 <= i < n ==> Scale(v, k)[..n][i] == Scale(v[..n], k)[i];
      assert Scale(v, k)[..n] == Scale(v[..n], k);
      SumScaled(v[..n], k);
    }
  }

  lemma DotWithZero(u: Vector, z: Vector)
    requires |u| == |z| && IsZero(z)
    ensures Dot(u, z) == 0.0
  {
    SumOfZeros(Mul(u, z));
  }

  lemma DotOfZero(z: Vector, u: Vector)
    requires |u| == |z| && IsZero(z)
    ensures Dot(z, u) == 0.0
  {
    SumOfZeros(Mul(z, u));
  }
}

/**
 The vector and matrix vocabulary the covariance accumulator is written in.
 Scalars are exact `real`s; a vector is a sequence of scalars and a matrix a
 sequence of rows.
 */
module LinearAlgebra {

  type Vector = seq<real>
  type Matrix = seq<seq<real>>

  /** `m` has exactly `d` rows, each of exactly `d` entries. */
  predicate IsSquare(m: Matrix, d: nat) {
    |m| == d && forall i :: 0 <= i < d ==> |m[i]| == d
  }

  predicate IsSymmetric(m: Matrix)
    requires IsSquare(m, |m|)
  {
    forall i, j :: 0 <= i < |m| && 0 <= j < |m| ==> m[i][j] == m[j][i]
  }

  /** The d×d matrix of zeros. */
  function Zero(d: nat): (z: Matrix)
    ensures IsSquare(z, d)
    ensures forall i, j :: 0 <= i < d && 0 <= j < d ==> z[i][j] == 0.0
  {
    seq(d, _ => seq(d, _ => 0.0))
  }

  /** Elementwise `x - y`. */
  function Difference(x: Vector, y: Vector): (r: Vector)
    requires |x| == |y|
    ensures |r| == |x|
    ensures forall i :: 0 <= i < |r| ==> r[i] == x[i] - y[i]
  {
    seq(|x|, i requires 0 <= i < |x| => x[i] - y[i])
  }

  /** Elementwise `x + y`. */
  function Sum(x: Vector, y: Vector): (r: Vector)
    requires |x| == |y|
    ensures |r| == |x|
    ensures forall i :: 0 <= i < |r| ==> r[i] == x[i] + y[i]
  {
    seq(|x|, i requires 0 <= i < |x| => x[i] + y[i])
  }

  /** Every entry of `x` divided by the positive count `n`. */
  function Quotient(x: Vector, n: nat): (r: Vector)
    requires n > 0
    ensures |r| == |x|
    ensures forall i :: 0 <= i < |r| ==> r[i] == x[i] / (n as real)
  {
    seq(|x|, i requires 0 <= i < |x| => x[i] / (n as real))
  }

  /**
   The scaled product `a * b / n` for a positive count `n`, named so that
   equal arguments are seen to give equal values.
   */
  function Increment(a: real, b: real, n: nat): real
    requires n > 0
  {
    a * b / (n as real)
  }

  /**
   The matrix `m + u uᵀ / n` for a positive count `n`: entry (i, j) grows by
   `u[i] * u[j] / n`, the product taken first and the division last.
   */
  function AddOuterProduct(m: Matrix, u: Vector, n: nat): (r: Matrix)
    requires IsSquare(m, |u|) && n > 0
    ensures IsSquare(r, |u|)
    ensures forall i, j :: 0 <= i < |u| && 0 <= j < |u| ==>
              r[i][j] == m[i][j] + Increment(u[i], u[j], n)
  {
    seq(|u|, i requires 0 <= i < |u| =>
      seq(|u|, j requires 0 <= j < |u| => m[i][j] + Increment(u[i], u[j], n)))
  }

  /** A square is never negative; the product is divided by a positive `s`. */
  lemma SquareOverPositive(x: real, s: real)
    requires s > 0.0
    ensures x * x / s >= 0.0
  {
    assert x * x >= 0.0 by {
      if x < 0.0 {
        assert (-x) * (-x) == x * x;
      }
    }
  }

  /** A squared increment is never negative. */
  lemma SquareIncrement(x: real, n: nat)
    requires n > 0
    ensures Increment(x, x, n) >= 0.0
  {
    SquareOverPositive(x, n as real);
  }

  /** The sum of `u[k] * v[k]` over the first `k` positions. */
  function DotUpTo(u: Vector, v: Vector, k: nat): real
    requires k <= |u| == |v|
  {
    if k == 0 then 0.0 else DotUpTo(u, v, k - 1) + u[k - 1] * v[k - 1]
  }

  /** The inner product of two vectors of equal length. */
  function Dot(u: Vector, v: Vector): real
    requires |u| == |v|
  {
    DotUpTo(u, v, |u|)
  }

  /** The matrix-vector product `m v`. */
  function Apply(m: Matrix, v: Vector): (r: Vector)
    requires IsSquare(m, |v|)
    ensures |r| == |v|
    ensures forall i :: 0 <= i < |v| ==> r[i] == Dot(m[i], v)
  {
    seq(|v|, i requires 0 <= i < |v| => Dot(m[i], v))
  }

  /** The quadratic form `vᵀ m v`. */
  function Quadratic(m: Matrix, v: Vector): real
    requires IsSquare(m, |v|)
  {
    Dot(v, Apply(m, v))
  }

  /** `vᵀ m v >= 0` for every vector `v` of matching length. */
  ghost predicate IsPositiveSemidefinite(m: Matrix)
    requires IsSquare(m, |m|)
  {
    forall v: Vector :: |v| == |m| ==> Quadratic(m, v) >= 0.0
  }
}

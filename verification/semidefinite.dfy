/**
 The accumulated matrix is positive semidefinite after every sample, as a
 covariance matrix must be: each update adds `delta deltaᵀ / n`, whose
 quadratic form `(delta · v)² / n` is never negative.
 */
module Semidefinite {
  import opened LinearAlgebra
  import opened CovarianceMatrix
  import opened Stream

  /** The inner product is symmetric. */
  lemma {:induction false} DotSymmetric(u: Vector, v: Vector, k: nat)
    requires k <= |u| == |v|
    ensures DotUpTo(u, v, k) == DotUpTo(v, u, k)
  {
    if k > 0 {
      DotSymmetric(u, v, k - 1);
    }
  }

  /** A vector of zeros is orthogonal to everything. */
  lemma {:induction false} DotOfZeros(w: Vector, v: Vector, k: nat)
    requires k <= |w| == |v|
    requires forall l :: 0 <= l < |w| ==> w[l] == 0.0
    ensures DotUpTo(w, v, k) == 0.0
  {
    if k > 0 {
      DotOfZeros(w, v, k - 1);
    }
  }

  /** The increment `p * b / n` is `b` scaled by `p / n`. */
  lemma IncrementAsScale(p: real, b: real, n: nat)
    requires n > 0
    ensures Increment(p, b, n) == (p / (n as real)) * b
  {
  }

  /** The two scaled products `(x/n) y` and `(y/n) x` agree. */
  lemma SwapScale(x: real, y: real, n: nat)
    requires n > 0
    ensures (x / (n as real)) * y == (y / (n as real)) * x
  {
    IncrementAsScale(x, y, n);
    IncrementAsScale(y, x, n);
  }

  /** One more position in a linear combination of two inner products. */
  lemma RowStep(total: real, a: real, b: real, wk: real, ak: real, bk: real, vk: real, c: real)
    requires total == a + c * b && wk == ak + c * bk
    ensures total + wk * vk == (a + ak * vk) + c * (b + bk * vk)
  {
  }

  /**
   If every entry of `w` is `a[l] + c * b[l]`, then `w · v` is
   `a · v + c * (b · v)`.
   */
  lemma {:induction false} DotOfUpdatedRow(w: Vector, a: Vector, b: Vector, v: Vector,
                                           c: real, k: nat)
    requires |w| == |a| == |b| == |v| && k <= |w|
    requires forall l :: 0 <= l < |w| ==> w[l] == a[l] + c * b[l]
    ensures DotUpTo(w, v, k) == DotUpTo(a, v, k) + c * DotUpTo(b, v, k)
  {
    if k > 0 {
      DotOfUpdatedRow(w, a, b, v, c, k - 1);
      RowStep(DotUpTo(w, v, k - 1), DotUpTo(a, v, k - 1), DotUpTo(b, v, k - 1),
              w[k - 1], a[k - 1], b[k - 1], v[k - 1], c);
    }
  }

  /**
   A row updated by `p * u / n` has its inner product with `v` moved by
   `(u · v) / n` times `p`.
   */
  lemma UpdatedRow(w: Vector, a: Vector, u: Vector, v: Vector, p: real, n: nat)
    requires |w| == |a| == |u| == |v| && n > 0
    requires forall j :: 0 <= j < |u| ==> w[j] == a[j] + Increment(p, u[j], n)
    ensures Dot(w, v) == Dot(a, v) + (Dot(u, v) / (n as real)) * p
  {
    var c := p / (n as real);
    assert Dot(w, v) == Dot(a, v) + c * Dot(u, v) by {
      forall j | 0 <= j < |u|
        ensures w[j] == a[j] + c * u[j]
      {
        IncrementAsScale(p, u[j], n);
      }
      DotOfUpdatedRow(w, a, u, v, c, |u|);
    }
    SwapScale(p, Dot(u, v), n);
  }

  /** `(m + u uᵀ / n) v` is `m v` plus `(u · v) / n` times `u`. */
  lemma ApplyOfUpdate(m: Matrix, m': Matrix, u: Vector, n: nat, v: Vector)
    requires IsSquare(m, |u|) && IsSquare(m', |u|) && |v| == |u| && n > 0
    requires forall i, j :: 0 <= i < |u| && 0 <= j < |u| ==>
               m'[i][j] == m[i][j] + Increment(u[i], u[j], n)
    ensures forall i :: 0 <= i < |u| ==>
              Apply(m', v)[i] == Apply(m, v)[i] + (Dot(u, v) / (n as real)) * u[i]
  {
    forall i | 0 <= i < |u|
      ensures Apply(m', v)[i] == Apply(m, v)[i] + (Dot(u, v) / (n as real)) * u[i]
    {
      UpdatedRow(m'[i], m[i], u, v, u[i], n);
    }
  }

  /**
   Adding `u uᵀ / n` to a matrix adds `(u · v)² / n` to its quadratic form
   at every `v`.
   */
  lemma QuadraticOfUpdate(m: Matrix, m': Matrix, u: Vector, n: nat, v: Vector)
    requires IsSquare(m, |u|) && IsSquare(m', |u|) && |v| == |u| && n > 0
    requires forall i, j :: 0 <= i < |u| && 0 <= j < |u| ==>
               m'[i][j] == m[i][j] + Increment(u[i], u[j], n)
    ensures Quadratic(m', v) == Quadratic(m, v) + Increment(Dot(u, v), Dot(u, v), n)
  {
    var d := Dot(u, v);
    var c := d / (n as real);
    var before := Apply(m, v);
    var after := Apply(m', v);
    assert Dot(after, v) == Dot(before, v) + c * d by {
      ApplyOfUpdate(m, m', u, n, v);
      DotOfUpdatedRow(after, before, u, v, c, |v|);
    }
    assert Quadratic(m', v) == Dot(after, v) by {
      DotSymmetric(v, after, |v|);
    }
    assert Quadratic(m, v) == Dot(before, v) by {
      DotSymmetric(v, before, |v|);
    }
    IncrementAsScale(d, d, n);
  }

  /** The zero matrix has a zero quadratic form. */
  lemma ZeroIsPositiveSemidefinite(d: nat)
    ensures IsPositiveSemidefinite(Zero(d))
  {
    forall v: Vector | |v| == d
      ensures Quadratic(Zero(d), v) == 0.0
    {
      var image := Apply(Zero(d), v);
      forall i | 0 <= i < d
        ensures image[i] == 0.0
      {
        DotOfZeros(Zero(d)[i], v, d);
      }
      DotSymmetric(v, image, d);
      DotOfZeros(image, v, d);
    }
  }

  /**
   Consuming a later sample adds `(delta · v)² / n` to the quadratic form of
   the matrix at every `v`, where `delta` is the sample's deviation from the
   old mean and `n` the new count.
   */
  lemma ConsumeQuadratic(s: State, sample: Vector, v: Vector)
    requires Valid(s) && Fits(s, sample) && s.samples > 0 && |v| == |s.mean|
    ensures IsSquare(Consume(s, sample).covariance, |v|) && IsSquare(s.covariance, |v|)
    ensures Quadratic(Consume(s, sample).covariance, v)
            == Quadratic(s.covariance, v)
               + Increment(Dot(Deviation(s, sample), v), Dot(Deviation(s, sample), v), s.samples + 1)
  {
    var r := Consume(s, sample);
    QuadraticOfUpdate(s.covariance, r.covariance, Deviation(s, sample), r.samples, v);
  }

  /**
   After a later sample the quadratic form at `v` is still at least zero,
   provided it was at every vector before.
   */
  lemma ConsumeKeepsQuadraticNonNegative(s: State, sample: Vector, v: Vector)
    requires Valid(s) && Fits(s, sample) && s.samples > 0 && |v| == |s.mean|
    requires IsPositiveSemidefinite(s.covariance)
    ensures IsSquare(Consume(s, sample).covariance, |v|)
    ensures Quadratic(Consume(s, sample).covariance, v) >= 0.0
  {
    ConsumeQuadratic(s, sample, v);
    SquareIncrement(Dot(Deviation(s, sample), v), s.samples + 1);
  }

  /** One sample keeps the matrix positive semidefinite. */
  lemma ConsumePreservesSemidefinite(s: State, sample: Vector)
    requires Valid(s) && Fits(s, sample) && IsSquare(s.covariance, |s.covariance|)
    requires IsPositiveSemidefinite(s.covariance)
    ensures IsSquare(Consume(s, sample).covariance, |Consume(s, sample).covariance|)
    ensures IsPositiveSemidefinite(Consume(s, sample).covariance)
  {
    if s.samples == 0 {
      ZeroIsPositiveSemidefinite(|sample|);
    } else {
      forall v: Vector | |v| == |s.mean|
        ensures Quadratic(Consume(s, sample).covariance, v) >= 0.0
      {
        ConsumeKeepsQuadraticNonNegative(s, sample, v);
      }
    }
  }

  /** After any stream of samples the matrix is positive semidefinite. */
  lemma {:induction false} RunIsPositiveSemidefinite(xs: seq<Vector>)
    requires SameDimension(xs)
    ensures IsPositiveSemidefinite(Run(xs).covariance)
  {
    if |xs| == 0 {
      ZeroIsPositiveSemidefinite(0);
      assert Run(xs).covariance == Zero(0);
    } else {
      var previous := xs[..|xs| - 1];
      PrefixSameDimension(xs, |xs| - 1);
      RunIsPositiveSemidefinite(previous);
      assert Run(xs) == Consume(Run(previous), xs[|xs| - 1]);
      ConsumePreservesSemidefinite(Run(previous), xs[|xs| - 1]);
    }
  }

  /** After any stream of samples every variance (diagonal entry) is at least zero. */
  lemma {:induction false} RunVariancesNonNegative(xs: seq<Vector>)
    requires SameDimension(xs)
    ensures forall i :: 0 <= i < |Run(xs).covariance| ==> Run(xs).covariance[i][i] >= 0.0
  {
    if |xs| > 0 {
      var previous := xs[..|xs| - 1];
      PrefixSameDimension(xs, |xs| - 1);
      assert Run(xs) == Consume(Run(previous), xs[|xs| - 1]);
      if |xs| > 1 {
        RunVariancesNonNegative(previous);
        ConsumeKeepsVariances(Run(previous), xs[|xs| - 1]);
      }
    }
  }
}

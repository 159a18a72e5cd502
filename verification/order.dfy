/**
 How the result depends on the order in which the samples arrive. In exact
 arithmetic the running mean does not depend on it; the accumulated matrix
 does, because each increment is divided by the count at the time it is
 added.
 */
module Order {
  import opened LinearAlgebra
  import opened CovarianceMatrix
  import opened Stream

  /** Every sample of `xs` has dimension `d`. */
  predicate AllOfDimension(xs: seq<Vector>, d: nat) {
    forall k :: 0 <= k < |xs| ==> |xs[k]| == d
  }

  /** Column totals of a concatenation add up. */
  lemma {:induction false} ColumnTotalAppend(a: seq<Vector>, b: seq<Vector>, d: nat, i: nat)
    requires AllOfDimension(a, d) && AllOfDimension(b, d) && i < d
    ensures SameDimension(a) && SameDimension(b) && SameDimension(a + b)
    ensures ColumnTotal(a + b, i) == ColumnTotal(a, i) + ColumnTotal(b, i)
    decreases |b|
  {
    assert AllOfDimension(a + b, d);
    if |b| == 0 {
      assert a + b == a;
    } else {
      var b' := b[..|b| - 1];
      assert (a + b)[..|a + b| - 1] == a + b';
      ColumnTotalAppend(a, b', d, i);
    }
  }

  /** Removing the sample at position k takes its component out of the total. */
  lemma ColumnTotalRemove(ys: seq<Vector>, k: nat, d: nat, i: nat)
    requires AllOfDimension(ys, d) && k < |ys| && i < d
    ensures SameDimension(ys) && SameDimension(ys[..k] + ys[k + 1..])
    ensures ColumnTotal(ys, i) == ColumnTotal(ys[..k] + ys[k + 1..], i) + ys[k][i]
  {
    var left := ys[..k];
    var right := ys[k + 1..];
    assert ys == left + ([ys[k]] + right);
    assert AllOfDimension(left, d) && AllOfDimension(right, d) && AllOfDimension([ys[k]], d);
    ColumnTotalAppend([ys[k]], right, d, i);
    ColumnTotalAppend(left, [ys[k]] + right, d, i);
    ColumnTotalAppend(left, right, d, i);
    assert [ys[k]][..0] == [];
    assert ColumnTotal([ys[k]], i) == ys[k][i];
  }

  /**
   Taking the last sample off one sequence and an equal sample off the other
   leaves sequences with equal multisets.
   */
  lemma RemoveMatching<T>(xs: seq<T>, ys: seq<T>, k: nat)
    requires multiset(xs) == multiset(ys) && |xs| > 0 && k < |ys| && ys[k] == xs[|xs| - 1]
    ensures multiset(xs[..|xs| - 1]) == multiset(ys[..k] + ys[k + 1..])
  {
    var x := xs[|xs| - 1];
    assert xs == xs[..|xs| - 1] + [x];
    assert ys == ys[..k] + [x] + ys[k + 1..];
    assert multiset(xs[..|xs| - 1]) == multiset(xs) - multiset{x};
    assert multiset(ys[..k] + ys[k + 1..]) == multiset(ys) - multiset{x};
  }

  /** Column totals do not depend on the order of the samples. */
  lemma {:induction false} ColumnTotalPermutation(xs: seq<Vector>, ys: seq<Vector>, d: nat, i: nat)
    requires AllOfDimension(xs, d) && multiset(xs) == multiset(ys) && i < d
    ensures AllOfDimension(ys, d) && SameDimension(xs) && SameDimension(ys)
    ensures ColumnTotal(xs, i) == ColumnTotal(ys, i)
    decreases |xs|
  {
    assert |xs| == |multiset(xs)| == |multiset(ys)| == |ys|;
    forall k | 0 <= k < |ys|
      ensures |ys[k]| == d
    {
      assert ys[k] in multiset(xs);
    }
    if |xs| > 0 {
      var x := xs[|xs| - 1];
      assert x in multiset(ys);
      var k :| 0 <= k < |ys| && ys[k] == x;
      var previous := xs[..|xs| - 1];
      var rest := ys[..k] + ys[k + 1..];
      RemoveMatching(xs, ys, k);
      ColumnTotalRemove(ys, k, d, i);
      ColumnTotalPermutation(previous, rest, d, i);
    }
  }

  /**
   Feeding the same samples in another order yields the same mean, in exact
   arithmetic.
   */
  lemma MeanIgnoresOrder(xs: seq<Vector>, ys: seq<Vector>)
    requires SameDimension(xs) && SameDimension(ys) && |xs| > 0
    requires multiset(xs) == multiset(ys)
    ensures Run(xs).mean == Run(ys).mean
  {
    assert |xs| == |multiset(xs)| == |multiset(ys)| == |ys|;
    assert ys[0] in multiset(xs);
    RunMeanIsAverage(xs);
    RunMeanIsAverage(ys);
    forall i | 0 <= i < |xs[0]|
      ensures Average(xs)[i] == Average(ys)[i]
    {
      ColumnTotalPermutation(xs, ys, |xs[0]|, i);
    }
  }

  /** One later step on one-dimensional samples, written out. */
  lemma OneDimensionalStep(s: State, x: real, delta: real, n: nat)
    requires s.samples > 0 && |s.mean| == 1 && IsSquare(s.covariance, 1)
    requires delta == x - s.mean[0] && n == s.samples + 1
    ensures Consume(s, [x])
            == State(n, [s.mean[0] + delta / (n as real)],
                     [[s.covariance[0][0] + Increment(delta, delta, n)]])
  {
    var r := Consume(s, [x]);
    ConsumeEntryFromMean(s, [x], delta, delta, n, 0, 0);
    ConsumeMeanFromDeviation(s, [x], delta, n, 0);
    assert r.covariance[0] == [r.covariance[0][0]];
  }

  /** The samples 0, 1, 2 in this order leave the matrix [[5/4]]. */
  lemma AscendingSamples()
    ensures Run([[0.0], [1.0], [2.0]]).covariance == [[1.25]]
  {
    var xs: seq<Vector> := [[0.0], [1.0], [2.0]];
    assert xs[..2][..1] == xs[..1] && |xs[..1][..0]| == 0 && xs[..3] == xs;
    assert Run(xs[..1]) == State(1, [0.0], Zero(1));
    OneDimensionalStep(State(1, [0.0], Zero(1)), 1.0, 1.0, 2);
    assert Run(xs[..2]) == State(2, [0.5], [[0.5]]);
    assert Run(xs) == Consume(State(2, [0.5], [[0.5]]), [2.0]);
    OneDimensionalStep(State(2, [0.5], [[0.5]]), 2.0, 1.5, 3);
    assert Increment(1.5, 1.5, 3) == 0.75;
  }

  /** The same samples in the order 0, 2, 1 leave the matrix [[2]]. */
  lemma ReorderedSamples()
    ensures Run([[0.0], [2.0], [1.0]]).covariance == [[2.0]]
  {
    var ys: seq<Vector> := [[0.0], [2.0], [1.0]];
    assert ys[..2][..1] == ys[..1] && |ys[..1][..0]| == 0 && ys[..3] == ys;
    assert Run(ys[..1]) == State(1, [0.0], Zero(1));
    OneDimensionalStep(State(1, [0.0], Zero(1)), 2.0, 2.0, 2);
    assert Run(ys[..2]) == State(2, [1.0], [[2.0]]);
    assert Run(ys) == Consume(State(2, [1.0], [[2.0]]), [1.0]);
    OneDimensionalStep(State(2, [1.0], [[2.0]]), 1.0, 0.0, 3);
    assert Increment(0.0, 0.0, 3) == 0.0;
  }

  /**
   The matrix does depend on the order: the same three samples leave 5/4 in
   one order and 2 in another.
   */
  lemma MatrixDependsOnOrder()
    ensures var xs: seq<Vector> := [[0.0], [1.0], [2.0]];
            var ys: seq<Vector> := [[0.0], [2.0], [1.0]];
            multiset(xs) == multiset(ys) && Run(xs).covariance != Run(ys).covariance
  {
    AscendingSamples();
    ReorderedSamples();
    var xs: seq<Vector> := [[0.0], [1.0], [2.0]];
    var ys: seq<Vector> := [[0.0], [2.0], [1.0]];
    assert xs == [[0.0]] + [[1.0]] + [[2.0]] && ys == [[0.0]] + [[2.0]] + [[1.0]];
    assert [[1.25]][0][0] != [[2.0]][0][0];
  }
}

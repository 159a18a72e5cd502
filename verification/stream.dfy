/**
 Feeding a whole stream of samples to a fresh consumer, and what the
 resulting state is in terms of the samples alone: the mean is their
 arithmetic mean, and the matrix is the sum of the per-step increments
 `delta_k delta_kᵀ / k` for k = 2..n, where `delta_k` is sample k minus the
 average of the samples before it.
 */
module Stream {
  import opened LinearAlgebra
  import opened CovarianceMatrix

  /** Every sample has the dimension of the first one. */
  predicate SameDimension(xs: seq<Vector>) {
    forall k :: 0 <= k < |xs| ==> |xs[k]| == |xs[0]|
  }

  /** A prefix of a stream of equal-dimension samples is one too. */
  lemma PrefixSameDimension(xs: seq<Vector>, m: nat)
    requires SameDimension(xs) && m <= |xs|
    ensures SameDimension(xs[..m])
    ensures m > 0 ==> |xs[..m][0]| == |xs[0]|
  {
  }

  /** The state after `consume` was called on each sample of `xs` in order. */
  function Run(xs: seq<Vector>): (s: State)
    requires SameDimension(xs)
    ensures Valid(s) && s.samples == |xs|
    ensures |xs| > 0 ==> |s.mean| == |xs[0]|
    ensures IsSquare(s.covariance, |s.covariance|) && IsSymmetric(s.covariance)
  {
    if |xs| == 0 then New()
    else
      var previous := xs[..|xs| - 1];
      PrefixSameDimension(xs, |xs| - 1);
      ConsumePreservesSymmetry(Run(previous), xs[|xs| - 1]);
      Consume(Run(previous), xs[|xs| - 1])
  }

  /** The sum of component `i` over all samples. */
  function ColumnTotal(xs: seq<Vector>, i: nat): real
    requires SameDimension(xs) && (|xs| > 0 ==> i < |xs[0]|)
  {
    if |xs| == 0 then 0.0
    else
      PrefixSameDimension(xs, |xs| - 1);
      ColumnTotal(xs[..|xs| - 1], i) + xs[|xs| - 1][i]
  }

  /** The arithmetic mean of a non-empty stream, component by component. */
  function Average(xs: seq<Vector>): (m: Vector)
    requires SameDimension(xs) && |xs| > 0
    ensures |m| == |xs[0]|
    ensures forall i :: 0 <= i < |m| ==> m[i] == ColumnTotal(xs, i) / (|xs| as real)
  {
    seq(|xs[0]|, i requires 0 <= i < |xs[0]| => ColumnTotal(xs, i) / (|xs| as real))
  }

  /**
   One step of the running mean in exact arithmetic: moving the average of
   `k` values by `(x - average) / (k + 1)` gives the average of `k + 1`
   values.
   */
  lemma MeanStep(total: real, x: real, k: nat)
    requires k > 0
    ensures total / (k as real) + (x - total / (k as real)) / ((k + 1) as real)
            == (total + x) / ((k + 1) as real)
  {
    var K := k as real;
    var m := total / K;
    assert m * K == total;
    calc {
      (m + (x - m) / (K + 1.0)) * (K + 1.0);
      m * (K + 1.0) + (x - m);
      m * K + x;
      total + x;
    }
  }

  /**
   The inductive step for one component: if the mean before the last sample
   is the average of the samples before it, the mean after it is the average
   of all of them.
   */
  lemma MeanComponentStep(xs: seq<Vector>, i: nat)
    requires SameDimension(xs) && |xs| >= 2 && i < |xs[0]|
    requires SameDimension(xs[..|xs| - 1])
    requires Run(xs[..|xs| - 1]).mean[i]
             == ColumnTotal(xs[..|xs| - 1], i) / ((|xs| - 1) as real)
    ensures Run(xs).mean[i] == ColumnTotal(xs, i) / (|xs| as real)
  {
    var n := |xs|;
    var previous := xs[..n - 1];
    var x := xs[n - 1];
    var before := Run(previous);
    var total := ColumnTotal(previous, i);
    assert before.samples == n - 1;
    var delta := Deviation(before, x);
    assert Run(xs) == Consume(before, x);
    assert Run(xs).mean[i] == before.mean[i] + delta[i] / (n as real);
    assert delta[i] == x[i] - total / ((n - 1) as real);
    MeanStep(total, x[i], n - 1);
    assert ColumnTotal(xs, i) == total + x[i];
  }

  /**
   After a non-empty stream the running mean is exactly the arithmetic mean
   of all samples seen.
   */
  lemma {:induction false} RunMeanIsAverage(xs: seq<Vector>)
    requires SameDimension(xs) && |xs| > 0
    ensures Run(xs).mean == Average(xs)
  {
    var n := |xs|;
    var x := xs[n - 1];
    var previous := xs[..n - 1];
    PrefixSameDimension(xs, n - 1);
    if n == 1 {
      forall i | 0 <= i < |x|
        ensures Run(xs).mean[i] == Average(xs)[i]
      {
        assert ColumnTotal(xs, i) == ColumnTotal(previous, i) + x[i];
      }
    } else {
      RunMeanIsAverage(previous);
      forall i | 0 <= i < |x|
        ensures Run(xs).mean[i] == Average(xs)[i]
      {
        MeanComponentStep(xs, i);
      }
    }
  }

  /**
   The deviation of the last sample, component `i`, from the average of the
   samples before it.
   */
  function LastDeviation(xs: seq<Vector>, i: nat): real
    requires SameDimension(xs) && |xs| >= 2 && i < |xs[0]|
  {
    PrefixSameDimension(xs, |xs| - 1);
    xs[|xs| - 1][i] - Average(xs[..|xs| - 1])[i]
  }

  /**
   Entry (i, j) of the unrolled sum `Σ_{k=2..n} delta_k[i] * delta_k[j] / k`,
   where `delta_k` is sample k minus the average of samples 1..k-1. It is
   defined from the samples alone, without any running state.
   */
  function ClosedForm(xs: seq<Vector>, i: nat, j: nat): real
    requires SameDimension(xs) && (|xs| > 0 ==> i < |xs[0]| && j < |xs[0]|)
  {
    if |xs| <= 1 then 0.0
    else
      PrefixSameDimension(xs, |xs| - 1);
      ClosedForm(xs[..|xs| - 1], i, j) + Increment(LastDeviation(xs, i), LastDeviation(xs, j), |xs|)
  }

  /**
   The inductive step for one entry: if a state holds the average of the
   samples before the last one as its mean and their closed form at (i, j),
   consuming the last sample yields the closed form of all of them at (i, j).
   */
  lemma ClosedFormEntryStep(xs: seq<Vector>, before: State, i: nat, j: nat)
    requires SameDimension(xs) && |xs| >= 2 && i < |xs[0]| && j < |xs[0]|
    requires SameDimension(xs[..|xs| - 1])
    requires Valid(before) && before.samples == |xs| - 1 && |before.mean| == |xs[0]|
    requires before.mean == Average(xs[..|xs| - 1])
    requires before.covariance[i][j] == ClosedForm(xs[..|xs| - 1], i, j)
    ensures Consume(before, xs[|xs| - 1]).covariance[i][j] == ClosedForm(xs, i, j)
  {
    ConsumeEntryFromMean(before, xs[|xs| - 1], LastDeviation(xs, i), LastDeviation(xs, j), |xs|, i, j);
  }

  /**
   The matrix after a non-empty stream is the unrolled sum of the per-step
   increments. It is not the population covariance of the samples: earlier
   entries are never rescaled when the count grows.
   */
  lemma {:induction false} RunCovarianceIsClosedForm(xs: seq<Vector>)
    requires SameDimension(xs) && |xs| > 0
    ensures forall i, j :: 0 <= i < |xs[0]| && 0 <= j < |xs[0]| ==>
              Run(xs).covariance[i][j] == ClosedForm(xs, i, j)
  {
    var n := |xs|;
    var previous := xs[..n - 1];
    PrefixSameDimension(xs, n - 1);
    if n == 1 {
      assert Run(xs) == Consume(New(), xs[0]);
    } else {
      RunCovarianceIsClosedForm(previous);
      RunMeanIsAverage(previous);
      assert Run(xs) == Consume(Run(previous), xs[n - 1]);
      forall i, j | 0 <= i < |xs[0]| && 0 <= j < |xs[0]|
        ensures Run(xs).covariance[i][j] == ClosedForm(xs, i, j)
      {
        ClosedFormEntryStep(xs, Run(previous), i, j);
      }
    }
  }

  /**
   A stream that repeats its first sample leaves the mean at that sample and
   the matrix all zero: every deviation is zero.
   */
  lemma {:induction false} RepeatedSampleLeavesZero(xs: seq<Vector>)
    requires |xs| > 0 && forall k :: 0 <= k < |xs| ==> xs[k] == xs[0]
    ensures Run(xs).mean == xs[0]
    ensures Run(xs).covariance == Zero(|xs[0]|)
  {
    var n := |xs|;
    var d := |xs[0]|;
    var previous := xs[..n - 1];
    PrefixSameDimension(xs, n - 1);
    if n == 1 {
      assert Run(xs) == Consume(New(), xs[0]);
    } else {
      RepeatedSampleLeavesZero(previous);
      assert Run(xs) == Consume(Run(previous), xs[n - 1]);
      ConsumeAtMeanKeepsMatrix(Run(previous), xs[n - 1]);
    }
  }

  /** The second step of the three-sample example. */
  lemma ExampleSecondStep()
    ensures Consume(State(1, [1.0, 2.0], Zero(2)), [3.0, 4.0])
            == State(2, [2.0, 3.0], [[2.0, 2.0], [2.0, 2.0]])
  {
    var before := State(1, [1.0, 2.0], Zero(2));
    var after := Consume(before, [3.0, 4.0]);
    assert Deviation(before, [3.0, 4.0]) == [2.0, 2.0];
    assert after.mean == [2.0, 3.0];
    assert after.covariance[0] == [2.0, 2.0] && after.covariance[1] == [2.0, 2.0];
  }

  /** The third step of the three-sample example. */
  lemma ExampleThirdStep()
    ensures Consume(State(2, [2.0, 3.0], [[2.0, 2.0], [2.0, 2.0]]), [5.0, 6.0])
            == State(3, [3.0, 4.0], [[5.0, 5.0], [5.0, 5.0]])
  {
    var before := State(2, [2.0, 3.0], [[2.0, 2.0], [2.0, 2.0]]);
    var after := Consume(before, [5.0, 6.0]);
    assert Deviation(before, [5.0, 6.0]) == [3.0, 3.0];
    assert after.mean == [3.0, 4.0];
    assert after.covariance[0] == [5.0, 5.0] && after.covariance[1] == [5.0, 5.0];
  }

  /**
   The three two-dimensional samples (1, 2), (3, 4), (5, 6) leave the mean
   (3, 4) and a matrix with 5 in every entry: 2 from the second sample plus 3
   from the third. The population covariance of these samples would be 8/3.
   */
  lemma ThreeSampleExample()
    ensures Run([[1.0, 2.0], [3.0, 4.0], [5.0, 6.0]]).mean == [3.0, 4.0]
    ensures Get(Run([[1.0, 2.0], [3.0, 4.0], [5.0, 6.0]])) == [[5.0, 5.0], [5.0, 5.0]]
  {
    var xs: seq<Vector> := [[1.0, 2.0], [3.0, 4.0], [5.0, 6.0]];
    assert xs[..2][..1] == xs[..1] && |xs[..1][..0]| == 0 && xs[..3] == xs;
    assert Run(xs[..1]) == State(1, [1.0, 2.0], Zero(2));
    ExampleSecondStep();
    assert Run(xs[..2]) == State(2, [2.0, 3.0], [[2.0, 2.0], [2.0, 2.0]]);
    ExampleThirdStep();
    assert Run(xs) == State(3, [3.0, 4.0], [[5.0, 5.0], [5.0, 5.0]]);
  }
}

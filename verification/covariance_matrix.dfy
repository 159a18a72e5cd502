/**
 The streaming covariance consumer: a sample count, a running mean and a
 running covariance matrix, updated one sample at a time.

 Each call is modelled as one atomic step on an immutable state value; the
 lock that serialises calls in the original is not modelled.
 */
module CovarianceMatrix {
  import opened LinearAlgebra

  /**
   The consumer's state: the number of samples processed, the current mean
   and the current covariance matrix.
   */
  datatype State = State(samples: nat, mean: Vector, covariance: Matrix)

  /**
   The shape every reachable state has. Before the first sample the mean and
   the matrix are empty; afterwards the mean has the dimension d of the first
   sample and the matrix is d×d.
   */
  predicate Valid(s: State) {
    if s.samples == 0 then s.mean == [] && s.covariance == []
    else IsSquare(s.covariance, |s.mean|)
  }

  /**
   What a caller must guarantee of a sample: after the first one, it has the
   dimension of the stored mean. The original does not check this.
   */
  predicate Fits(s: State, sample: Vector) {
    s.samples == 0 || |sample| == |s.mean|
  }

  /** The freshly constructed consumer: no samples seen. */
  function New(): (s: State)
    ensures Valid(s) && s.samples == 0
    ensures Get(s) == []
  {
    State(0, [], [])
  }

  /**
   The deviation `sample - mean` of a later sample from the mean held before
   it is processed (called `delta` in the original).
   */
  function Deviation(s: State, sample: Vector): (delta: Vector)
    requires Valid(s) && s.samples > 0 && Fits(s, sample)
    ensures |delta| == |s.mean|
    ensures forall i :: 0 <= i < |delta| ==> delta[i] == sample[i] - s.mean[i]
  {
    Difference(sample, s.mean)
  }

  /**
   Processes one sample. The first sample becomes the mean and leaves a zero
   matrix of its dimension. Every later sample, with `n` the incremented count
   and `delta` its deviation from the mean held BEFORE this call, adds
   `delta[i] * delta[j] / n` to every entry (i, j) of the matrix, and only then
   moves the mean by `delta / n`. The old matrix is not rescaled.
   */
  function Consume(s: State, sample: Vector): (r: State)
    requires Valid(s) && Fits(s, sample)
    ensures Valid(r)
    ensures r.samples == s.samples + 1
    ensures s.samples == 0 ==>
              r.mean == sample && r.covariance == Zero(|sample|)
    ensures s.samples > 0 ==> |r.mean| == |s.mean|
    ensures s.samples > 0 ==>
              forall i :: 0 <= i < |s.mean| ==>
                r.mean[i] == s.mean[i] + Deviation(s, sample)[i] / (r.samples as real)
    ensures s.samples > 0 ==>
              forall i, j :: 0 <= i < |s.mean| && 0 <= j < |s.mean| ==>
                r.covariance[i][j]
                == s.covariance[i][j] + Increment(Deviation(s, sample)[i], Deviation(s, sample)[j], r.samples)
  {
    if s.samples == 0 then
      State(1, sample, Zero(|sample|))
    else
      var n := s.samples + 1;
      var delta := Deviation(s, sample);
      State(n, Sum(s.mean, Quotient(delta, n)), AddOuterProduct(s.covariance, delta, n))
  }

  /**
   A copy of the current matrix: the empty (0×0) matrix before any sample,
   a d×d matrix afterwards. The state it is read from is a value and stays as
   it was.
   */
  function Get(s: State): (m: Matrix)
    ensures s.samples == 0 && Valid(s) ==> m == []
    ensures Valid(s) && s.samples > 0 ==> IsSquare(m, |s.mean|)
  {
    s.covariance
  }

  /**
   The inner loop of the update: every entry `l` of row `i` grows by
   `delta[i] * delta[l] / n`, left to right.
   */
  method AccumulateRow(m: Matrix, delta: Vector, i: nat, n: nat) returns (row: Vector)
    requires IsSquare(m, |delta|) && i < |delta| && n > 0
    ensures row == AddOuterProduct(m, delta, n)[i]
  {
    ghost var target := AddOuterProduct(m, delta, n)[i];
    row := m[i];
    var j := 0;
    while j < |delta|
      invariant 0 <= j <= |delta| == |row|
      invariant forall l :: 0 <= l < j ==> row[l] == target[l]
      invariant forall l :: j <= l < |delta| ==> row[l] == m[i][l]
    {
      row := row[j := row[j] + Increment(delta[i], delta[j], n)];
      j := j + 1;
    }
  }

  /**
   `Consume` written as the original executes it: the count is incremented,
   then a double loop over the sample's indices adds `delta[i] * delta[j] / n`
   in place, and last the mean is moved.
   */
  method ConsumeInPlace(s: State, sample: Vector) returns (r: State)
    requires Valid(s) && Fits(s, sample)
    ensures r == Consume(s, sample)
  {
    if s.samples == 0 {
      r := State(1, sample, Zero(|sample|));
      return;
    }
    var n := s.samples + 1;
    var delta := Deviation(s, sample);
    var cov := s.covariance;
    var i := 0;
    while i < |delta|
      invariant 0 <= i <= |delta| == |cov|
      invariant forall k :: 0 <= k < i ==> cov[k] == AddOuterProduct(s.covariance, delta, n)[k]
      invariant forall k :: i <= k < |delta| ==> cov[k] == s.covariance[k]
    {
      var row := AccumulateRow(s.covariance, delta, i, n);
      cov := cov[i := row];
      i := i + 1;
    }
    r := State(n, Sum(s.mean, Quotient(delta, n)), cov);
  }

  /**
   The update keeps the matrix symmetric: `delta[i] * delta[j]` and
   `delta[j] * delta[i]` are the same increment.
   */
  lemma ConsumePreservesSymmetry(s: State, sample: Vector)
    requires Valid(s) && Fits(s, sample) && IsSquare(s.covariance, |s.covariance|)
    requires IsSymmetric(s.covariance)
    ensures IsSquare(Consume(s, sample).covariance, |Consume(s, sample).covariance|)
    ensures IsSymmetric(Consume(s, sample).covariance)
  {
  }

  /**
   No variance ever shrinks: each diagonal entry grows by `delta[i]² / n`,
   which is never negative.
   */
  lemma ConsumeKeepsVariances(s: State, sample: Vector)
    requires Valid(s) && Fits(s, sample) && s.samples > 0
    ensures forall i :: 0 <= i < |s.mean| ==>
              Consume(s, sample).covariance[i][i] >= s.covariance[i][i]
  {
    var delta := Deviation(s, sample);
    forall i | 0 <= i < |s.mean|
      ensures Consume(s, sample).covariance[i][i] >= s.covariance[i][i]
    {
      SquareIncrement(delta[i], s.samples + 1);
    }
  }

  /**
   A sample equal to the current mean has zero deviation: only the count
   moves, the mean and the matrix stay as they were.
   */
  lemma ConsumeAtMeanKeepsMatrix(s: State, sample: Vector)
    requires Valid(s) && s.samples > 0 && sample == s.mean
    ensures Consume(s, sample) == State(s.samples + 1, s.mean, s.covariance)
  {
    var r := Consume(s, sample);
    var delta := Deviation(s, sample);
    assert forall i :: 0 <= i < |delta| ==> delta[i] == 0.0;
    forall i | 0 <= i < |s.mean|
      ensures r.covariance[i] == s.covariance[i]
    {
      forall j | 0 <= j < |s.mean|
        ensures r.covariance[i][j] == s.covariance[i][j]
      {
        assert delta[i] == 0.0;
      }
    }
    assert r.mean == s.mean;
  }

  /**
   Entry (i, j) after a later sample, with the two deviations and the new
   count given by name.
   */
  lemma ConsumeEntryFromMean(s: State, sample: Vector, a: real, b: real, n: nat, i: nat, j: nat)
    requires Valid(s) && Fits(s, sample) && s.samples > 0 && i < |sample| && j < |sample|
    requires a == sample[i] - s.mean[i] && b == sample[j] - s.mean[j] && n == s.samples + 1
    ensures Consume(s, sample).covariance[i][j] == s.covariance[i][j] + Increment(a, b, n)
  {
    assert Deviation(s, sample)[i] == a && Deviation(s, sample)[j] == b;
  }

  /** Component `i` of the mean after a later sample, with the deviation and the new count given by name. */
  lemma ConsumeMeanFromDeviation(s: State, sample: Vector, a: real, n: nat, i: nat)
    requires Valid(s) && Fits(s, sample) && s.samples > 0 && i < |sample|
    requires a == sample[i] - s.mean[i] && n == s.samples + 1
    ensures Consume(s, sample).mean[i] == s.mean[i] + a / (n as real)
  {
    assert Deviation(s, sample)[i] == a;
  }
}

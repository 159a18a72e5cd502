# Streaming covariance matrix consumer, in Dafny

This project models SampleFlow's `Consumers::CovarianceMatrix`. The consumer receives samples one at a time, and each sample is a vector of `d` scalars. It keeps three things:

- the number of samples processed so far (`n_samples`);
- the running mean of the samples (`current_mean`);
- a running `d × d` matrix (`current_covariance_matrix`), which `get()` returns.

In the model, the consumer's state is the immutable value `CovarianceMatrix.State`. The constructor, `consume` and `get` are pure functions on that state. The double loop that `consume` runs in place is also written out as a method, `ConsumeInPlace`, and proved to compute the same state. All scalars are exact `real`s.

Modules:

- `LinearAlgebra` (`linear_algebra.dfy`): vectors, square matrices, the rank-one update `m + u uᵀ / n`, inner products and quadratic forms.
- `CovarianceMatrix` (`covariance_matrix.dfy`): the state, the operations `New`, `Consume` and `Get`, the loop version of `Consume`, and the properties of one step.
- `Stream` (`stream.dfy`): the state after a whole stream of samples. The mean is proved to be the arithmetic mean of the samples, and the matrix is given in closed form. It also holds the worked example (1, 2), (3, 4), (5, 6).
- `Order` (`order.dfy`): how the result depends on the order of the samples. The mean does not depend on it; the matrix does.
- `Semidefinite` (`semidefinite.dfy`): after every prefix of the stream, the matrix is positive semidefinite.

## What the code computes

The model follows the code of `consume`, not the formula in the class documentation. Call `n` the incremented count and `delta` the sample minus the mean held before the call. Then `consume` does two things, in this order:

1. It adds `delta[i] * delta[j] / n` to every entry (i, j) of the matrix.
2. It moves the mean by `delta / n`.

The old matrix is never rescaled. After `n` samples, therefore, the matrix is `Σ_{k=2..n} δ_k δ_kᵀ / k`, where `δ_k` is sample `k` minus the average of the samples before it (`Stream.RunCovarianceIsClosedForm`). This is neither the formula `C_k = 1/k Σ (x_j - x̄_j)(x_j - x̄_j)ᵀ` in the class documentation nor the population or sample covariance of the samples.

Example: the samples (1, 2), (3, 4), (5, 6) leave 5 in every entry. The population covariance of these samples is 8/3 in every entry (`Stream.ThreeSampleExample`).

Some further points on which the model deliberately follows the code:

- `consume` does not check that a later sample has the dimension of the first one. The model makes that a precondition (`Fits`) and does not add an error result.
- The mean does not depend on the order of the samples. The matrix does depend on it: the samples 0, 1, 2 leave 5/4, while 0, 2, 1 leave 2 (`Order.MatrixDependsOnOrder`).
- Before the first sample, `get()` returns the default-constructed matrix, which is 0×0. The documentation at line 104 speaks of a default-constructed `InputType` instead.

## Model

| member | source | states |
|---|---|---|
| `CovarianceMatrix.New` | include/sampleflow/consumers/covariance_matrix.h:139-144 | A fresh consumer has seen no samples, satisfies the state invariant, and `get` returns the empty 0×0 matrix. |
| `CovarianceMatrix.Deviation` | include/sampleflow/consumers/covariance_matrix.h:170-171 | `delta` has the dimension of the mean, and each component is the sample's component minus the mean's. |
| `CovarianceMatrix.Consume` | include/sampleflow/consumers/covariance_matrix.h:148-183 | The count goes up by exactly one and the state invariant is kept. The first sample becomes the mean over a zero d×d matrix. For a later sample, entry (i, j) grows by `delta[i] * delta[j] / n` and mean component i grows by `delta[i] / n`, with `delta` taken against the mean before the call and `n` the new count. |
| `CovarianceMatrix.Get` | include/sampleflow/consumers/covariance_matrix.h:187-195 | Before any sample it returns the 0×0 matrix. Afterwards it returns a d×d matrix, where d is the dimension of the samples. |
| `CovarianceMatrix.AccumulateRow` | include/sampleflow/consumers/covariance_matrix.h:173-174 | The inner loop over j turns row i of the matrix into row i of `m + delta deltaᵀ / n`. |
| `CovarianceMatrix.ConsumeInPlace` | include/sampleflow/consumers/covariance_matrix.h:158-181 | The in-place version increments the count, runs the double loop over (i, j) and then moves the mean. It yields exactly the state `Consume` specifies. |
| `CovarianceMatrix.ConsumePreservesSymmetry` | include/sampleflow/consumers/covariance_matrix.h:172-174 | If the matrix is symmetric before a step, it is symmetric after it. |
| `CovarianceMatrix.ConsumeKeepsVariances` | include/sampleflow/consumers/covariance_matrix.h:172-174 | No diagonal entry ever decreases. |
| `CovarianceMatrix.ConsumeAtMeanKeepsMatrix` | include/sampleflow/consumers/covariance_matrix.h:170-181 | A sample equal to the current mean changes only the count. |
| `CovarianceMatrix.ConsumeEntryFromMean` | include/sampleflow/consumers/covariance_matrix.h:170-174 | Entry (i, j) after a later sample, in terms of the two named deviations and the new count. |
| `CovarianceMatrix.ConsumeMeanFromDeviation` | include/sampleflow/consumers/covariance_matrix.h:177-181 | Mean component i after a later sample, in terms of the named deviation and the new count. |
| `LinearAlgebra.AddOuterProduct` | include/sampleflow/consumers/covariance_matrix.h:172-174 | The result is square of the same dimension, and entry (i, j) is the old entry plus `u[i] * u[j] / n`. |
| `Stream.Run` | include/sampleflow/consumers/covariance_matrix.h:148-183 | After a stream of `k` samples the count is `k`, the mean has the samples' dimension, and the matrix is square and symmetric. |
| `Stream.RunMeanIsAverage` | include/sampleflow/consumers/covariance_matrix.h:177-181 | After any non-empty stream, the running mean equals the arithmetic mean of all samples seen. |
| `Stream.RunCovarianceIsClosedForm` | include/sampleflow/consumers/covariance_matrix.h:168-174 | After any non-empty stream, the matrix equals `Σ_{k=2..n} δ_k δ_kᵀ / k`, defined from the samples alone. |
| `Stream.RepeatedSampleLeavesZero` | include/sampleflow/consumers/covariance_matrix.h:170-181 | A stream of copies of one sample leaves that sample as the mean and a zero matrix. |
| `Stream.ThreeSampleExample` | include/sampleflow/consumers/covariance_matrix.h:168-181 | The samples (1, 2), (3, 4), (5, 6) give the mean (3, 4) and 5 in every entry of `get()`. |
| `Order.MeanIgnoresOrder` | include/sampleflow/consumers/covariance_matrix.h:177-181 | Any permutation of the same samples gives the same mean. |
| `Order.MatrixDependsOnOrder` | include/sampleflow/consumers/covariance_matrix.h:172-174 | Two orders of the same multiset of samples give different matrices. |
| `Semidefinite.ConsumeQuadratic` | include/sampleflow/consumers/covariance_matrix.h:172-174 | A later sample adds `(delta · v)² / n` to the matrix's quadratic form at every `v`. |
| `Semidefinite.ConsumePreservesSemidefinite` | include/sampleflow/consumers/covariance_matrix.h:158-174 | If the matrix is positive semidefinite before a step, it is after it. The first sample's zero matrix is positive semidefinite. |
| `Semidefinite.RunIsPositiveSemidefinite` | include/sampleflow/consumers/covariance_matrix.h:148-183 | After any stream of samples, `vᵀ C v >= 0` for every vector `v`. |
| `Semidefinite.RunVariancesNonNegative` | include/sampleflow/consumers/covariance_matrix.h:172-174 | After any stream of samples, every diagonal entry is at least zero. |

## Left out

- The mutex (lines 117, 153 and 192) is left out. Each call is one atomic step on a state value, so concurrent callers are not modelled.
- Floating point is left out: scalars are exact reals, with no rounding and no overflow. In particular, order-invariance of the mean holds only in exact arithmetic.
- The `AuxiliaryData` argument of `consume` (line 151) is ignored by the code, so it is not a parameter of the model.
- The `Consumer` base class and its connection to producers are outside this model. The file `sampleflow/consumer.h` is not part of this model.
- The width of `types::sample_index` and of the `unsigned int` loop counters is not modelled. Counts and indices are unbounded naturals.
- Whether uBLAS `resize` on line 161 zero-fills the matrix is not modelled. The first sample leaves a zero matrix, as the comment at lines 155-157 intends.
- The default-constructed `current_mean` before the first sample is modelled as the empty vector.
- A later sample whose dimension differs from the first one's is excluded by a precondition, and its behaviour is left out. The code does not detect it: the loops run over the new sample's size and index the stored mean and matrix with it.
- `CovarianceMatrix.Get` states only the shape of the matrix it returns, not its entries. The entries are stated by `Consume`, `Stream.RunCovarianceIsClosedForm` and `Stream.ThreeSampleExample`.

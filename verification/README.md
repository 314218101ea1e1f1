# Streaming standard scaler, modelled in Dafny

This project models the streaming standard scaler of `classical-ml-discussion`.
It estimates the mean and the standard deviation of a stream of batches of
samples, then rescales any vector to zero mean and unit variance. There are
three parts:

- `OnlineOptimizer` is the aggregator. It counts the samples it has absorbed.
  - `fit` computes a first batch's mean and ddof-adjusted standard deviation,
    and restarts the count at the batch's length.
  - `incremental_fit` folds a new batch into an existing `StandardScaler` from
    `(count, mean, standard deviation)` alone. It uses the pairwise variance
    update of Chan, Golub and LeVeque.
- `StandardScaler::transform` maps each element `x` to `(x - mean) / standard_deviation`.
- `Config` carries `ddof`, the delta degrees of freedom. Its default is 1.

Modules:

- `Statistics` holds the reference definitions over `seq<real>`: `Sum`,
  `SumSq`, `SS(s, c)` (squared deviations from `c`), `Mean` and
  `Var(s, ddof) = SS(s, Mean(s)) / (|s| - ddof)`. It also holds the algebra
  that merges two batches' summaries.
- `Scaler` holds the scaler record, the error type, `Transform`, and the
  predicate `Summarises(t, history)`. That predicate says the scaler's mean is
  the mean of `history`, and its standard deviation is non-negative with a
  square equal to `Var(history, ddof)`.
- `Configuration` holds the blueprint and its default.
- `Optimizer` holds the aggregator, `Fit` and `IncrementalFit`. Each returns a
  `Step`: the optimizer after the call together with the call's result. This
  models `&mut self` plus the returned `Result`.
- `Basic` models the older snapshot `examples/basic.rs`. Its `fit`,
  `transform` and `Config::default` (basic.rs:44-64, 117-122, 137-142) are
  textually the same as the newer files, so the same members serve both
  versions. Only its `incremental_fit` differs, and `Basic.IncrementalFit`
  models it.

The platform square root is a parameter `sqrt: real -> real`. Every member
that needs it requires `IsSqrt(sqrt)`: for every `x >= 0`, `sqrt(x) >= 0` and
`sqrt(x) * sqrt(x) == x`.

The headline result is `Optimizer.IncrementalFitMerges`. Suppose the scaler
summarises the samples the optimizer has counted. Then after
`incremental_fit` it summarises those samples followed by the new batch.

Two exact equalities follow from it:

- Fitting batch `A` and then updating with batch `B` gives the same optimizer
  and scaler as fitting `A ++ B` (`Optimizer.FitThenUpdateIsFit`).
- Two updates in a row equal one update with the concatenated batches
  (`Optimizer.UpdatesCompose`).

`Optimizer.WorkedExample` follows one input through the code. Fitting
`[2, 4, 4, 4, 5, 5, 7, 9]` with `ddof = 1` gives mean 5 and variance 32/7.
Updating with `[1, 3]` then gives mean 22/5 and variance 242/45, a standard
deviation of about 2.319.

## Model

| member | source | states |
|---|---|---|
| Configuration.DefaultConfig | examples/running_mean/standard_scaler/config.rs:12-17 | The default blueprint has `ddof = 1`, the sample standard deviation. |
| Scaler.Transform | examples/running_mean/standard_scaler/mod.rs:33-38 | `transform` always returns `Ok`, with exactly one output per input. Each output, multiplied by the standard deviation and shifted by the mean, gives back its input in the same position. |
| Scaler.TransformInverse | examples/running_mean/standard_scaler/transformer.rs:23-28 | Applying the inverse map `y * sd + mean` to the whole output of `transform` recovers the input sequence exactly. |
| Scaler.TransformCentres | examples/running_mean/main.rs:23-34 | A scaler whose mean is the mean of a non-empty batch, and whose standard deviation is non-zero, maps that batch to mean 0. The driver's `check` prints exactly this quantity. |
| Scaler.TransformStandardizes | examples/running_mean/standard_scaler/mod.rs:9-11 | A scaler that summarises the batch (its mean, and a non-zero standard deviation whose square is the ddof-variance) maps the batch to mean 0 and ddof-variance 1. |
| Statistics.VarNonNegative | examples/running_mean/standard_scaler/optimizer.rs:35 | The ddof-adjusted variance that `std_axis` takes the root of is never negative once `ddof` is below the batch length. |
| Statistics.MergeMean | examples/running_mean/standard_scaler/optimizer.rs:72-75 | The mean of `a ++ b` is `mean(a)` shifted by `(mean(b) - mean(a)) * |b| / (|a| + |b|)`. |
| Statistics.MergeSS | examples/running_mean/standard_scaler/optimizer.rs:76-79 | The squared deviations of `a ++ b` about their mean are those of `a` and of `b` about their own means, plus `delta^2 * |a| * |b| / (|a| + |b|)` (Chan, Golub and LeVeque). |
| Optimizer.Default | examples/running_mean/standard_scaler/optimizer.rs:11-16 | A freshly defaulted optimizer has counted no samples. |
| Optimizer.Fit | examples/running_mean/standard_scaler/optimizer.rs:24-44 | `fit` returns `Err` exactly when the batch is empty, and then leaves the optimizer unchanged. A non-empty batch overwrites the count with its length and carries the blueprint's `ddof`. The scaler it returns summarises the batch: the mean is the batch mean, and the standard deviation is non-negative with a square equal to the ddof-variance. |
| Optimizer.IncrementalFit | examples/running_mean/standard_scaler/optimizer.rs:53-92 | `incremental_fit` never fails. An empty batch returns the same scaler and the same optimizer. A non-empty batch grows the count by exactly its length and carries `ddof` over. |
| Optimizer.IncrementalFitMean | examples/running_mean/standard_scaler/optimizer.rs:72-75 | If the scaler's mean is the mean of the `n_samples` counted samples, the updated mean is the mean of those samples followed by the batch. |
| Optimizer.PooledVarianceMerges | examples/running_mean/standard_scaler/optimizer.rs:76-81 | The update's formula `(s1^2 (n1-ddof) + s2^2 (n2-ddof) + delta^2 n1 n2 / n) / (n - ddof)`, fed each batch's exact variance, is the ddof-variance of the concatenation. |
| Optimizer.IncrementalFitStd | examples/running_mean/standard_scaler/optimizer.rs:64-81 | Under the same caller contract, the updated standard deviation is the square root of the ddof-variance of all samples seen. |
| Optimizer.IncrementalFitMerges | examples/running_mean/standard_scaler/optimizer.rs:5-6 | Incremental computation is exact. If the scaler summarises the counted samples, then after `incremental_fit` the count is that of `history ++ batch` and the scaler summarises `history ++ batch`. This includes the empty batch. |
| Optimizer.FitThenUpdateIsFit | examples/running_mean/main.rs:41-50 | `fit(A)` followed by `incremental_fit(B)` gives the same optimizer and the same scaler as `fit(A ++ B)`. This is the comparison the driver sets up against the stacked data. |
| Optimizer.UpdatesCompose | examples/running_mean/standard_scaler/optimizer.rs:84-91 | Updating with `b` and then with `c` gives the same optimizer and scaler as updating once with `b ++ c`, so the result does not depend on how the stream is cut into batches. |
| Optimizer.DefaultFitIsSampleVariance | examples/running_mean/standard_scaler/config.rs:13-16 | Fitting with the default blueprint on at least two samples gives a standard deviation whose square is `SS / (n - 1)`. |
| Optimizer.RunningMeanDriver | examples/running_mean/main.rs:36-52 | In the driver's sequence (default optimizer, `fit` on `x` with the default blueprint, `incremental_fit` on `x2`), the count ends at `|x ++ x2|`. Each scaler, whenever its standard deviation is non-zero, maps the data it was tuned on to mean 0. |
| Optimizer.WorkedExample | examples/running_mean/standard_scaler/optimizer.rs:24-91 | Fitting `[2, 4, 4, 4, 5, 5, 7, 9]` with the default blueprint gives mean 5 and a standard deviation whose square is 32/7. Updating with `[1, 3]` then gives mean 22/5 and a square of 242/45, the sample variance of all ten values. |
| Basic.IncrementalFit | examples/basic.rs:73-107 | The older `incremental_fit` never fails. An empty batch is a no-op. A non-empty batch grows the count by its length and carries `ddof` over. |
| Basic.LegacyMeanMerges | examples/basic.rs:84-92 | The older update agrees with the pooled one on the optimizer, on `ddof` and on the mean, which is the mean of `history ++ batch`. |
| Basic.LegacyUpdateCounterexample | examples/basic.rs:93-96 | Fitting `[0, 2]` with `ddof = 1` and then updating with `[0, 2]` gives the older update a standard deviation whose square is 8. The four samples' variance is 4/3, so the result does not summarise them. The pooled update's result does. |

## Left out

- Floating point is not modelled. Every `f64` is an exact `real`: there is no rounding, no tolerance, no infinity and no NaN. The source yields infinity or NaN in three situations, and each is excluded by a precondition instead:
  - `transform` with a zero standard deviation;
  - `fit` or `incremental_fit` with `ddof` at or above the batch length;
  - the square root of a negative number.
- Scaler.Transform: requires `standard_deviation != 0`. With zero the source returns infinities or NaN, which the model has no value for.
- Optimizer.Fit: requires `ddof < len` for a non-empty batch. At or above the length, `std_axis` divides by zero or panics, and neither is modelled.
- Optimizer.IncrementalFit: requires `ddof < len` for a non-empty batch, for the same reason. The case of a non-negative variance under the root is not required: what `sqrt` returns for a negative argument is left open, as with NaN.
- Basic.IncrementalFit: requires `ddof < len` for a non-empty batch, for the same reason.
- The panic of `ndarray`'s `std_axis` for a negative `ddof` is not modelled. The model extends the variance formula to any `ddof` below the batch length.
- `f64::sqrt` is not defined in the model. It is a parameter that callers promise to be a square root on the non-negative reals.
- The count is a `nat`. Wrap-around of the `u64` count and the `usize`/`u64` to `f64` conversions are not modelled, because they are exact for any realistic stream.
- The `linfa` traits (`Fit`, `IncrementalFit`, `Transformer`, `Blueprint`) and the `ndarray` generics are not modelled. Batches are `seq<real>`, and `mean_axis` and `std_axis` are the reference functions `Mean` and `Var` (the standard deviation squared). The unused `_targets` argument is dropped.
- `examples/running_mean/main.rs`'s random batch generation, `println!` reporting and `ndarray::stack` are not modelled, because they are I/O and randomness. Stacking is sequence concatenation.
- `src/lib.rs` (trait declarations only) and `examples/running_mean/standard_scaler/error.rs` (an empty error struct) are not modelled, because they have no behaviour. `basic.rs`'s `main` only prints.
- The pairing of an optimizer with a scaler it did not produce is not checked by the source. In the model it is a precondition of the merge lemmas: the count is that of `history`, and the scaler summarises `history`.

## Findings

| source | as written | input that shows it | evidently intended | confidence | as-written member | corrected member |
|---|---|---|---|---|---|---|
| examples/basic.rs:93-96 | The new standard deviation is `old_std + batch_std + delta^2 * n1 * n2 / n`. Standard deviations are added, and the cross term is a variance-scale quantity. | Fit `[0, 2]` with `ddof = 1`, giving std `sqrt 2`, then update with `[0, 2]`. The older update gives `2 sqrt 2`, whose square is 8. The four samples' sample variance is 4/3. | The pooled update of optimizer.rs:76-81: square the standard deviations, undo each divisor, add the shift term, divide by `n - ddof` and take the root. | not executed | Basic.LegacyUpdateCounterexample | Optimizer.IncrementalFitMerges |

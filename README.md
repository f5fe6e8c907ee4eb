# PLIV partial-XZ manual estimator, modelled in Dafny

This project models the reference DoubleML estimator for the partially linear IV model with the
"partialling out" score, for the case where both X and Z are partialled out. The source is
`doubleml/plm/tests/_utils_pliv_partial_xz_manual.py`. The model covers six steps:

- **Cross-fitted residuals.** `compute_pliv_partial_xz_residuals` starts three arrays full of NaN.
  Fold by fold, it writes `u = y - l_hat`, `v = m_hat - m_hat_tilde` and `w = d - m_hat_tilde` at
  the fold's test indices.
- **Point estimate.** `pliv_partial_xz_orth` computes `theta = mean(v*u) / mean(v*w)`.
- **Variance.** `var_pliv_partial_xz` computes
  `1/n_obs * 1/mean(v*w)^2 * mean(((u - w*theta) * v)^2)`.
- **One repetition.** `pliv_partial_xz_dml2` runs one cross-fitting repetition.
- **Aggregation.** `fit_pliv_partial_xz` loops over the repetitions. It then takes the median of
  the thetas and the median of `ses^2 * n_obs + (thetas - theta)^2`, divided by `n_obs`.
- **Bootstrap inputs.** `boot_pliv_partial_xz_single_split` rebuilds
  `psi = (u - w*theta) * v` and `J = mean(-(v*w))` from the same residuals.
  `boot_pliv_partial_xz` stacks the blocks of every repetition with `np.hstack`.

Modules:

| file | module | contents |
|---|---|---|
| `outcomes.dfy` | `Outcomes` | `Option`, `Result`, and the errors the Python code raises |
| `stats.dfy` | `Stats` | `Sum`, `Mean`, elementwise products, `Min`/`Max`, sorting and `np.median` |
| `crossfitting.dfy` | `CrossFitting` | folds and NaN-initialised arrays; the residual loop, written imperatively over `array`s and proved equal to a functional definition |
| `estimator.dfy` | `Estimator` | the score, `Orth`, `Variance`, the per-repetition estimate and `Dml2` |
| `aggregation.dfy` | `Aggregation` | the repetition loop of `fit_pliv_partial_xz` (arrays `thetas`, `ses`) and the median aggregation |
| `bootstrap.dfy` | `Bootstrap` | `psi`, `J`, the single-split bootstrap and the stacking loop |

How Python concepts are represented:

- **NaN entries.** A NaN entry of a residual array is `None` in a `seq<Option<real>>`.
- **Non-finite results.** An estimate that numpy would make NaN or infinite is `Err(NotFinite)`.
  This covers an empty sample, a NaN residual and a zero `mean(v*w)`. A fit with such a
  repetition is `Err(NotFinite)` as a whole; see "## Left out" for where numpy differs.
- **Exceptions.** Each exception in the source is its own error:
  - `assert score == "partialling out"` failing is `ScoreNotSupported`.
  - `1 / n_obs` with `n_obs == 0` is `DivisionByZero`.
  - `np.hstack([])` is `NothingToStack`.
- **Standard errors.** The standard error `se = sqrt(var)` is carried as its square, the variance.
- **Outside code.** The learners' predictions, the bootstrap weights and `boot_manual` are inputs:
  - The fold-by-fold predictions of a repetition are a `Nuisance` record.
  - The weights of each repetition are given.
  - `boot_manual` is a function-typed parameter.

## Model

| member | source | states |
|---|---|---|
| CrossFitting.TestSets | doubleml/plm/tests/_utils_pliv_partial_xz_manual.py:93 | the test-index lists of the split, one per fold, in fold order |
| CrossFitting.Unfilled | doubleml/plm/tests/_utils_pliv_partial_xz_manual.py:90-92 | `np.full_like(y, np.nan)`: an array of `len(y)` NaN entries |
| CrossFitting.Values | doubleml/plm/tests/_utils_pliv_partial_xz_manual.py:94-96 | the numbers of a NaN-free array: same length, entry `i` is the number stored at `i` |
| CrossFitting.Scatter | doubleml/plm/tests/_utils_pliv_partial_xz_manual.py:94 | fancy-index assignment `a[idx] = vals` keeps the array length |
| CrossFitting.Assemble | doubleml/plm/tests/_utils_pliv_partial_xz_manual.py:93-96 | writing every fold's values at its test indices, in fold order, keeps the array length |
| CrossFitting.ScatterUntouched | doubleml/plm/tests/_utils_pliv_partial_xz_manual.py:94 | an index not in `idx` keeps its old value |
| CrossFitting.ScatterLastWrite | doubleml/plm/tests/_utils_pliv_partial_xz_manual.py:94 | the entry at `idx[j]` holds `vals[j]` when no later position repeats that index |
| CrossFitting.ScatterFills | doubleml/plm/tests/_utils_pliv_partial_xz_manual.py:94 | an entry that was set, or whose index is written, is not NaN afterwards |
| CrossFitting.AssembleUntouched | doubleml/plm/tests/_utils_pliv_partial_xz_manual.py:90-96 | an index outside every test set keeps its initial value |
| CrossFitting.AssembleAt | doubleml/plm/tests/_utils_pliv_partial_xz_manual.py:93-96 | with pairwise-disjoint test sets, the `j`-th test index of fold `k` holds the `j`-th value of fold `k` |
| CrossFitting.AssembleFilled | doubleml/plm/tests/_utils_pliv_partial_xz_manual.py:93-96 | an index in some test set is not NaN after the loop |
| CrossFitting.ObservedFold | doubleml/plm/tests/_utils_pliv_partial_xz_manual.py:94-96 | `y[test_index] - l_hat[idx]` (for `u`) and `d[test_index] - m_hat_tilde[idx]` (for `w`) have one entry per test index, each index in range |
| CrossFitting.VFold | doubleml/plm/tests/_utils_pliv_partial_xz_manual.py:95 | `m_hat[idx] - m_hat_tilde[idx]` has one entry per test index |
| CrossFitting.ObservedFolds | doubleml/plm/tests/_utils_pliv_partial_xz_manual.py:93-96 | the `u` and `w` values of all folds fit the test sets of the split |
| CrossFitting.VFolds | doubleml/plm/tests/_utils_pliv_partial_xz_manual.py:93-95 | the `v` values of all folds fit the test sets of the split |
| CrossFitting.ResidualsOf | doubleml/plm/tests/_utils_pliv_partial_xz_manual.py:89-98 | the three residual arrays all have length `len(y)` |
| CrossFitting.AssembleStep | doubleml/plm/tests/_utils_pliv_partial_xz_manual.py:93-96 | one more fold of the loop is one more scatter on top of the previous folds |
| CrossFitting.ScatterInto | doubleml/plm/tests/_utils_pliv_partial_xz_manual.py:94 | the in-place assignment leaves the array equal to `Scatter` of its old contents |
| CrossFitting.ScatterFold | doubleml/plm/tests/_utils_pliv_partial_xz_manual.py:94-96 | one array write of fold `k` moves it from `k` folds assembled to `k+1` |
| CrossFitting.ScatterResiduals | doubleml/plm/tests/_utils_pliv_partial_xz_manual.py:94-96 | one loop iteration advances all three arrays by one fold and changes nothing else |
| CrossFitting.ComputeResiduals | doubleml/plm/tests/_utils_pliv_partial_xz_manual.py:89-98 | the returned arrays are new and hold exactly `ResidualsOf` of the inputs |
| CrossFitting.ResidualsUntouched | doubleml/plm/tests/_utils_pliv_partial_xz_manual.py:90-96 | an observation in no test set has NaN in `u`, `v` and `w` |
| CrossFitting.ResidualsAtTestIndex | doubleml/plm/tests/_utils_pliv_partial_xz_manual.py:93-96 | with disjoint test sets, test index `i = test[j]` of fold `k` holds `y[i] - l_hat[k][j]`, `m_hat[k][j] - m_hat_tilde[k][j]` and `d[i] - m_hat_tilde[k][j]` |
| CrossFitting.ResidualsFilled | doubleml/plm/tests/_utils_pliv_partial_xz_manual.py:89-98 | when the test sets cover every index, no residual is NaN |
| CrossFitting.ResidualsOnPartition | doubleml/plm/tests/_utils_pliv_partial_xz_manual.py:89-98 | when the test sets partition the observations, no residual is NaN, and test index `i = test[j]` of fold `k` has the numbers `y[i] - l_hat[k][j]`, `m_hat[k][j] - m_hat_tilde[k][j]` and `d[i] - m_hat_tilde[k][j]` |
| Stats.SumLinear | doubleml/plm/tests/_utils_pliv_partial_xz_manual.py:116-117 | `np.mean` is linear: a pointwise linear combination sums to the same combination of sums |
| Stats.SumNonnegative | doubleml/plm/tests/_utils_pliv_partial_xz_manual.py:117 | a sum of non-negative terms, such as squares, is non-negative |
| Stats.MeanNegate | doubleml/plm/tests/_utils_pliv_partial_xz_manual.py:162 | `np.mean(-x) == -np.mean(x)` |
| Stats.Min | doubleml/plm/tests/_utils_pliv_partial_xz_manual.py:31 | the minimum is an element and bounds every element from below |
| Stats.Max | doubleml/plm/tests/_utils_pliv_partial_xz_manual.py:31 | the maximum is an element and bounds every element from above |
| Stats.Insert | doubleml/plm/tests/_utils_pliv_partial_xz_manual.py:31 | inserting into a sorted list keeps it sorted, and its multiset gains exactly that element |
| Stats.Sort | doubleml/plm/tests/_utils_pliv_partial_xz_manual.py:31 | the sort that `np.median` relies on is sorted and a permutation of its input |
| Stats.SortedWithinRange | doubleml/plm/tests/_utils_pliv_partial_xz_manual.py:31 | every entry of the sorted list lies between the input's minimum and maximum |
| Stats.Median | doubleml/plm/tests/_utils_pliv_partial_xz_manual.py:31-32 | the median lies between min and max, and the median of one value is that value |
| Stats.MedianNonnegative | doubleml/plm/tests/_utils_pliv_partial_xz_manual.py:32 | the median of non-negative values is non-negative |
| Estimator.MeanScore | doubleml/plm/tests/_utils_pliv_partial_xz_manual.py:123-127 | `mean((u - w*theta)*v) == mean(v*u) - theta*mean(v*w)` |
| Estimator.Orth | doubleml/plm/tests/_utils_pliv_partial_xz_manual.py:123-127 | another score raises; the estimate is finite iff the sample is non-empty and `mean(v*w) != 0`; a finite estimate gives the score mean zero |
| Estimator.MomentRoot | doubleml/plm/tests/_utils_pliv_partial_xz_manual.py:123-127 | `theta` gives the score mean zero iff `theta` is the returned estimate; the root is unique |
| Estimator.Variance | doubleml/plm/tests/_utils_pliv_partial_xz_manual.py:110-120 | another score raises; `n_obs == 0` raises division by zero; the result is finite iff `n_obs > 0`, the sample is non-empty and `mean(v*w) != 0`; a finite result is non-negative |
| Estimator.EstimateOf | doubleml/plm/tests/_utils_pliv_partial_xz_manual.py:101-127 | the errors come in source order; the pair is finite iff the score is supported, `n_obs > 0`, the sample is non-empty, no residual is NaN and `mean(v*w) != 0`; then the variance is non-negative and the score has mean zero at theta |
| Estimator.Dml2 | doubleml/plm/tests/_utils_pliv_partial_xz_manual.py:101-107 | the result is the estimate from the residuals of `ComputeResiduals`, with `n_obs = len(y)` |
| Estimator.EstimateDefined | doubleml/plm/tests/_utils_pliv_partial_xz_manual.py:89-127 | on a covering split, the residuals are NaN-free, the estimate is finite iff `len(y) > 0` and `mean(v*w) != 0`, and its variance is non-negative |
| Aggregation.RepResiduals | doubleml/plm/tests/_utils_pliv_partial_xz_manual.py:19-29 | repetition `k`'s residuals have length `len(y)` |
| Aggregation.RepEstimates | doubleml/plm/tests/_utils_pliv_partial_xz_manual.py:18-29 | one estimate per repetition, in repetition order |
| Aggregation.FirstRaisedAt | doubleml/plm/tests/_utils_pliv_partial_xz_manual.py:18-29 | the loop stops at the first repetition that raises, with that repetition's error |
| Aggregation.FirstRaisedNone | doubleml/plm/tests/_utils_pliv_partial_xz_manual.py:18-29 | when no repetition raises, the loop raises nothing |
| Aggregation.Thetas | doubleml/plm/tests/_utils_pliv_partial_xz_manual.py:29 | `thetas[k]` is repetition `k`'s estimate |
| Aggregation.Variances | doubleml/plm/tests/_utils_pliv_partial_xz_manual.py:29 | `ses[k]^2` is repetition `k`'s variance |
| Aggregation.Spread | doubleml/plm/tests/_utils_pliv_partial_xz_manual.py:32 | `ses^2 * n_obs + (thetas - theta)^2` has one entry per repetition |
| Aggregation.SpreadNonnegative | doubleml/plm/tests/_utils_pliv_partial_xz_manual.py:32 | with non-negative variances, the aggregated variance is non-negative |
| Aggregation.SpreadSingle | doubleml/plm/tests/_utils_pliv_partial_xz_manual.py:32 | with one repetition, the aggregated variance is that repetition's variance |
| Aggregation.Combine | doubleml/plm/tests/_utils_pliv_partial_xz_manual.py:31-42 | keeps `thetas` and `ses`; `Min(thetas) <= theta <= Max(thetas)`; with one repetition `theta == thetas[0]` and `se == ses[0]`; non-negative variances give a non-negative variance |
| Aggregation.AggregateRaised | doubleml/plm/tests/_utils_pliv_partial_xz_manual.py:18-29 | the fit raises the error of the first repetition that raises |
| Aggregation.AggregateNoneRaised | doubleml/plm/tests/_utils_pliv_partial_xz_manual.py:18-32 | with no raising repetition, the fit is non-finite for zero repetitions, `n_obs == 0` or a non-finite repetition, and is the median combination otherwise |
| Aggregation.EstimateRepetition | doubleml/plm/tests/_utils_pliv_partial_xz_manual.py:19-29 | one iteration returns repetition `k`'s estimate |
| Aggregation.Fit | doubleml/plm/tests/_utils_pliv_partial_xz_manual.py:8-44 | the loop over the `thetas` and `variances` arrays (`ses` squared) returns exactly the aggregate of the per-repetition estimates |
| Aggregation.SingleRepetition | doubleml/plm/tests/_utils_pliv_partial_xz_manual.py:31-32 | with `n_rep == 1`, `theta == thetas[0]` and `se == ses[0]` |
| Aggregation.FitBounds | doubleml/plm/tests/_utils_pliv_partial_xz_manual.py:29-42 | a finite fit keeps the per-repetition arrays, lies between their min and max, and has a non-negative variance |
| Bootstrap.Psi | doubleml/plm/tests/_utils_pliv_partial_xz_manual.py:164 | `psi` has one entry per observation |
| Bootstrap.PsiIsScore | doubleml/plm/tests/_utils_pliv_partial_xz_manual.py:164 | on NaN-free residuals, `psi` is NaN-free and equals the score the variance uses |
| Bootstrap.JacobianIsNegatedDenominator | doubleml/plm/tests/_utils_pliv_partial_xz_manual.py:162 | on NaN-free non-empty residuals, `J == -mean(v*w)` |
| Bootstrap.VarianceIsSandwich | doubleml/plm/tests/_utils_pliv_partial_xz_manual.py:112-118 | a finite variance equals `mean(psi^2) / (n_obs * J^2)` with `J` non-zero |
| Bootstrap.AggregateOkParts | doubleml/plm/tests/_utils_pliv_partial_xz_manual.py:29-42 | a finite fit has `n_obs > 0`, every repetition finite, and stores repetition `k`'s estimate and variance at `k` |
| Bootstrap.EstimateOfOk | doubleml/plm/tests/_utils_pliv_partial_xz_manual.py:101-127 | a finite repetition has the supported score, NaN-free residuals, and the `Orth` and `Variance` results |
| Bootstrap.EstimateIsCenteredSandwich | doubleml/plm/tests/_utils_pliv_partial_xz_manual.py:101-107 | a finite estimate gives `psi` mean zero, and its variance is `mean(psi^2) / (n_obs * J^2)` |
| Bootstrap.FitScoresCentered | doubleml/plm/tests/_utils_pliv_partial_xz_manual.py:130-168 | for a finite fit and every repetition `k`, `psi` at `thetas[k]` is NaN-free with mean zero, and `ses[k]^2 == mean(psi^2) / (n_obs * J^2)` |
| Bootstrap.SingleSplit | doubleml/plm/tests/_utils_pliv_partial_xz_manual.py:158-168 | another score raises before any work; otherwise the result is `boot_manual` of the `psi` and `J` of `ComputeResiduals`, with the given split, se, weights and `n_rep_boot` |
| Bootstrap.ConcatPrefix | doubleml/plm/tests/_utils_pliv_partial_xz_manual.py:153 | stacking the first `i` blocks gives a prefix of stacking them all |
| Bootstrap.ConcatBlock | doubleml/plm/tests/_utils_pliv_partial_xz_manual.py:153 | block `k` appears in the stacked output immediately after blocks `0..k-1` |
| Bootstrap.Blocks | doubleml/plm/tests/_utils_pliv_partial_xz_manual.py:134-151 | one block per repetition |
| Bootstrap.Boot | doubleml/plm/tests/_utils_pliv_partial_xz_manual.py:130-155 | zero repetitions raise as `np.hstack([])` does; another score raises at the first repetition; otherwise the result is the blocks of all repetitions stacked in order |
| Bootstrap.BootStacksInOrder | doubleml/plm/tests/_utils_pliv_partial_xz_manual.py:133-153 | the stacked output holds repetition `k`'s block at offset `len(blocks 0..k-1)`, built from the residuals of repetition `k` with `thetas[k]`, `ses[k]`, `all_smpls[k]` and `weights[k]` |

## Left out

- Learner fitting and tuning (`fit_nuisance_pliv_partial_xz`, `tune_nuisance_pliv_partial_xz`, lines 47-86): they call scikit-learn, so the out-of-fold predictions are inputs. `Aggregation.Fit` therefore does not return `all_l_hat`, `all_m_hat` and `all_r_hat`, which it would only pass through.
- `draw_weights` and `boot_manual` (randomness and code outside this file): the weights of each repetition are an input, and `boot_manual` is a function parameter.
- Floating point: arithmetic is exact over `real`. Rounding, overflow and signed zeros are not modelled.
- `np.sqrt` (lines 32 and 105) is not modelled: every standard error is carried as its square, the variance. The bootstrap receives `ses` as given numbers.
- Aggregation.Fit: when a repetition is non-finite, numpy still returns the arrays `thetas` and `ses` with NaN or ±inf in them, and the model returns `Err(NotFinite)` instead, without saying which entries are non-finite. The median that numpy returns is NaN when any entry is NaN. It stays finite when the non-finite entries are a minority and all ±inf. That happens when `mean(v*w) == 0` with a non-zero `mean(v*u)` (line 125 gives ±inf, numpy only warns), because `np.median` sorts ±inf to the ends. The model does not capture such a finite fit. For zero repetitions the model also returns `Err(NotFinite)`, while numpy returns the NaN median of an empty array.
- Aggregation.AggregateNoneRaised: states that a non-finite repetition makes the whole fit `Err(NotFinite)`. This is weaker than the source where a minority of repetitions have ±inf estimates: numpy then returns a finite median and se (lines 31-32), and this lemma says nothing about that value.
- Aggregation.FitBounds: applies to finite fits of the model only, all of whose repetitions are finite. A finite numpy fit with a ±inf minority repetition is outside it, and the lemma says nothing about that fit.
- Bootstrap.AggregateOkParts: "a finite fit has every repetition finite" holds for the model's `Aggregate`. It does not hold for the source, whose fit can be finite while a minority of repetitions have ±inf `thetas` and `ses`.
- Bootstrap.FitScoresCentered: covers finite fits of the model only. In a finite numpy fit with a ±inf repetition, that repetition's `thetas[k]` is infinite, its psi does not have mean zero, and the lemma claims nothing about it.
- Estimator.EstimateOf: the distinction between NaN and infinity (`mean(v*w) == 0` gives inf or NaN) is collapsed into `Err(NotFinite)`.
- CrossFitting.ComputeResiduals: the requires `Conforms` (matching lengths and in-range test indices) stands for numpy's broadcasting and IndexError checks, which the source does not handle.
- CrossFitting.Scatter: when a test set repeats an index, numpy does not specify which write wins. The model keeps the last one, and `AssembleAt` assumes disjoint test sets.
- Bootstrap.Boot: the blocks are one-dimensional sequences. The shape of `boot_manual`'s output, and how `np.hstack` joins two-dimensional blocks, are not modelled.
- The `d`, `x` and `z` arguments that `pliv_partial_xz_orth`, `var_pliv_partial_xz` and the bootstrap functions accept but never read are not parameters of the model.

/** Values that may be missing and results that may have failed. */
module Outcomes {

  /** `None` stands for an array slot holding NaN (a residual that was never filled). */
  datatype Option<T> = None | Some(value: T)

  /** Why the reference estimator produces no finite value. */
  datatype Error =
    | ScoreNotSupported(score: string)  // the `assert score == "partialling out"` fails
    | DivisionByZero                    // `1 / n_obs` with `n_obs == 0` raises
    | NotFinite                         // numpy returns nan or inf (empty mean, zero denominator, unfilled entry)
    | NothingToStack                    // `np.hstack` of an empty list raises

  datatype Result<T> = Ok(value: T) | Err(error: Error)

  /** An error that the source raises as an exception, rather than returning nan. */
  predicate Raises<T>(r: Result<T>) {
    r.Err? && r.error != NotFinite
  }
}

/**
 * `fit_pliv_partial_xz`: one DML2 estimate per repetition of the sample split, then the
 * median of the estimates and a variance-adjusted combination of their standard errors.
 */
module Aggregation {
  import opened Outcomes
  import opened Stats
  import opened CrossFitting
  import opened Estimator

  /** The out-of-fold predictions of one repetition: `l_hat`, `m_hat`, `m_hat_tilde`, fold by fold. */
  datatype Nuisance = Nuisance(lHat: seq<seq<real>>, mHat: seq<seq<real>>, mHatTilde: seq<seq<real>>)

  /** Every one of the first `nRep` repetitions has a split and predictions that fit the data. */
  predicate RepsConform(y: seq<real>, d: seq<real>, preds: seq<Nuisance>, allSmpls: seq<seq<Fold>>, nRep: nat)
  {
    |preds| >= nRep && |allSmpls| >= nRep &&
    forall k :: 0 <= k < nRep ==>
      Conforms(y, d, preds[k].lHat, preds[k].mHat, preds[k].mHatTilde, allSmpls[k])
  }

  /** The residuals of repetition `k`. */
  function RepResiduals(y: seq<real>, d: seq<real>, preds: seq<Nuisance>, allSmpls: seq<seq<Fold>>, nRep: nat, k: nat): (r: Residuals)
    requires RepsConform(y, d, preds, allSmpls, nRep) && k < nRep
    ensures |r.u| == |r.v| == |r.w| == |y|
  {
    ResidualsOf(y, d, preds[k].lHat, preds[k].mHat, preds[k].mHatTilde, allSmpls[k])
  }

  /** The DML2 estimate of every repetition, in repetition order. */
  function RepEstimates(y: seq<real>, d: seq<real>, preds: seq<Nuisance>, allSmpls: seq<seq<Fold>>,
                        score: string, nRep: nat): (r: seq<Result<Estimate>>)
    requires RepsConform(y, d, preds, allSmpls, nRep)
    ensures |r| == nRep
  {
    seq(nRep, k requires 0 <= k < nRep => EstimateOf(RepResiduals(y, d, preds, allSmpls, nRep, k), score, |y|))
  }

  /** The error of the first repetition that raises; nan results do not stop the loop. */
  function FirstRaised(es: seq<Result<Estimate>>): (r: Option<Error>)
  {
    if |es| == 0 then None
    else if Raises(es[0]) then Some(es[0].error)
    else FirstRaised(es[1..])
  }

  /** The loop stops at the first repetition that raises, with that repetition's error. */
  lemma {:induction false} FirstRaisedAt(es: seq<Result<Estimate>>, i: nat)
    requires i < |es| && Raises(es[i]) && forall k :: 0 <= k < i ==> !Raises(es[k])
    ensures FirstRaised(es) == Some(es[i].error)
  {
    if i > 0 {
      assert !Raises(es[0]);
      assert es[1..][i - 1] == es[i];
      assert forall k :: 0 <= k < i - 1 ==> es[1..][k] == es[k + 1];
      FirstRaisedAt(es[1..], i - 1);
    }
  }

  /** When no repetition raises, the loop raises nothing. */
  lemma {:induction false} FirstRaisedNone(es: seq<Result<Estimate>>)
    requires forall k :: 0 <= k < |es| ==> !Raises(es[k])
    ensures FirstRaised(es) == None
  {
    if |es| > 0 {
      assert forall k :: 0 <= k < |es| - 1 ==> es[1..][k] == es[k + 1];
      FirstRaisedNone(es[1..]);
    }
  }

  predicate AllOk(es: seq<Result<Estimate>>)
  {
    forall k :: 0 <= k < |es| ==> es[k].Ok?
  }

  function Thetas(es: seq<Result<Estimate>>): (r: seq<real>)
    requires AllOk(es)
    ensures |r| == |es| && forall k :: 0 <= k < |es| ==> r[k] == es[k].value.theta
  {
    seq(|es|, k requires 0 <= k < |es| => es[k].value.theta)
  }

  function Variances(es: seq<Result<Estimate>>): (r: seq<real>)
    requires AllOk(es)
    ensures |r| == |es| && forall k :: 0 <= k < |es| ==> r[k] == es[k].value.variance
  {
    seq(|es|, k requires 0 <= k < |es| => es[k].value.variance)
  }

  /** The fitted result; the aggregate standard error is `sqrt(variance)`. */
  datatype FitResult = FitResult(theta: real, variance: real, thetas: seq<real>, variances: seq<real>)

  /** `ses^2 * n_obs + (thetas - theta)^2`, repetition by repetition. */
  function Spread(thetas: seq<real>, variances: seq<real>, theta: real, n: real): (r: seq<real>)
    requires |thetas| == |variances|
    ensures |r| == |thetas|
  {
    seq(|thetas|, k requires 0 <= k < |thetas| => variances[k] * n + (thetas[k] - theta) * (thetas[k] - theta))
  }

  lemma SpreadNonnegative(thetas: seq<real>, variances: seq<real>, theta: real, n: real)
    requires |thetas| == |variances| > 0 && n > 0.0
    requires forall k :: 0 <= k < |variances| ==> variances[k] >= 0.0
    ensures Median(Spread(thetas, variances, theta, n)) / n >= 0.0
  {
    var spread := Spread(thetas, variances, theta, n);
    forall k | 0 <= k < |spread| ensures spread[k] >= 0.0 {
      SquareNonnegative(thetas[k] - theta);
      ProductNonnegative(variances[k], n);
    }
    MedianNonnegative(spread);
    DivideNonnegative(Median(spread), n);
  }

  /** Sign facts for `SpreadNonnegative`, each proved apart from the sequence and median facts. */
  lemma SquareNonnegative(x: real)
    ensures x * x >= 0.0
  {
  }

  lemma ProductNonnegative(a: real, b: real)
    requires a >= 0.0 && b >= 0.0
    ensures a * b >= 0.0
  {
  }

  lemma DivideNonnegative(m: real, n: real)
    requires m >= 0.0 && n > 0.0
    ensures m / n >= 0.0
  {
  }

  lemma SpreadSingle(thetas: seq<real>, variances: seq<real>, n: real)
    requires |thetas| == |variances| == 1 && n > 0.0
    ensures Median(Spread(thetas, variances, thetas[0], n)) / n == variances[0]
  {
    var spread := Spread(thetas, variances, thetas[0], n);
    assert spread[0] == variances[0] * n;
  }

  /**
   * `theta = median(thetas)` and `se^2 = median(ses^2 * n_obs + (thetas - theta)^2) / n_obs`,
   * with `ses^2` the per-repetition variances.
   */
  function Combine(thetas: seq<real>, variances: seq<real>, nObs: nat): (r: FitResult)
    requires |thetas| == |variances| > 0 && nObs > 0
    ensures r.thetas == thetas && r.variances == variances
    ensures Min(thetas) <= r.theta <= Max(thetas)
    ensures |thetas| == 1 ==> r.theta == thetas[0] && r.variance == variances[0]
    ensures (forall k :: 0 <= k < |variances| ==> variances[k] >= 0.0) ==> r.variance >= 0.0
  {
    var n := nObs as real;
    var theta := Median(thetas);
    var m := Median(Spread(thetas, variances, theta, n));
    if |thetas| == 1 then
      SpreadSingle(thetas, variances, n);
      FitResult(theta, m / n, thetas, variances)
    else if forall k :: 0 <= k < |variances| ==> variances[k] >= 0.0 then
      SpreadNonnegative(thetas, variances, theta, n);
      FitResult(theta, m / n, thetas, variances)
    else
      FitResult(theta, m / n, thetas, variances)
  }

  /** What `fit_pliv_partial_xz` returns for the per-repetition estimates `es`. */
  function Aggregate(es: seq<Result<Estimate>>, nObs: nat): (r: Result<FitResult>)
  {
    match FirstRaised(es)
    case Some(e) => Err(e)
    case None =>
      if |es| == 0 || nObs == 0 || !AllOk(es) then Err(NotFinite)
      else Ok(Combine(Thetas(es), Variances(es), nObs))
  }

  lemma AggregateRaised(es: seq<Result<Estimate>>, nObs: nat, i: nat)
    requires i < |es| && Raises(es[i]) && forall k :: 0 <= k < i ==> !Raises(es[k])
    ensures Aggregate(es, nObs) == Err(es[i].error)
  {
    FirstRaisedAt(es, i);
  }

  lemma AggregateNoneRaised(es: seq<Result<Estimate>>, nObs: nat)
    requires forall k :: 0 <= k < |es| ==> !Raises(es[k])
    ensures Aggregate(es, nObs) ==
      if |es| == 0 || nObs == 0 || !AllOk(es) then Err(NotFinite)
      else Ok(Combine(Thetas(es), Variances(es), nObs))
  {
    FirstRaisedNone(es);
  }

  /** None of the first `i` repetitions raised. */
  predicate NoneRaisedBefore(es: seq<Result<Estimate>>, i: nat)
  {
    forall k :: 0 <= k < i && k < |es| ==> !Raises(es[k])
  }

  /** All of the first `i` repetitions gave a finite estimate. */
  predicate AllOkBefore(es: seq<Result<Estimate>>, i: nat)
  {
    forall k :: 0 <= k < i && k < |es| ==> es[k].Ok?
  }

  lemma BeforeStep(es: seq<Result<Estimate>>, i: nat)
    requires i < |es|
    ensures NoneRaisedBefore(es, i + 1) == (NoneRaisedBefore(es, i) && !Raises(es[i]))
    ensures AllOkBefore(es, i + 1) == (AllOkBefore(es, i) && es[i].Ok?)
  {
  }

  /** The first `i` finite estimates of `es` are recorded in `thetas` and `variances`. */
  predicate Recorded(es: seq<Result<Estimate>>, thetas: seq<real>, variances: seq<real>, i: nat)
  {
    |thetas| == |variances| == |es| && i <= |es| &&
    forall k :: 0 <= k < i && es[k].Ok? ==> thetas[k] == es[k].value.theta && variances[k] == es[k].value.variance
  }

  lemma RecordedStep(es: seq<Result<Estimate>>, thetas: seq<real>, variances: seq<real>, i: nat)
    requires Recorded(es, thetas, variances, i) && i < |es|
    ensures es[i].Ok? ==> Recorded(es, thetas[i := es[i].value.theta], variances[i := es[i].value.variance], i + 1)
    ensures !es[i].Ok? ==> Recorded(es, thetas, variances, i + 1)
  {
  }

  lemma RecordedAll(es: seq<Result<Estimate>>, thetas: seq<real>, variances: seq<real>)
    requires Recorded(es, thetas, variances, |es|) && AllOk(es)
    ensures thetas == Thetas(es) && variances == Variances(es)
  {
  }

  /** One pass of the repetition loop: `pliv_partial_xz_dml2` on the `k`-th split and predictions. */
  method EstimateRepetition(y: seq<real>, d: seq<real>, preds: seq<Nuisance>, allSmpls: seq<seq<Fold>>,
                            score: string, nRep: nat, k: nat) returns (est: Result<Estimate>)
    requires RepsConform(y, d, preds, allSmpls, nRep) && k < nRep
    ensures est == RepEstimates(y, d, preds, allSmpls, score, nRep)[k]
  {
    est := Dml2(y, d, preds[k].lHat, preds[k].mHat, preds[k].mHatTilde, allSmpls[k], score);
  }

  /** `fit_pliv_partial_xz`, with the learners' predictions of every repetition given. */
  method Fit(y: seq<real>, d: seq<real>, preds: seq<Nuisance>, allSmpls: seq<seq<Fold>>, score: string, nRep: nat)
    returns (r: Result<FitResult>)
    requires RepsConform(y, d, preds, allSmpls, nRep)
    ensures r == Aggregate(RepEstimates(y, d, preds, allSmpls, score, nRep), |y|)
  {
    var nObs := |y|;
    ghost var es := RepEstimates(y, d, preds, allSmpls, score, nRep);
    var thetas := new real[nRep](_ => 0.0);
    var variances := new real[nRep](_ => 0.0);
    var finite := true;
    for iRep := 0 to nRep
      invariant NoneRaisedBefore(es, iRep)
      invariant finite == AllOkBefore(es, iRep)
      invariant Recorded(es, thetas[..], variances[..], iRep)
    {
      var est := EstimateRepetition(y, d, preds, allSmpls, score, nRep, iRep);
      RecordedStep(es, thetas[..], variances[..], iRep);
      BeforeStep(es, iRep);
      match est {
        case Ok(e) =>
          thetas[iRep], variances[iRep] := e.theta, e.variance;
        case Err(NotFinite) =>
          finite := false;
        case Err(e) =>
          AggregateRaised(es, nObs, iRep);
          return Err(e);
      }
    }
    assert NoneRaisedBefore(es, nRep) && finite == AllOk(es);
    AggregateNoneRaised(es, nObs);
    if nRep == 0 || nObs == 0 || !finite {
      return Err(NotFinite);
    }
    RecordedAll(es, thetas[..], variances[..]);
    r := Ok(Combine(thetas[..], variances[..], nObs));
  }

  /** With one repetition the fit reports that repetition's estimate and variance unchanged. */
  lemma SingleRepetition(es: seq<Result<Estimate>>, nObs: nat)
    requires |es| == 1 && es[0].Ok? && nObs > 0
    ensures Aggregate(es, nObs) == Ok(FitResult(es[0].value.theta, es[0].value.variance,
                                                [es[0].value.theta], [es[0].value.variance]))
  {
    AggregateNoneRaised(es, nObs);
    assert Thetas(es) == [es[0].value.theta];
    assert Variances(es) == [es[0].value.variance];
  }

  /**
   * A finite fit lies between the smallest and largest repetition estimate, keeps the
   * per-repetition estimates, and has a non-negative variance.
   */
  lemma FitBounds(es: seq<Result<Estimate>>, nObs: nat)
    requires forall k :: 0 <= k < |es| && es[k].Ok? ==> es[k].value.variance >= 0.0
    ensures var r := Aggregate(es, nObs);
      r.Ok? ==>
        && AllOk(es) && |es| > 0
        && r.value.thetas == Thetas(es) && r.value.variances == Variances(es)
        && Min(Thetas(es)) <= r.value.theta <= Max(Thetas(es))
        && r.value.variance >= 0.0
  {
  }
}

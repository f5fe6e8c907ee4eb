/**
 * The DML2 point estimate and variance of the partially linear IV model under the
 * "partialling out" score, computed from the cross-fitted residuals u, v and w.
 */
module Estimator {
  import opened Outcomes
  import opened Stats
  import opened CrossFitting

  /** The only score the reference estimator accepts. */
  const PartiallingOut: string := "partialling out"

  /** The partialling-out score of each observation at `theta`: `(u - w * theta) * v`. */
  function Score(u: seq<real>, v: seq<real>, w: seq<real>, theta: real): (r: seq<real>)
    requires |u| == |v| == |w|
    ensures |r| == |u|
  {
    seq(|u|, i requires 0 <= i < |u| => (u[i] - w[i] * theta) * v[i])
  }

  /** The score of one observation, as a linear combination of `v*u` and `v*w`; kept apart from `MeanScore`'s sequence facts. */
  lemma ScoreTerm(u: real, v: real, w: real, theta: real)
    ensures (u - w * theta) * v == 1.0 * (v * u) + (-theta) * (v * w)
  {
  }

  /** Dividing that combination of sums by `n`; kept apart from `MeanScore`'s sequence facts. */
  lemma DivideDifference(a: real, b: real, theta: real, n: real)
    requires n > 0.0
    ensures (1.0 * a + (-theta) * b) / n == a / n - theta * (b / n)
  {
  }

  /** The mean score is affine in theta: `mean(v*u) - theta * mean(v*w)`. */
  lemma MeanScore(u: seq<real>, v: seq<real>, w: seq<real>, theta: real)
    requires |u| == |v| == |w| > 0
    ensures Mean(Score(u, v, w, theta)) == Mean(Mul(v, u)) - theta * Mean(Mul(v, w))
  {
    var psi, vu, vw := Score(u, v, w, theta), Mul(v, u), Mul(v, w);
    forall i | 0 <= i < |psi| ensures psi[i] == 1.0 * vu[i] + (-theta) * vw[i] {
      ScoreTerm(u[i], v[i], w[i], theta);
    }
    SumLinear(psi, vu, vw, 1.0, -theta);
    DivideDifference(Sum(vu), Sum(vw), theta, |u| as real);
  }

  /**
   * `pliv_partial_xz_orth`: `mean(v*u) / mean(v*w)`, the root of the partialling-out
   * moment equation. numpy yields nan or inf for empty residuals or a zero denominator.
   */
  function Orth(u: seq<real>, v: seq<real>, w: seq<real>, score: string): (r: Result<real>)
    requires |u| == |v| == |w|
    ensures score != PartiallingOut ==> r == Err(ScoreNotSupported(score))
    ensures r.Ok? <==> score == PartiallingOut && |u| > 0 && Mean(Mul(v, w)) != 0.0
    ensures r.Ok? ==> Mean(Score(u, v, w, r.value)) == 0.0
  {
    if score != PartiallingOut then Err(ScoreNotSupported(score))
    else if |u| == 0 || Mean(Mul(v, w)) == 0.0 then Err(NotFinite)
    else
      var theta := Mean(Mul(v, u)) / Mean(Mul(v, w));
      MeanScore(u, v, w, theta);
      Ok(theta)
  }

  /** The estimate is the one and only root of the moment equation. */
  lemma MomentRoot(u: seq<real>, v: seq<real>, w: seq<real>, theta: real)
    requires |u| == |v| == |w| > 0 && Mean(Mul(v, w)) != 0.0
    ensures Mean(Score(u, v, w, theta)) == 0.0 <==> Orth(u, v, w, PartiallingOut) == Ok(theta)
  {
    MeanScore(u, v, w, theta);
    var a, b := Mean(Mul(v, u)), Mean(Mul(v, w));
    if a - theta * b == 0.0 {
      assert theta == a / b;
    }
  }

  /**
   * `var_pliv_partial_xz`: `1/n_obs * 1/mean(v*w)^2 * mean(((u - w*theta)*v)^2)`.
   * `1 / n_obs` raises for `n_obs == 0`; numpy yields nan or inf for empty residuals
   * or a zero `mean(v*w)`.
   */
  function Variance(theta: real, u: seq<real>, v: seq<real>, w: seq<real>, score: string, nObs: nat): (r: Result<real>)
    requires |u| == |v| == |w|
    ensures score != PartiallingOut ==> r == Err(ScoreNotSupported(score))
    ensures score == PartiallingOut && nObs == 0 ==> r == Err(DivisionByZero)
    ensures r.Ok? <==> score == PartiallingOut && nObs > 0 && |u| > 0 && Mean(Mul(v, w)) != 0.0
    ensures r.Ok? ==> r.value >= 0.0
  {
    if score != PartiallingOut then Err(ScoreNotSupported(score))
    else if nObs == 0 then Err(DivisionByZero)
    else if |u| == 0 || Mean(Mul(v, w)) == 0.0 then Err(NotFinite)
    else
      var m := Mean(Mul(v, w));
      var s := Mean(Squares(Score(u, v, w, theta)));
      SumNonnegative(Squares(Score(u, v, w, theta)));
      assert s >= 0.0;
      assert 1.0 / (nObs as real) * 1.0 / (m * m) > 0.0;
      Ok(1.0 / (nObs as real) * 1.0 / (m * m) * s)
  }

  /** The per-repetition estimate; its standard error is `sqrt(variance)`. */
  datatype Estimate = Estimate(theta: real, variance: real)

  /**
   * Estimate and variance from the NaN-initialised residual arrays, as numpy evaluates
   * `pliv_partial_xz_orth` then `var_pliv_partial_xz`: the score assertion comes first, then
   * `1 / n_obs`; any NaN entry, an empty sample or a zero `mean(v*w)` gives a non-finite result.
   */
  function EstimateOf(res: Residuals, score: string, nObs: nat): (r: Result<Estimate>)
    requires |res.u| == |res.v| == |res.w|
    ensures score != PartiallingOut ==> r == Err(ScoreNotSupported(score))
    ensures score == PartiallingOut && nObs == 0 ==> r == Err(DivisionByZero)
    ensures r.Ok? <==>
      && score == PartiallingOut && nObs > 0 && |res.u| > 0
      && Filled(res.u) && Filled(res.v) && Filled(res.w)
      && Mean(Mul(Values(res.v), Values(res.w))) != 0.0
    ensures r.Ok? ==>
      && r.value.variance >= 0.0
      && Mean(Score(Values(res.u), Values(res.v), Values(res.w), r.value.theta)) == 0.0
  {
    if score != PartiallingOut then Err(ScoreNotSupported(score))
    else if nObs == 0 then Err(DivisionByZero)
    else if !(Filled(res.u) && Filled(res.v) && Filled(res.w)) then Err(NotFinite)
    else
      var u, v, w := Values(res.u), Values(res.v), Values(res.w);
      match Orth(u, v, w, score)
      case Err(e) => Err(e)
      case Ok(theta) =>
        match Variance(theta, u, v, w, score, nObs)
        case Err(e) => Err(e)
        case Ok(variance) => Ok(Estimate(theta, variance))
  }

  /** `pliv_partial_xz_dml2`: residuals, then the estimate and its variance. */
  method Dml2(y: seq<real>, d: seq<real>, lHat: seq<seq<real>>, mHat: seq<seq<real>>,
              mHatTilde: seq<seq<real>>, smpls: seq<Fold>, score: string) returns (r: Result<Estimate>)
    requires Conforms(y, d, lHat, mHat, mHatTilde, smpls)
    ensures r == EstimateOf(ResidualsOf(y, d, lHat, mHat, mHatTilde, smpls), score, |y|)
  {
    var uHat, vHat, wHat := ComputeResiduals(y, d, lHat, mHat, mHatTilde, smpls);
    r := EstimateOf(Residuals(uHat[..], vHat[..], wHat[..]), score, |y|);
  }

  /**
   * On a split whose test sets cover all observations, the estimate is finite exactly
   * when the sample is non-empty and `mean(v*w) != 0`; its variance is then non-negative,
   * so the `sqrt` taken of it is defined.
   */
  lemma EstimateDefined(y: seq<real>, d: seq<real>, lHat: seq<seq<real>>, mHat: seq<seq<real>>,
                        mHatTilde: seq<seq<real>>, smpls: seq<Fold>)
    requires Conforms(y, d, lHat, mHat, mHatTilde, smpls) && Covers(TestSets(smpls), |y|)
    ensures var res := ResidualsOf(y, d, lHat, mHat, mHatTilde, smpls);
      var r := EstimateOf(res, PartiallingOut, |y|);
      && Filled(res.u) && Filled(res.v) && Filled(res.w)
      && (r.Ok? <==> |y| > 0 && Mean(Mul(Values(res.v), Values(res.w))) != 0.0)
      && (r.Ok? ==> r.value.variance >= 0.0)
  {
    ResidualsFilled(y, d, lHat, mHat, mHatTilde, smpls);
  }
}

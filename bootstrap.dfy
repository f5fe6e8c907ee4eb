/**
 * Inputs of the multiplier bootstrap: the score `psi` and Jacobian `J` of every repetition,
 * rebuilt from the same residuals and estimates as the fit, handed with the multiplier weights
 * to `boot_manual` and stacked in repetition order.
 */
module Bootstrap {
  import opened Outcomes
  import opened Stats
  import opened CrossFitting
  import opened Estimator
  import opened Aggregation

  /**
   * `boot_manual(psi, J, smpls, se, weights, n_rep_boot)`, which is not part of this model:
   * any function from those inputs to one repetition's block of bootstrap statistics.
   */
  type BootStatistics<T> = (seq<Option<real>>, Option<real>, seq<Fold>, real, seq<seq<real>>, nat) -> seq<T>

  /** `psi = (u_hat - w_hat * theta) * v_hat`, elementwise; NaN where a residual is NaN. */
  function Psi(res: Residuals, theta: real): (r: seq<Option<real>>)
    requires |res.u| == |res.v| == |res.w|
    ensures |r| == |res.u|
  {
    seq(|res.u|, i requires 0 <= i < |res.u| =>
      if res.u[i].Some? && res.v[i].Some? && res.w[i].Some?
      then Some((res.u[i].value - res.w[i].value * theta) * res.v[i].value)
      else None)
  }

  /** `J = mean(-(v_hat * w_hat))`; NaN for an empty sample or a NaN residual. */
  function Jacobian(res: Residuals): (r: Option<real>)
    requires |res.v| == |res.w|
  {
    if |res.v| == 0 || !Filled(res.v) || !Filled(res.w) then None
    else Some(Mean(seq(|res.v|, i requires 0 <= i < |res.v| => -(res.v[i].value * res.w[i].value))))
  }

  /** On filled residuals the bootstrap score is the estimator's moment function. */
  lemma PsiIsScore(res: Residuals, theta: real)
    requires |res.u| == |res.v| == |res.w|
    requires Filled(res.u) && Filled(res.v) && Filled(res.w)
    ensures Filled(Psi(res, theta))
    ensures Values(Psi(res, theta)) == Score(Values(res.u), Values(res.v), Values(res.w), theta)
  {
    var psi, sc := Psi(res, theta), Score(Values(res.u), Values(res.v), Values(res.w), theta);
    assert Filled(psi);
    assert forall i :: 0 <= i < |psi| ==> Values(psi)[i] == sc[i];
  }

  /** On filled, non-empty residuals `J` is the negated denominator `-mean(v*w)` of the estimate. */
  lemma JacobianIsNegatedDenominator(res: Residuals)
    requires |res.v| == |res.w| > 0
    requires Filled(res.v) && Filled(res.w)
    ensures Jacobian(res) == Some(-Mean(Mul(Values(res.v), Values(res.w))))
  {
    var v, w := Values(res.v), Values(res.w);
    var neg := seq(|res.v|, i requires 0 <= i < |res.v| => -(res.v[i].value * res.w[i].value));
    var vw := Mul(v, w);
    forall i | 0 <= i < |neg| ensures neg[i] == -vw[i] {
      assert res.v[i] == Some(v[i]) && res.w[i] == Some(w[i]);
    }
    MeanNegate(neg, vw);
    assert Jacobian(res) == Some(Mean(neg));
  }

  /** The variance is the sandwich `mean(psi^2) / (n_obs * J^2)` of the bootstrap's psi and J. */
  lemma VarianceIsSandwich(res: Residuals, theta: real, nObs: nat)
    requires |res.u| == |res.v| == |res.w|
    requires Filled(res.u) && Filled(res.v) && Filled(res.w)
    requires Variance(theta, Values(res.u), Values(res.v), Values(res.w), PartiallingOut, nObs).Ok?
    ensures Filled(Psi(res, theta)) && Jacobian(res).Some? && nObs > 0 && Jacobian(res).value != 0.0
    ensures Variance(theta, Values(res.u), Values(res.v), Values(res.w), PartiallingOut, nObs).value ==
      Mean(Squares(Values(Psi(res, theta)))) / ((nObs as real) * (Jacobian(res).value * Jacobian(res).value))
  {
    PsiIsScore(res, theta);
    JacobianIsNegatedDenominator(res);
    var u, v, w := Values(res.u), Values(res.v), Values(res.w);
    var s, m, n := Mean(Squares(Score(u, v, w, theta))), Mean(Mul(v, w)), nObs as real;
    assert (-m) * (-m) == m * m;
    assert n * (m * m) != 0.0;
    assert 1.0 / n * 1.0 / (m * m) * s == s / (n * ((-m) * (-m)));
  }

  lemma AggregateOkParts(es: seq<Result<Estimate>>, nObs: nat, fit: FitResult, k: nat)
    requires Aggregate(es, nObs) == Ok(fit) && k < |es|
    ensures nObs > 0 && es[k].Ok?
    ensures k < |fit.thetas| && fit.thetas[k] == es[k].value.theta
    ensures k < |fit.variances| && fit.variances[k] == es[k].value.variance
  {
    assert FirstRaised(es) == None && AllOk(es);
  }

  /** A finite estimate comes from filled residuals, `pliv_partial_xz_orth` and `var_pliv_partial_xz`. */
  lemma EstimateOfOk(res: Residuals, score: string, nObs: nat, e: Estimate)
    requires |res.u| == |res.v| == |res.w|
    requires EstimateOf(res, score, nObs) == Ok(e)
    ensures score == PartiallingOut && Filled(res.u) && Filled(res.v) && Filled(res.w)
    ensures Orth(Values(res.u), Values(res.v), Values(res.w), score) == Ok(e.theta)
    ensures Variance(e.theta, Values(res.u), Values(res.v), Values(res.w), score, nObs) == Ok(e.variance)
  {
  }

  /**
   * The bootstrap's psi and J at `theta` match the estimate `(theta, variance)`: psi is free
   * of NaN with mean zero, J is finite and non-zero, and `variance == mean(psi^2) / (n_obs * J^2)`.
   */
  predicate CenteredSandwich(res: Residuals, theta: real, variance: real, nObs: nat)
    requires |res.u| == |res.v| == |res.w|
  {
    var psi := Psi(res, theta);
    && |psi| > 0 && nObs > 0 && Filled(psi) && Mean(Values(psi)) == 0.0
    && Jacobian(res).Some? && Jacobian(res).value != 0.0
    && variance == Mean(Squares(Values(psi))) / ((nObs as real) * (Jacobian(res).value * Jacobian(res).value))
  }

  /** Every finite estimate is centred by, and has the sandwich variance of, the bootstrap's psi and J. */
  lemma EstimateIsCenteredSandwich(res: Residuals, score: string, nObs: nat, e: Estimate)
    requires |res.u| == |res.v| == |res.w|
    requires EstimateOf(res, score, nObs) == Ok(e)
    ensures CenteredSandwich(res, e.theta, e.variance, nObs)
  {
    EstimateOfOk(res, score, nObs, e);
    PsiIsScore(res, e.theta);
    VarianceIsSandwich(res, e.theta, nObs);
  }

  /**
   * The fit and the bootstrap agree: at the fitted `thetas[k]`, repetition `k`'s psi has mean
   * zero, and the fitted variance of that repetition is `mean(psi^2) / (n_obs * J^2)`.
   */
  lemma FitScoresCentered(y: seq<real>, d: seq<real>, preds: seq<Nuisance>, allSmpls: seq<seq<Fold>>,
                          score: string, nRep: nat, fit: FitResult, k: nat)
    requires RepsConform(y, d, preds, allSmpls, nRep) && k < nRep
    requires Aggregate(RepEstimates(y, d, preds, allSmpls, score, nRep), |y|) == Ok(fit)
    ensures k < |fit.thetas| && k < |fit.variances|
    ensures CenteredSandwich(RepResiduals(y, d, preds, allSmpls, nRep, k), fit.thetas[k], fit.variances[k], |y|)
  {
    var es := RepEstimates(y, d, preds, allSmpls, score, nRep);
    AggregateOkParts(es, |y|, fit, k);
    EstimateIsCenteredSandwich(RepResiduals(y, d, preds, allSmpls, nRep, k), score, |y|, es[k].value);
  }

  /** One repetition's block: `boot_manual` applied to the psi and J of residuals `res`. */
  function BootBlock<T>(res: Residuals, theta: real, smpls: seq<Fold>, se: real, weights: seq<seq<real>>,
                        nRepBoot: nat, bootManual: BootStatistics<T>): (r: seq<T>)
    requires |res.u| == |res.v| == |res.w|
  {
    bootManual(Psi(res, theta), Jacobian(res), smpls, se, weights, nRepBoot)
  }

  /** `boot_pliv_partial_xz_single_split`, with the weights drawn for the repetition given. */
  method SingleSplit<T>(theta: real, y: seq<real>, d: seq<real>, lHat: seq<seq<real>>, mHat: seq<seq<real>>,
                        mHatTilde: seq<seq<real>>, smpls: seq<Fold>, score: string, se: real,
                        weights: seq<seq<real>>, nRepBoot: nat, bootManual: BootStatistics<T>)
    returns (r: Result<seq<T>>)
    requires Conforms(y, d, lHat, mHat, mHatTilde, smpls)
    ensures r == if score != PartiallingOut then Err(ScoreNotSupported(score))
                 else Ok(BootBlock(ResidualsOf(y, d, lHat, mHat, mHatTilde, smpls), theta, smpls, se, weights, nRepBoot, bootManual))
  {
    if score != PartiallingOut {
      return Err(ScoreNotSupported(score));
    }
    var uHat, vHat, wHat := ComputeResiduals(y, d, lHat, mHat, mHatTilde, smpls);
    var res := Residuals(uHat[..], vHat[..], wHat[..]);
    var j := Jacobian(res);
    var psi := Psi(res, theta);
    r := Ok(bootManual(psi, j, smpls, se, weights, nRepBoot));
  }

  /** `np.hstack` of one-dimensional blocks: their concatenation in order. */
  function Concat<T>(blocks: seq<seq<T>>): (r: seq<T>)
  {
    if |blocks| == 0 then [] else Concat(blocks[..|blocks| - 1]) + blocks[|blocks| - 1]
  }

  lemma {:induction false} ConcatPrefix<T>(blocks: seq<seq<T>>, i: nat)
    requires i <= |blocks|
    ensures Concat(blocks[..i]) <= Concat(blocks)
    decreases |blocks|
  {
    if i < |blocks| {
      var n := |blocks| - 1;
      assert blocks[..n][..i] == blocks[..i];
      ConcatPrefix(blocks[..n], i);
    } else {
      assert blocks[..i] == blocks;
    }
  }

  /** Block `k` sits in the stacked output right after blocks `0 .. k-1`. */
  lemma ConcatBlock<T>(blocks: seq<seq<T>>, k: nat)
    requires k < |blocks|
    ensures var offset := |Concat(blocks[..k])|;
      offset + |blocks[k]| <= |Concat(blocks)| && Concat(blocks)[offset .. offset + |blocks[k]|] == blocks[k]
  {
    assert blocks[..k + 1][..k] == blocks[..k];
    assert Concat(blocks[..k + 1]) == Concat(blocks[..k]) + blocks[k];
    ConcatPrefix(blocks, k + 1);
  }

  /** The block of every repetition, in repetition order. */
  function Blocks<T>(y: seq<real>, d: seq<real>, thetas: seq<real>, ses: seq<real>, preds: seq<Nuisance>,
                     allSmpls: seq<seq<Fold>>, weights: seq<seq<seq<real>>>, nRepBoot: nat, nRep: nat,
                     bootManual: BootStatistics<T>): (r: seq<seq<T>>)
    requires RepsConform(y, d, preds, allSmpls, nRep) && |thetas| >= nRep && |ses| >= nRep && |weights| >= nRep
    ensures |r| == nRep
  {
    seq(nRep, k requires 0 <= k < nRep =>
      BootBlock(RepResiduals(y, d, preds, allSmpls, nRep, k), thetas[k], allSmpls[k], ses[k], weights[k], nRepBoot, bootManual))
  }

  /**
   * `boot_pliv_partial_xz`, with the weights of every repetition given: the first repetition
   * raises for an unsupported score, and stacking an empty list raises.
   */
  method Boot<T>(y: seq<real>, d: seq<real>, thetas: seq<real>, ses: seq<real>, preds: seq<Nuisance>,
                 allSmpls: seq<seq<Fold>>, score: string, weights: seq<seq<seq<real>>>, nRepBoot: nat, nRep: nat,
                 bootManual: BootStatistics<T>)
    returns (r: Result<seq<T>>)
    requires RepsConform(y, d, preds, allSmpls, nRep) && |thetas| >= nRep && |ses| >= nRep && |weights| >= nRep
    ensures r == if nRep == 0 then Err(NothingToStack)
                 else if score != PartiallingOut then Err(ScoreNotSupported(score))
                 else Ok(Concat(Blocks(y, d, thetas, ses, preds, allSmpls, weights, nRepBoot, nRep, bootManual)))
  {
    ghost var bs := Blocks(y, d, thetas, ses, preds, allSmpls, weights, nRepBoot, nRep, bootManual);
    var allBlocks: seq<seq<T>> := [];
    for iRep := 0 to nRep
      invariant allBlocks == bs[..iRep]
      invariant iRep > 0 ==> score == PartiallingOut
    {
      var block := SingleSplit(thetas[iRep], y, d, preds[iRep].lHat, preds[iRep].mHat, preds[iRep].mHatTilde,
                               allSmpls[iRep], score, ses[iRep], weights[iRep], nRepBoot, bootManual);
      if block.Err? {
        return Err(block.error);
      }
      assert bs[..iRep + 1] == bs[..iRep] + [bs[iRep]];
      allBlocks := allBlocks + [block.value];
    }
    if |allBlocks| == 0 {
      return Err(NothingToStack);
    }
    assert bs[..nRep] == bs;
    r := Ok(Concat(allBlocks));
  }

  /**
   * The stacked output holds repetition `k`'s block, built from that repetition's residuals,
   * `thetas[k]` and `ses[k]`, right after the blocks of repetitions `0 .. k-1`.
   */
  lemma BootStacksInOrder<T>(y: seq<real>, d: seq<real>, thetas: seq<real>, ses: seq<real>, preds: seq<Nuisance>,
                             allSmpls: seq<seq<Fold>>, weights: seq<seq<seq<real>>>, nRepBoot: nat, nRep: nat,
                             bootManual: BootStatistics<T>, k: nat)
    requires RepsConform(y, d, preds, allSmpls, nRep) && |thetas| >= nRep && |ses| >= nRep && |weights| >= nRep
    requires k < nRep
    ensures var bs := Blocks(y, d, thetas, ses, preds, allSmpls, weights, nRepBoot, nRep, bootManual);
      var out := Concat(bs);
      var offset := |Concat(bs[..k])|;
      var block := bootManual(Psi(RepResiduals(y, d, preds, allSmpls, nRep, k), thetas[k]),
                              Jacobian(RepResiduals(y, d, preds, allSmpls, nRep, k)),
                              allSmpls[k], ses[k], weights[k], nRepBoot);
      offset + |block| <= |out| && out[offset .. offset + |block|] == block
  {
    var bs := Blocks(y, d, thetas, ses, preds, allSmpls, weights, nRepBoot, nRep, bootManual);
    ConcatBlock(bs, k);
  }
}

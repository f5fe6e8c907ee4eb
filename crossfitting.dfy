/**
 * Cross-fitted residuals of the partially linear IV model with partial XZ nuisances.
 * The out-of-fold predictions of each fold are scattered into full-length arrays
 * that start out as NaN (`None`), at the fold's test indices.
 */
module CrossFitting {
  import opened Outcomes

  /** One fold of a sample split: the training indices and the held-out test indices. */
  datatype Fold = Fold(train: seq<nat>, test: seq<nat>)

  /** The test index sets of a split, fold by fold. */
  function TestSets(smpls: seq<Fold>): (r: seq<seq<nat>>)
    ensures |r| == |smpls|
    ensures forall k :: 0 <= k < |smpls| ==> r[k] == smpls[k].test
  {
    seq(|smpls|, k requires 0 <= k < |smpls| => smpls[k].test)
  }

  /** A full-length array of NaN, `np.full_like(y, np.nan)`. */
  function Unfilled(n: nat): (r: seq<Option<real>>)
    ensures |r| == n
    ensures forall i :: 0 <= i < n ==> r[i] == None
  {
    seq(n, i => None)
  }

  predicate Filled(s: seq<Option<real>>)
  {
    forall i :: 0 <= i < |s| ==> s[i].Some?
  }

  /** The numbers held by an array without NaN. */
  function Values(s: seq<Option<real>>): (r: seq<real>)
    requires Filled(s)
    ensures |r| == |s|
    ensures forall i :: 0 <= i < |s| ==> s[i] == Some(r[i])
  {
    seq(|s|, i requires 0 <= i < |s| => s[i].value)
  }

  /** Index `i` is held out by some fold. */
  predicate InSomeTest(tests: seq<seq<nat>>, i: nat)
  {
    exists k, j :: 0 <= k < |tests| && 0 <= j < |tests[k]| && tests[k][j] == i
  }

  /** Every index below `n` is held out by some fold. */
  predicate Covers(tests: seq<seq<nat>>, n: nat)
  {
    forall i :: 0 <= i < n ==> InSomeTest(tests, i)
  }

  /** No index is held out twice, neither within a fold nor across folds. */
  predicate Disjoint(tests: seq<seq<nat>>)
  {
    forall k1, j1, k2, j2 ::
      (0 <= k1 < |tests| && 0 <= j1 < |tests[k1]| && 0 <= k2 < |tests| && 0 <= j2 < |tests[k2]| &&
       tests[k1][j1] == tests[k2][j2]) ==> k1 == k2 && j1 == j2
  }

  /** The test sets partition `0 .. n-1`, as a sample splitter produces them. */
  predicate IsPartition(tests: seq<seq<nat>>, n: nat)
  {
    Disjoint(tests) && Covers(tests, n) &&
    forall k, j :: 0 <= k < |tests| && 0 <= j < |tests[k]| ==> tests[k][j] < n
  }

  predicate ScatterFits(n: nat, idx: seq<nat>, vals: seq<real>)
  {
    |vals| == |idx| && forall j :: 0 <= j < |idx| ==> idx[j] < n
  }

  predicate AssembleFits(n: nat, tests: seq<seq<nat>>, vals: seq<seq<real>>)
  {
    |vals| == |tests| && forall k :: 0 <= k < |tests| ==> ScatterFits(n, tests[k], vals[k])
  }

  /**
   * `a[idx] = vals`: `a` after writing `vals[j]` at `idx[j]` for j = 0, 1, ... in turn.
   * numpy does not say which value a repeated index keeps; this takes the last.
   */
  function Scatter(a: seq<Option<real>>, idx: seq<nat>, vals: seq<real>): (r: seq<Option<real>>)
    requires ScatterFits(|a|, idx, vals)
    ensures |r| == |a|
    decreases |idx|
  {
    if |idx| == 0 then a
    else
      var n := |idx| - 1;
      Scatter(a, idx[..n], vals[..n])[idx[n] := Some(vals[n])]
  }

  /** `a` after scattering the values of every fold, fold by fold in split order. */
  function Assemble(a: seq<Option<real>>, tests: seq<seq<nat>>, vals: seq<seq<real>>): (r: seq<Option<real>>)
    requires AssembleFits(|a|, tests, vals)
    ensures |r| == |a|
    decreases |tests|
  {
    if |tests| == 0 then a
    else
      var n := |tests| - 1;
      Scatter(Assemble(a, tests[..n], vals[..n]), tests[n], vals[n])
  }

  /** A scatter leaves every position it does not write as it was. */
  lemma {:induction false} ScatterUntouched(a: seq<Option<real>>, idx: seq<nat>, vals: seq<real>, i: nat)
    requires ScatterFits(|a|, idx, vals) && i < |a|
    requires forall j :: 0 <= j < |idx| ==> idx[j] != i
    ensures Scatter(a, idx, vals)[i] == a[i]
    decreases |idx|
  {
    if |idx| > 0 {
      var n := |idx| - 1;
      ScatterUntouched(a, idx[..n], vals[..n], i);
    }
  }

  /** A position holds the value of the last write to it. */
  lemma {:induction false} ScatterLastWrite(a: seq<Option<real>>, idx: seq<nat>, vals: seq<real>, j: nat)
    requires ScatterFits(|a|, idx, vals) && j < |idx|
    requires forall j' :: j < j' < |idx| ==> idx[j'] != idx[j]
    ensures Scatter(a, idx, vals)[idx[j]] == Some(vals[j])
    decreases |idx|
  {
    var n := |idx| - 1;
    if j < n {
      ScatterLastWrite(a, idx[..n], vals[..n], j);
    }
  }

  /** A scatter fills every position it writes and keeps every filled position filled. */
  lemma {:induction false} ScatterFills(a: seq<Option<real>>, idx: seq<nat>, vals: seq<real>, i: nat)
    requires ScatterFits(|a|, idx, vals) && i < |a|
    requires a[i].Some? || i in idx
    ensures Scatter(a, idx, vals)[i].Some?
    decreases |idx|
  {
    if |idx| > 0 {
      var n := |idx| - 1;
      if i != idx[n] {
        assert idx == idx[..n] + [idx[n]];
        ScatterFills(a, idx[..n], vals[..n], i);
      }
    }
  }

  /** Assembling leaves every index that no fold holds out as it was. */
  lemma {:induction false} AssembleUntouched(a: seq<Option<real>>, tests: seq<seq<nat>>, vals: seq<seq<real>>, i: nat)
    requires AssembleFits(|a|, tests, vals) && i < |a|
    requires !InSomeTest(tests, i)
    ensures Assemble(a, tests, vals)[i] == a[i]
    decreases |tests|
  {
    if |tests| > 0 {
      var n := |tests| - 1;
      assert !InSomeTest(tests[..n], i) by {
        forall k, j | 0 <= k < n && 0 <= j < |tests[..n][k]| ensures tests[..n][k][j] != i {
          assert tests[..n][k] == tests[k];
        }
      }
      AssembleUntouched(a, tests[..n], vals[..n], i);
      assert forall j :: 0 <= j < |tests[n]| ==> tests[n][j] != i;
      ScatterUntouched(Assemble(a, tests[..n], vals[..n]), tests[n], vals[n], i);
    }
  }

  /** With disjoint test sets, a held-out index holds the value its fold computed for it. */
  lemma {:induction false} AssembleAt(a: seq<Option<real>>, tests: seq<seq<nat>>, vals: seq<seq<real>>, k: nat, j: nat)
    requires AssembleFits(|a|, tests, vals) && Disjoint(tests)
    requires k < |tests| && j < |tests[k]|
    ensures Assemble(a, tests, vals)[tests[k][j]] == Some(vals[k][j])
    decreases |tests|
  {
    var n := |tests| - 1;
    var prev := Assemble(a, tests[..n], vals[..n]);
    if k == n {
      ScatterLastWrite(prev, tests[n], vals[n], j);
    } else {
      assert Disjoint(tests[..n]) by {
        forall k1, j1, k2, j2 |
          0 <= k1 < n && 0 <= j1 < |tests[..n][k1]| && 0 <= k2 < n && 0 <= j2 < |tests[..n][k2]| &&
          tests[..n][k1][j1] == tests[..n][k2][j2]
          ensures k1 == k2 && j1 == j2
        {
          assert tests[k1][j1] == tests[k2][j2];
        }
      }
      AssembleAt(a, tests[..n], vals[..n], k, j);
      assert tests[..n][k][j] == tests[k][j];
      assert forall j' :: 0 <= j' < |tests[n]| ==> tests[n][j'] != tests[k][j];
      ScatterUntouched(prev, tests[n], vals[n], tests[k][j]);
    }
  }

  /** Every index some fold holds out is filled after assembling. */
  lemma {:induction false} AssembleFilled(a: seq<Option<real>>, tests: seq<seq<nat>>, vals: seq<seq<real>>, i: nat)
    requires AssembleFits(|a|, tests, vals) && i < |a|
    requires InSomeTest(tests, i)
    ensures Assemble(a, tests, vals)[i].Some?
    decreases |tests|
  {
    var n := |tests| - 1;
    var prev := Assemble(a, tests[..n], vals[..n]);
    var k, j :| 0 <= k < |tests| && 0 <= j < |tests[k]| && tests[k][j] == i;
    if k == n {
      assert i in tests[n];
    } else {
      assert tests[..n][k][j] == i;
      AssembleFilled(a, tests[..n], vals[..n], i);
    }
    ScatterFills(prev, tests[n], vals[n], i);
  }

  /**
   * What the source needs of its inputs: y and d have one entry per observation, every test
   * index is an observation, and each fold has one prediction per test index.
   */
  predicate Conforms(y: seq<real>, d: seq<real>, lHat: seq<seq<real>>, mHat: seq<seq<real>>,
                     mHatTilde: seq<seq<real>>, smpls: seq<Fold>)
  {
    |d| == |y| && FoldsFit(y, lHat, smpls) && FoldsFit(y, mHat, smpls) && FoldsFit(d, mHatTilde, smpls)
  }

  /** Each fold `k` has one prediction in `preds[k]` per test index, and every test index is an entry of `obs`. */
  predicate FoldsFit(obs: seq<real>, preds: seq<seq<real>>, smpls: seq<Fold>)
  {
    |preds| >= |smpls| &&
    forall k :: 0 <= k < |smpls| ==>
      |preds[k]| == |smpls[k].test| && forall j :: 0 <= j < |smpls[k].test| ==> smpls[k].test[j] < |obs|
  }

  /**
   * Values of an observation minus its out-of-fold prediction, at fold `k`'s test indices:
   * `y[test_index] - l_hat[k]` for `u_hat` and `d[test_index] - m_hat_tilde[k]` for `w_hat`.
   */
  function ObservedFold(obs: seq<real>, preds: seq<seq<real>>, smpls: seq<Fold>, k: nat): (r: seq<real>)
    requires FoldsFit(obs, preds, smpls) && k < |smpls|
    ensures ScatterFits(|obs|, smpls[k].test, r)
  {
    seq(|smpls[k].test|, j requires 0 <= j < |smpls[k].test| => obs[smpls[k].test[j]] - preds[k][j])
  }

  /** `ObservedFold` for every fold of the split, in fold order. */
  function ObservedFolds(obs: seq<real>, preds: seq<seq<real>>, smpls: seq<Fold>): (r: seq<seq<real>>)
    requires FoldsFit(obs, preds, smpls)
    ensures AssembleFits(|obs|, TestSets(smpls), r)
  {
    seq(|smpls|, k requires 0 <= k < |smpls| => ObservedFold(obs, preds, smpls, k))
  }

  /** Values written into `v_hat` by fold `k`: `m_hat[k] - m_hat_tilde[k]`. */
  function VFold(n: nat, mHat: seq<seq<real>>, mHatTilde: seq<seq<real>>, smpls: seq<Fold>, k: nat): (r: seq<real>)
    requires k < |smpls| && k < |mHat| && k < |mHatTilde|
    requires |mHat[k]| == |smpls[k].test| && |mHatTilde[k]| == |smpls[k].test|
    requires forall j :: 0 <= j < |smpls[k].test| ==> smpls[k].test[j] < n
    ensures ScatterFits(n, smpls[k].test, r)
  {
    seq(|smpls[k].test|, j requires 0 <= j < |smpls[k].test| => mHat[k][j] - mHatTilde[k][j])
  }

  /** `VFold` for every fold of the split, in fold order. */
  function VFolds(y: seq<real>, d: seq<real>, lHat: seq<seq<real>>, mHat: seq<seq<real>>,
                  mHatTilde: seq<seq<real>>, smpls: seq<Fold>): (r: seq<seq<real>>)
    requires Conforms(y, d, lHat, mHat, mHatTilde, smpls)
    ensures AssembleFits(|y|, TestSets(smpls), r)
  {
    seq(|smpls|, k requires 0 <= k < |smpls| => VFold(|y|, mHat, mHatTilde, smpls, k))
  }

  /** The three residual arrays the source returns: `u_hat`, `v_hat`, `w_hat`. */
  datatype Residuals = Residuals(u: seq<Option<real>>, v: seq<Option<real>>, w: seq<Option<real>>)

  function ResidualsOf(y: seq<real>, d: seq<real>, lHat: seq<seq<real>>, mHat: seq<seq<real>>,
                       mHatTilde: seq<seq<real>>, smpls: seq<Fold>): (r: Residuals)
    requires Conforms(y, d, lHat, mHat, mHatTilde, smpls)
    ensures |r.u| == |r.v| == |r.w| == |y|
  {
    var tests := TestSets(smpls);
    Residuals(Assemble(Unfilled(|y|), tests, ObservedFolds(y, lHat, smpls)),
              Assemble(Unfilled(|y|), tests, VFolds(y, d, lHat, mHat, mHatTilde, smpls)),
              Assemble(Unfilled(|y|), tests, ObservedFolds(d, mHatTilde, smpls)))
  }

  lemma AssembleStep(a: seq<Option<real>>, tests: seq<seq<nat>>, vals: seq<seq<real>>, k: nat)
    requires AssembleFits(|a|, tests, vals) && k < |tests|
    ensures AssembleFits(|a|, tests[..k], vals[..k]) && AssembleFits(|a|, tests[..k + 1], vals[..k + 1])
    ensures Assemble(a, tests[..k + 1], vals[..k + 1]) == Scatter(Assemble(a, tests[..k], vals[..k]), tests[k], vals[k])
  {
    assert tests[..k + 1][..k] == tests[..k];
    assert vals[..k + 1][..k] == vals[..k];
  }

  /** `a[idx] = vals`, one vectorised numpy assignment, written out element by element. */
  method ScatterInto(a: array<Option<real>>, idx: seq<nat>, vals: seq<real>)
    requires ScatterFits(a.Length, idx, vals)
    modifies a
    ensures a[..] == Scatter(old(a[..]), idx, vals)
  {
    ghost var a0 := a[..];
    for j := 0 to |idx|
      invariant a[..] == Scatter(a0, idx[..j], vals[..j])
    {
      assert idx[..j + 1][..j] == idx[..j];
      assert vals[..j + 1][..j] == vals[..j];
      a[idx[j]] := Some(vals[j]);
    }
    assert idx[..|idx|] == idx && vals[..|idx|] == vals;
  }

  /** Scatter the values of fold `k` into `a`, which holds the folds before it. */
  method ScatterFold(a: array<Option<real>>, ghost base: seq<Option<real>>, ghost tests: seq<seq<nat>>,
                     ghost vals: seq<seq<real>>, k: nat, test: seq<nat>, foldVals: seq<real>)
    requires |base| == a.Length && AssembleFits(a.Length, tests, vals) && k < |tests|
    requires test == tests[k] && foldVals == vals[k]
    requires a[..] == Assemble(base, tests[..k], vals[..k])
    modifies a
    ensures a[..] == Assemble(base, tests[..k + 1], vals[..k + 1])
  {
    AssembleStep(base, tests, vals, k);
    ScatterInto(a, test, foldVals);
  }

  /** Loop body: the three assignments `u_hat[test_index] = ...`, `v_hat[...] = ...`, `w_hat[...] = ...` of fold `idx`. */
  method ScatterResiduals(uHat: array<Option<real>>, vHat: array<Option<real>>, wHat: array<Option<real>>,
                          y: seq<real>, d: seq<real>, lHat: seq<seq<real>>, mHat: seq<seq<real>>,
                          mHatTilde: seq<seq<real>>, smpls: seq<Fold>, idx: nat)
    requires Conforms(y, d, lHat, mHat, mHatTilde, smpls) && idx < |smpls|
    requires uHat != vHat && vHat != wHat && uHat != wHat
    requires uHat.Length == vHat.Length == wHat.Length == |y|
    requires uHat[..] == Assemble(Unfilled(|y|), TestSets(smpls)[..idx], ObservedFolds(y, lHat, smpls)[..idx])
    requires vHat[..] == Assemble(Unfilled(|y|), TestSets(smpls)[..idx], VFolds(y, d, lHat, mHat, mHatTilde, smpls)[..idx])
    requires wHat[..] == Assemble(Unfilled(|y|), TestSets(smpls)[..idx], ObservedFolds(d, mHatTilde, smpls)[..idx])
    modifies uHat, vHat, wHat
    ensures uHat[..] == Assemble(Unfilled(|y|), TestSets(smpls)[..idx + 1], ObservedFolds(y, lHat, smpls)[..idx + 1])
    ensures vHat[..] == Assemble(Unfilled(|y|), TestSets(smpls)[..idx + 1], VFolds(y, d, lHat, mHat, mHatTilde, smpls)[..idx + 1])
    ensures wHat[..] == Assemble(Unfilled(|y|), TestSets(smpls)[..idx + 1], ObservedFolds(d, mHatTilde, smpls)[..idx + 1])
  {
    var n := |y|;
    var tests := TestSets(smpls);
    var test := smpls[idx].test;
    ScatterFold(uHat, Unfilled(n), tests, ObservedFolds(y, lHat, smpls), idx, test, ObservedFold(y, lHat, smpls, idx));
    ScatterFold(vHat, Unfilled(n), tests, VFolds(y, d, lHat, mHat, mHatTilde, smpls), idx, test, VFold(n, mHat, mHatTilde, smpls, idx));
    ScatterFold(wHat, Unfilled(n), tests, ObservedFolds(d, mHatTilde, smpls), idx, test, ObservedFold(d, mHatTilde, smpls, idx));
  }

  /** `compute_pliv_partial_xz_residuals`: fill NaN arrays in place, fold by fold. */
  method ComputeResiduals(y: seq<real>, d: seq<real>, lHat: seq<seq<real>>, mHat: seq<seq<real>>,
                          mHatTilde: seq<seq<real>>, smpls: seq<Fold>)
    returns (uHat: array<Option<real>>, vHat: array<Option<real>>, wHat: array<Option<real>>)
    requires Conforms(y, d, lHat, mHat, mHatTilde, smpls)
    ensures fresh(uHat) && fresh(vHat) && fresh(wHat)
    ensures Residuals(uHat[..], vHat[..], wHat[..]) == ResidualsOf(y, d, lHat, mHat, mHatTilde, smpls)
  {
    var n := |y|;
    uHat := new Option<real>[n](_ => None);
    vHat := new Option<real>[n](_ => None);
    wHat := new Option<real>[n](_ => None);
    ghost var tests := TestSets(smpls);
    ghost var us := ObservedFolds(y, lHat, smpls);
    ghost var vs := VFolds(y, d, lHat, mHat, mHatTilde, smpls);
    ghost var ws := ObservedFolds(d, mHatTilde, smpls);
    assert uHat[..] == Unfilled(n) && vHat[..] == Unfilled(n) && wHat[..] == Unfilled(n);
    for idx := 0 to |smpls|
      invariant uHat[..] == Assemble(Unfilled(n), tests[..idx], us[..idx])
      invariant vHat[..] == Assemble(Unfilled(n), tests[..idx], vs[..idx])
      invariant wHat[..] == Assemble(Unfilled(n), tests[..idx], ws[..idx])
    {
      ScatterResiduals(uHat, vHat, wHat, y, d, lHat, mHat, mHatTilde, smpls, idx);
    }
    assert tests[..|smpls|] == tests;
    assert us[..|smpls|] == us && vs[..|smpls|] == vs && ws[..|smpls|] == ws;
  }

  /** Observations that no fold holds out keep NaN in all three residual arrays. */
  lemma ResidualsUntouched(y: seq<real>, d: seq<real>, lHat: seq<seq<real>>, mHat: seq<seq<real>>,
                           mHatTilde: seq<seq<real>>, smpls: seq<Fold>, i: nat)
    requires Conforms(y, d, lHat, mHat, mHatTilde, smpls) && i < |y|
    requires !InSomeTest(TestSets(smpls), i)
    ensures var r := ResidualsOf(y, d, lHat, mHat, mHatTilde, smpls);
      r.u[i] == None && r.v[i] == None && r.w[i] == None
  {
    var tests := TestSets(smpls);
    AssembleUntouched(Unfilled(|y|), tests, ObservedFolds(y, lHat, smpls), i);
    AssembleUntouched(Unfilled(|y|), tests, VFolds(y, d, lHat, mHat, mHatTilde, smpls), i);
    AssembleUntouched(Unfilled(|y|), tests, ObservedFolds(d, mHatTilde, smpls), i);
  }

  /**
   * With disjoint test sets, observation `i = test_index[j]` of fold `k` holds
   * `u = y[i] - l_hat[k][j]`, `v = m_hat[k][j] - m_hat_tilde[k][j]` and `w = d[i] - m_hat_tilde[k][j]`.
   */
  lemma ResidualsAtTestIndex(y: seq<real>, d: seq<real>, lHat: seq<seq<real>>, mHat: seq<seq<real>>,
                             mHatTilde: seq<seq<real>>, smpls: seq<Fold>, k: nat, j: nat)
    requires Conforms(y, d, lHat, mHat, mHatTilde, smpls) && Disjoint(TestSets(smpls))
    requires k < |smpls| && j < |smpls[k].test|
    ensures var r := ResidualsOf(y, d, lHat, mHat, mHatTilde, smpls);
      var i := smpls[k].test[j];
      && r.u[i] == Some(y[i] - lHat[k][j])
      && r.v[i] == Some(mHat[k][j] - mHatTilde[k][j])
      && r.w[i] == Some(d[i] - mHatTilde[k][j])
  {
    var tests := TestSets(smpls);
    AssembleAt(Unfilled(|y|), tests, ObservedFolds(y, lHat, smpls), k, j);
    AssembleAt(Unfilled(|y|), tests, VFolds(y, d, lHat, mHat, mHatTilde, smpls), k, j);
    AssembleAt(Unfilled(|y|), tests, ObservedFolds(d, mHatTilde, smpls), k, j);
  }

  /** When the test sets cover every observation, no residual is left NaN. */
  lemma ResidualsFilled(y: seq<real>, d: seq<real>, lHat: seq<seq<real>>, mHat: seq<seq<real>>,
                        mHatTilde: seq<seq<real>>, smpls: seq<Fold>)
    requires Conforms(y, d, lHat, mHat, mHatTilde, smpls) && Covers(TestSets(smpls), |y|)
    ensures var r := ResidualsOf(y, d, lHat, mHat, mHatTilde, smpls);
      Filled(r.u) && Filled(r.v) && Filled(r.w)
  {
    var tests := TestSets(smpls);
    forall i | 0 <= i < |y|
      ensures var r := ResidualsOf(y, d, lHat, mHat, mHatTilde, smpls);
        r.u[i].Some? && r.v[i].Some? && r.w[i].Some?
    {
      AssembleFilled(Unfilled(|y|), tests, ObservedFolds(y, lHat, smpls), i);
      AssembleFilled(Unfilled(|y|), tests, VFolds(y, d, lHat, mHat, mHatTilde, smpls), i);
      AssembleFilled(Unfilled(|y|), tests, ObservedFolds(d, mHatTilde, smpls), i);
    }
  }

  /**
   * On a split whose test sets partition the observations, as a sample splitter makes them,
   * the residuals are free of NaN and observation `i = test_index[j]` of fold `k` holds
   * `y[i] - l_hat[k][j]`, `m_hat[k][j] - m_hat_tilde[k][j]` and `d[i] - m_hat_tilde[k][j]`.
   */
  lemma ResidualsOnPartition(y: seq<real>, d: seq<real>, lHat: seq<seq<real>>, mHat: seq<seq<real>>,
                             mHatTilde: seq<seq<real>>, smpls: seq<Fold>, k: nat, j: nat)
    requires Conforms(y, d, lHat, mHat, mHatTilde, smpls) && IsPartition(TestSets(smpls), |y|)
    requires k < |smpls| && j < |smpls[k].test|
    ensures var r := ResidualsOf(y, d, lHat, mHat, mHatTilde, smpls);
      var i := smpls[k].test[j];
      && Filled(r.u) && Filled(r.v) && Filled(r.w) && i < |y|
      && Values(r.u)[i] == y[i] - lHat[k][j]
      && Values(r.v)[i] == mHat[k][j] - mHatTilde[k][j]
      && Values(r.w)[i] == d[i] - mHatTilde[k][j]
  {
    ResidualsFilled(y, d, lHat, mHat, mHatTilde, smpls);
    ResidualsAtTestIndex(y, d, lHat, mHat, mHatTilde, smpls, k, j);
  }
}

/** The numpy reductions the estimator uses (`np.mean`, `np.median`), over exact reals. */
module Stats {

  function Sum(s: seq<real>): (r: real)
  {
    if |s| == 0 then 0.0 else s[0] + Sum(s[1..])
  }

  /** `np.mean` of a non-empty array. */
  function Mean(s: seq<real>): (r: real)
    requires |s| > 0
  {
    Sum(s) / (|s| as real)
  }

  /** `np.multiply`, elementwise. */
  function Mul(a: seq<real>, b: seq<real>): (r: seq<real>)
    requires |a| == |b|
    ensures |r| == |a|
  {
    seq(|a|, i requires 0 <= i < |a| => a[i] * b[i])
  }

  /** `np.power(s, 2)`, elementwise. */
  function Squares(s: seq<real>): (r: seq<real>)
    ensures |r| == |s|
  {
    seq(|s|, i requires 0 <= i < |s| => s[i] * s[i])
  }

  /** Sums are linear: a sequence that is pointwise a linear combination sums to that combination. */
  lemma {:induction false} SumLinear(p: seq<real>, q: seq<real>, r: seq<real>, a: real, b: real)
    requires |p| == |q| == |r|
    requires forall i :: 0 <= i < |p| ==> p[i] == a * q[i] + b * r[i]
    ensures Sum(p) == a * Sum(q) + b * Sum(r)
  {
    if |p| > 0 {
      SumLinear(p[1..], q[1..], r[1..], a, b);
      assert p[0] == a * q[0] + b * r[0];
      calc {
        Sum(p);
        p[0] + Sum(p[1..]);
        a * q[0] + b * r[0] + a * Sum(q[1..]) + b * Sum(r[1..]);
        a * (q[0] + Sum(q[1..])) + b * (r[0] + Sum(r[1..]));
      }
    }
  }

  lemma {:induction false} SumNonnegative(s: seq<real>)
    requires forall i :: 0 <= i < |s| ==> 0.0 <= s[i]
    ensures 0.0 <= Sum(s)
  {
    if |s| > 0 {
      SumNonnegative(s[1..]);
    }
  }

  /** `np.mean(-s) == -np.mean(s)`. */
  lemma MeanNegate(p: seq<real>, q: seq<real>)
    requires |p| == |q| > 0
    requires forall i :: 0 <= i < |p| ==> p[i] == -q[i]
    ensures Mean(p) == -Mean(q)
  {
    assert forall i :: 0 <= i < |p| ==> p[i] == (-1.0) * q[i] + 0.0 * q[i];
    SumLinear(p, q, q, -1.0, 0.0);
    assert (-1.0 * Sum(q) + 0.0 * Sum(q)) / (|q| as real) == -(Sum(q) / (|q| as real));
  }

  function Min(s: seq<real>): (m: real)
    requires |s| > 0
    ensures m in s
    ensures forall x :: x in s ==> m <= x
  {
    if |s| == 1 then s[0]
    else
      var t := Min(s[1..]);
      assert s == [s[0]] + s[1..];
      if s[0] <= t then s[0] else t
  }

  function Max(s: seq<real>): (m: real)
    requires |s| > 0
    ensures m in s
    ensures forall x :: x in s ==> x <= m
  {
    if |s| == 1 then s[0]
    else
      var t := Max(s[1..]);
      assert s == [s[0]] + s[1..];
      if t <= s[0] then s[0] else t
  }

  predicate Sorted(s: seq<real>)
  {
    forall i, j :: 0 <= i <= j < |s| ==> s[i] <= s[j]
  }

  function Insert(x: real, s: seq<real>): (r: seq<real>)
    requires Sorted(s)
    ensures Sorted(r)
    ensures multiset(r) == multiset(s) + multiset{x}
    ensures forall k :: 0 <= k < |r| ==> r[k] == x || r[k] in s
  {
    if |s| == 0 then [x]
    else if x <= s[0] then [x] + s
    else
      assert s == [s[0]] + s[1..];
      [s[0]] + Insert(x, s[1..])
  }

  /** An ascending rearrangement of `s`. */
  function Sort(s: seq<real>): (r: seq<real>)
    ensures Sorted(r)
    ensures multiset(r) == multiset(s)
    ensures |r| == |s|
  {
    if |s| == 0 then []
    else
      assert s == [s[0]] + s[1..];
      Insert(s[0], Sort(s[1..]))
  }

  lemma SortedWithinRange(s: seq<real>, k: nat)
    requires |s| > 0 && k < |s|
    ensures Min(s) <= Sort(s)[k] <= Max(s)
  {
    var t := Sort(s);
    var x := t[k];
    assert x in multiset(t);
    assert x in multiset(s);
    assert x in s;
    assert Min(s) <= x;
    assert x <= Max(s);
  }

  /** `np.median`: the middle element of the sorted values, or the mean of the two middle ones. */
  function Median(s: seq<real>): (m: real)
    requires |s| > 0
    ensures Min(s) <= m <= Max(s)
    ensures |s| == 1 ==> m == s[0]
  {
    var t := Sort(s);
    var n := |t|;
    SortedWithinRange(s, n / 2);
    if n % 2 == 1 then t[n / 2]
    else
      SortedWithinRange(s, n / 2 - 1);
      (t[n / 2 - 1] + t[n / 2]) / 2.0
  }

  lemma MedianNonnegative(s: seq<real>)
    requires |s| > 0 && forall k :: 0 <= k < |s| ==> s[k] >= 0.0
    ensures Median(s) >= 0.0
  {
    var m := Min(s);
    assert m in s;
  }
}

/**
 * The numpy reductions the post-processing uses: `np.average`, `np.std`
 * (population, `ddof = 0`) and `np.sort` on one column.
 */
module Stats {
  import opened RealMath

  function Sum(s: seq<real>): real
  {
    if |s| == 0 then 0.0 else Sum(s[..|s| - 1]) + s[|s| - 1]
  }

  lemma {:induction false} SumBounds(s: seq<real>, lo: real, hi: real)
    requires forall i :: 0 <= i < |s| ==> lo <= s[i] <= hi
    ensures |s| as real * lo <= Sum(s) <= |s| as real * hi
  {
    if |s| > 0 {
      SumBounds(s[..|s| - 1], lo, hi);
    }
  }

  lemma {:induction false} SumConstant(s: seq<real>, c: real)
    requires forall i :: 0 <= i < |s| ==> s[i] == c
    ensures Sum(s) == |s| as real * c
  {
    if |s| > 0 {
      SumConstant(s[..|s| - 1], c);
    }
  }

  /** `np.average`: the arithmetic mean of a non-empty column. */
  function Mean(s: seq<real>): real
    requires |s| > 0
  {
    Sum(s) / |s| as real
  }

  lemma QuotientBounds(t: real, n: real, lo: real, hi: real)
    requires 0.0 < n && n * lo <= t <= n * hi
    ensures lo <= t / n <= hi
  {
    var q := 1.0 / n;
    ScaleMonotone(q, n * lo, t);
    ScaleMonotone(q, t, n * hi);
    assert q * n == 1.0;
    assert q * (n * lo) == (q * n) * lo;
    assert q * (n * hi) == (q * n) * hi;
    assert q * t == t / n;
  }

  /** The mean lies between any bounds of the data. */
  lemma MeanBounds(s: seq<real>, lo: real, hi: real)
    requires |s| > 0
    requires forall i :: 0 <= i < |s| ==> lo <= s[i] <= hi
    ensures lo <= Mean(s) <= hi
  {
    SumBounds(s, lo, hi);
    QuotientBounds(Sum(s), |s| as real, lo, hi);
  }

  /** The mean of a constant column is that constant. */
  lemma MeanConstant(s: seq<real>, c: real)
    requires |s| > 0
    requires forall i :: 0 <= i < |s| ==> s[i] == c
    ensures Mean(s) == c
  {
    SumConstant(s, c);
  }

  /** The sum of squared deviations from `mu`. */
  function SquaredDeviations(s: seq<real>, mu: real): (d: real)
    ensures 0.0 <= d
  {
    if |s| == 0 then 0.0
    else
      SqNonnegative(s[|s| - 1] - mu);
      SquaredDeviations(s[..|s| - 1], mu) + Sq(s[|s| - 1] - mu)
  }

  lemma {:induction false} DeviationsOfConstant(s: seq<real>, c: real)
    requires forall i :: 0 <= i < |s| ==> s[i] == c
    ensures SquaredDeviations(s, c) == 0.0
  {
    if |s| > 0 {
      DeviationsOfConstant(s[..|s| - 1], c);
    }
  }

  function Variance(s: seq<real>): (v: real)
    requires |s| > 0
    ensures 0.0 <= v
  {
    SquaredDeviations(s, Mean(s)) / |s| as real
  }

  /** `np.std(ddof = 0)`. */
  function PopStd(m: Oracle, s: seq<real>): real
    requires |s| > 0
  {
    m.sqrt(Variance(s))
  }

  /** The standard deviation is non-negative and squares to the variance. */
  lemma PopStdSquare(m: Oracle, s: seq<real>)
    requires m.Valid() && |s| > 0
    ensures 0.0 <= PopStd(m, s)
    ensures Sq(PopStd(m, s)) == Variance(s)
  {
    SqrtAt(m, Variance(s));
  }

  /** A constant column has no spread. */
  lemma PopStdConstant(m: Oracle, s: seq<real>, c: real)
    requires m.Valid() && |s| > 0
    requires forall i :: 0 <= i < |s| ==> s[i] == c
    ensures PopStd(m, s) == 0.0
  {
    MeanConstant(s, c);
    DeviationsOfConstant(s, c);
    assert Variance(s) == 0.0;
    SqrtOfSq(m, 0.0);
    assert Sq(0.0) == 0.0;
  }

  predicate Sorted(s: seq<real>)
  {
    forall i, j :: 0 <= i < j < |s| ==> s[i] <= s[j]
  }

  /** Insertion of `x` into a sorted column. */
  function Insert(x: real, s: seq<real>): (r: seq<real>)
    requires Sorted(s)
    ensures Sorted(r)
    ensures multiset(r) == multiset(s) + multiset{x}
    ensures |r| == |s| + 1
    ensures r[0] == (if |s| == 0 || x <= s[0] then x else s[0])
  {
    if |s| == 0 then [x]
    else if x <= s[0] then [x] + s
    else
      assert s == [s[0]] + s[1..];
      [s[0]] + Insert(x, s[1..])
  }

  /** `np.sort`: the column in ascending order. */
  function SortAsc(s: seq<real>): (r: seq<real>)
    ensures Sorted(r)
    ensures multiset(r) == multiset(s)
    ensures |r| == |s|
  {
    if |s| == 0 then []
    else
      assert s == s[..|s| - 1] + [s[|s| - 1]];
      Insert(s[|s| - 1], SortAsc(s[..|s| - 1]))
  }
}

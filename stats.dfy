/**
 * Sums, means and extremes of real-valued columns, as pandas and numpy compute
 * them on the dashboard's sales and importance columns (real arithmetic, no rounding).
 */
module Stats {

  /** Left-to-right sum of a column. */
  function Sum(s: seq<real>): (total: real)
  {
    if s == [] then 0.0 else Sum(s[..|s| - 1]) + s[|s| - 1]
  }

  /** `Series.mean()` / `ndarray.mean()` of a non-empty column. */
  function Mean(s: seq<real>): (m: real)
    requires |s| > 0
  {
    Sum(s) / (|s| as real)
  }

  /** Smallest and largest entry of a non-empty column. */
  function Min(s: seq<real>): (m: real)
    requires |s| > 0
    ensures m in s
    ensures forall i :: 0 <= i < |s| ==> m <= s[i]
  {
    if |s| == 1 then s[0] else var m := Min(s[..|s| - 1]); if s[|s| - 1] < m then s[|s| - 1] else m
  }

  function Max(s: seq<real>): (m: real)
    requires |s| > 0
    ensures m in s
    ensures forall i :: 0 <= i < |s| ==> s[i] <= m
  {
    if |s| == 1 then s[0] else var m := Max(s[..|s| - 1]); if s[|s| - 1] > m then s[|s| - 1] else m
  }

  /** Extending a prefix by one entry adds that entry to the sum. */
  lemma SumSnoc(s: seq<real>, k: nat)
    requires k < |s|
    ensures Sum(s[..k + 1]) == Sum(s[..k]) + s[k]
  {
    assert s[..k + 1][..k] == s[..k];
  }

  /** A column whose entries are all at least `lo` sums to at least `|s| * lo`, and likewise above. */
  lemma {:induction false} SumBounds(s: seq<real>, lo: real, hi: real)
    requires forall i :: 0 <= i < |s| ==> lo <= s[i] <= hi
    ensures (|s| as real) * lo <= Sum(s) <= (|s| as real) * hi
  {
    if s != [] {
      SumBounds(s[..|s| - 1], lo, hi);
    }
  }

  /** The mean of a column lies between any lower and any upper bound of its entries. */
  lemma MeanBounds(s: seq<real>, lo: real, hi: real)
    requires |s| > 0
    requires forall i :: 0 <= i < |s| ==> lo <= s[i] <= hi
    ensures lo <= Mean(s) <= hi
  {
    SumBounds(s, lo, hi);
    var n := |s| as real;
    assert Mean(s) * n == Sum(s);
  }

  /** In particular the mean lies between the smallest and the largest entry. */
  lemma MeanBetweenMinMax(s: seq<real>)
    requires |s| > 0
    ensures Min(s) <= Mean(s) <= Max(s)
  {
    MeanBounds(s, Min(s), Max(s));
  }

  /** The sum of a non-negative column is at least the sum of any prefix of it. */
  lemma {:induction false} PrefixSumAtMost(s: seq<real>, k: nat)
    requires k <= |s|
    requires forall i :: 0 <= i < |s| ==> 0.0 <= s[i]
    ensures Sum(s[..k]) <= Sum(s)
    decreases |s| - k
  {
    if k < |s| {
      SumSnoc(s, k);
      PrefixSumAtMost(s, k + 1);
    } else {
      assert s[..k] == s;
    }
  }
}

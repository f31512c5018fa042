/**
 * The diagnostics the dashboard derives from the fitted regressor
 * (data_getters.py): importance breakdown of the first three columns, the
 * best and worst ranked columns, residuals and the clamped value range.
 * The regressor is not modelled: its importances, the scaled test targets
 * and its predictions are parameters.
 */
module Diagnostics {
  import opened Wrappers
  import opened Stats

  /** A positional index past the end of the columns or importances (Python's IndexError). */
  datatype Error = IndexError

  /** A numpy float64 quotient: a finite value, or nan/inf after a division by zero. */
  datatype Percent = Finite(value: real) | NonFinite

  /** `(part / total) * 100` in float64, with the division by zero made explicit. */
  function PercentOf(part: real, total: real): (p: Percent)
    ensures p.Finite? <==> total != 0.0
    ensures p.Finite? ==> p.value * total == part * 100.0
  {
    if total == 0.0 then NonFinite else Finite(part / total * 100.0)
  }

  /** Number of leading columns in the importance breakdown. */
  const BREAKDOWN_COUNT: nat := 3

  /**
   * `get_feature_import`: sums the importances of all feature columns, then
   * reports the first three columns with their share of that sum in percent.
   * The importances come from a regressor fitted on exactly these columns.
   */
  method GetFeatureImport(columns: seq<string>, importances: seq<real>)
    returns (r: Result<seq<(string, Percent)>, Error>)
    requires |importances| == |columns|
    ensures r.Ok? <==> BREAKDOWN_COUNT <= |columns|
    ensures r.Ok? ==> |r.value| == BREAKDOWN_COUNT
    ensures r.Ok? ==> forall i :: 0 <= i < BREAKDOWN_COUNT ==>
                        r.value[i] == (columns[i], PercentOf(importances[i], Sum(importances)))
  {
    var importSum := 0.0;
    var header := 0;
    while header < |columns|
      invariant 0 <= header <= |columns|
      invariant importSum == Sum(importances[..header])
    {
      SumSnoc(importances, header);
      importSum := importSum + importances[header];
      header := header + 1;
    }
    assert importances[..header] == importances;
    var salesImpact: seq<(string, Percent)> := [];
    header := 0;
    while header < BREAKDOWN_COUNT
      invariant 0 <= header <= BREAKDOWN_COUNT && header <= |columns|
      invariant |salesImpact| == header
      invariant forall i :: 0 <= i < header ==> salesImpact[i] == (columns[i], PercentOf(importances[i], importSum))
    {
      if header >= |columns| {
        return Err(IndexError);
      }
      salesImpact := salesImpact + [(columns[header], PercentOf(importances[header], importSum))];
      header := header + 1;
    }
    r := Ok(salesImpact);
  }

  /** A part of a positive total is a share between 0 and 100 percent. */
  lemma ShareBound(part: real, total: real)
    requires 0.0 <= part <= total && total > 0.0
    ensures 0.0 <= part / total * 100.0 <= 100.0
  {
  }

  /** Shares of one total add up like their parts. */
  lemma SharesAdd(a: real, b: real, c: real, total: real)
    requires total > 0.0
    ensures a / total * 100.0 + b / total * 100.0 + c / total * 100.0 == (a + b + c) / total * 100.0
  {
  }

  /**
   * With non-negative importances of positive sum, every share in the
   * breakdown is finite and within [0, 100], and the three shares together
   * are at most 100 (the denominator is the sum over all columns, so they
   * need not reach 100).
   */
  lemma BreakdownBounds(importances: seq<real>)
    requires BREAKDOWN_COUNT <= |importances|
    requires forall i :: 0 <= i < |importances| ==> 0.0 <= importances[i]
    requires Sum(importances) > 0.0
    ensures forall i :: 0 <= i < BREAKDOWN_COUNT ==>
              var p := PercentOf(importances[i], Sum(importances)); p.Finite? && 0.0 <= p.value <= 100.0
    ensures PercentOf(importances[0], Sum(importances)).value
          + PercentOf(importances[1], Sum(importances)).value
          + PercentOf(importances[2], Sum(importances)).value <= 100.0
  {
    var total := Sum(importances);
    var a, b, c := importances[0], importances[1], importances[2];
    PrefixSumAtMost(importances, 3);
    SumSnoc(importances, 0);
    SumSnoc(importances, 1);
    SumSnoc(importances, 2);
    assert importances[..0] == [];
    assert a + b + c <= total;
    ShareBound(a, total);
    ShareBound(b, total);
    ShareBound(c, total);
    ShareBound(a + b + c, total);
    SharesAdd(a, b, c, total);
  }

  /** With importances normalised to sum 1 (as a fitted forest reports them), a share is the importance times 100. */
  lemma NormalisedBreakdown(importances: seq<real>, i: nat)
    requires i < |importances|
    requires Sum(importances) == 1.0
    ensures PercentOf(importances[i], Sum(importances)) == Finite(importances[i] * 100.0)
  {
  }

  /** The ranked column window, `range(3, 30)`, and the two cut-offs. */
  const RANKED_FROM: nat := 3
  const RANKED_TO: nat := 30
  const BEST_CUTOFF: real := 0.03
  const WORST_CUTOFF: real := 0.01

  /** A strict threshold test on an importance. */
  datatype Cut = Above(bound: real) | Below(bound: real)

  predicate Passes(cut: Cut, x: real)
  {
    match cut
    case Above(b) => x > b
    case Below(b) => x < b
  }

  /** The indices in `lo..hi-1` whose importance passes `cut`, in ascending order. */
  function KeptIndices(importances: seq<real>, lo: nat, hi: nat, cut: Cut): (k: seq<nat>)
    requires lo <= hi <= |importances|
    ensures forall j :: 0 <= j < |k| ==> lo <= k[j] < hi && Passes(cut, importances[k[j]])
    decreases hi - lo
  {
    if hi == lo then []
    else KeptIndices(importances, lo, hi - 1, cut) + (if Passes(cut, importances[hi - 1]) then [hi - 1] else [])
  }

  /** The column names at the given indices. */
  function Pick(columns: seq<string>, indices: seq<nat>): (names: seq<string>)
    requires forall j :: 0 <= j < |indices| ==> indices[j] < |columns|
  {
    seq(|indices|, j requires 0 <= j < |indices| => columns[indices[j]])
  }

  /** Strictly ascending indices. */
  predicate Ascending(k: seq<nat>)
  {
    forall j1, j2 :: 0 <= j1 < j2 < |k| ==> k[j1] < k[j2]
  }

  /**
   * Beside what `KeptIndices` itself promises (each index lies in the window
   * and passes), every passing index of the window is there, and the indices
   * are strictly ascending: original column order, no repeats.
   */
  lemma {:induction false} KeptIndicesExact(importances: seq<real>, lo: nat, hi: nat, cut: Cut)
    requires lo <= hi <= |importances|
    ensures forall i :: lo <= i < hi && Passes(cut, importances[i]) ==> i in KeptIndices(importances, lo, hi, cut)
    ensures Ascending(KeptIndices(importances, lo, hi, cut))
    decreases hi - lo
  {
    if hi > lo {
      KeptIndicesExact(importances, lo, hi - 1, cut);
      var prev := KeptIndices(importances, lo, hi - 1, cut);
      var k := KeptIndices(importances, lo, hi, cut);
      if Passes(cut, importances[hi - 1]) {
        assert k == prev + [hi - 1];
        forall j1, j2 | 0 <= j1 < j2 < |k|
          ensures k[j1] < k[j2]
        {
          if j2 == |prev| {
            assert k[j1] == prev[j1] < hi - 1;
          } else {
            assert k[j1] == prev[j1] && k[j2] == prev[j2];
          }
        }
      } else {
        assert k == prev;
      }
    }
  }

  /**
   * The loop shared by `get_best_features` and `get_worst_features`: walk
   * the window 3..29 and collect the names of the columns whose importance
   * passes the cut. An importance vector shorter than 30 raises IndexError.
   */
  method RankedColumns(columns: seq<string>, importances: seq<real>, cut: Cut)
    returns (r: Result<seq<string>, Error>)
    requires |importances| == |columns|
    ensures r.Ok? <==> RANKED_TO <= |importances|
    ensures r.Ok? ==> r.value == Pick(columns, KeptIndices(importances, RANKED_FROM, RANKED_TO, cut))
  {
    if |importances| < RANKED_TO {
      return Err(IndexError);
    }
    var selected: seq<string> := [];
    var header := RANKED_FROM;
    while header < RANKED_TO
      invariant RANKED_FROM <= header <= RANKED_TO
      invariant selected == Pick(columns, KeptIndices(importances, RANKED_FROM, header, cut))
    {
      if Passes(cut, importances[header]) {
        selected := selected + [columns[header]];
      }
      header := header + 1;
    }
    r := Ok(selected);
  }

  /** `get_best_features`: the window's columns with importance above 0.03, in column order. */
  method GetBestFeatures(columns: seq<string>, importances: seq<real>) returns (r: Result<seq<string>, Error>)
    requires |importances| == |columns|
    ensures r.Ok? <==> RANKED_TO <= |importances|
    ensures r.Ok? ==> r.value == Pick(columns, KeptIndices(importances, RANKED_FROM, RANKED_TO, Above(BEST_CUTOFF)))
  {
    r := RankedColumns(columns, importances, Above(BEST_CUTOFF));
  }

  /** `get_worst_features`: the window's columns with importance below 0.01, in column order. */
  method GetWorstFeatures(columns: seq<string>, importances: seq<real>) returns (r: Result<seq<string>, Error>)
    requires |importances| == |columns|
    ensures r.Ok? <==> RANKED_TO <= |importances|
    ensures r.Ok? ==> r.value == Pick(columns, KeptIndices(importances, RANKED_FROM, RANKED_TO, Below(WORST_CUTOFF)))
  {
    r := RankedColumns(columns, importances, Below(WORST_CUTOFF));
  }

  /**
   * No column is both best and worst: no importance exceeds 0.03 and stays
   * under 0.01, so the two index lists are disjoint, and with distinct column
   * names (as a data frame has) so are the two name lists.
   */
  lemma BestWorstDisjoint(columns: seq<string>, importances: seq<real>)
    requires |importances| == |columns| && RANKED_TO <= |importances|
    ensures var best := KeptIndices(importances, RANKED_FROM, RANKED_TO, Above(BEST_CUTOFF));
            var worst := KeptIndices(importances, RANKED_FROM, RANKED_TO, Below(WORST_CUTOFF));
      && (forall i :: i in best ==> i !in worst)
      && ((forall i, j :: 0 <= i < |columns| && 0 <= j < |columns| && i != j ==> columns[i] != columns[j]) ==>
            forall name :: name in Pick(columns, best) ==> name !in Pick(columns, worst))
  {
  }

  /**
   * `get_residuals`: elementwise scaled test target minus prediction; adding
   * the residuals back onto the predictions recovers the test targets.
   */
  function Residuals(test: seq<real>, predict: seq<real>): (residuals: seq<real>)
    requires |test| == |predict|
    ensures |residuals| == |test|
    ensures forall i :: 0 <= i < |test| ==> predict[i] + residuals[i] == test[i]
  {
    seq(|test|, i requires 0 <= i < |test| => test[i] - predict[i])
  }

  /** All residuals vanish exactly when the predictions equal the test targets. */
  lemma ResidualsVanishIff(test: seq<real>, predict: seq<real>)
    requires |test| == |predict|
    ensures (forall i :: 0 <= i < |test| ==> Residuals(test, predict)[i] == 0.0) <==> test == predict
  {
    if forall i :: 0 <= i < |test| ==> Residuals(test, predict)[i] == 0.0 {
      forall i | 0 <= i < |test|
        ensures test[i] == predict[i]
      {
        assert Residuals(test, predict)[i] == 0.0;
      }
    }
  }

  /** max(0, max s): the upper bound the range loop reaches, seeded at 0. */
  function ClampedMax(s: seq<real>): (high: real)
    ensures 0.0 <= high
    ensures forall i :: 0 <= i < |s| ==> s[i] <= high
    ensures high == 0.0 || high in s
  {
    if s == [] then 0.0
    else
      var high := ClampedMax(s[..|s| - 1]);
      if s[|s| - 1] > high then s[|s| - 1] else high
  }

  /** min(0, min s): the lower bound the range loop reaches, seeded at 0. */
  function ClampedMin(s: seq<real>): (low: real)
    ensures low <= 0.0
    ensures forall i :: 0 <= i < |s| ==> low <= s[i]
    ensures low == 0.0 || low in s
  {
    if s == [] then 0.0
    else
      var low := ClampedMin(s[..|s| - 1]);
      if s[|s| - 1] < low then s[|s| - 1] else low
  }

  /**
   * `get_variance`: `low` and `high` start at 0 and only widen to take in
   * each test value; the result is `high - low`.
   */
  method GetVariance(test: seq<real>) returns (variance: real)
    ensures variance == ClampedMax(test) - ClampedMin(test)
    ensures 0.0 <= variance
    ensures forall i, j :: 0 <= i < |test| && 0 <= j < |test| ==> test[i] - test[j] <= variance
  {
    var low, high := 0.0, 0.0;
    for k := 0 to |test|
      invariant low <= 0.0 <= high
      invariant low == ClampedMin(test[..k]) && high == ClampedMax(test[..k])
    {
      assert test[..k + 1][..k] == test[..k];
      if test[k] < low {
        low := test[k];
      }
      if test[k] > high {
        high := test[k];
      }
    }
    assert test[..|test|] == test;
    variance := high - low;
  }

  /** An empty or all-zero test vector has range 0. */
  lemma VarianceOfZeros(test: seq<real>)
    requires forall i :: 0 <= i < |test| ==> test[i] == 0.0
    ensures ClampedMax(test) - ClampedMin(test) == 0.0
  {
  }

  /**
   * Where the values straddle 0 the clamped range is the true range
   * max - min; otherwise it is wider, since 0 takes part as an extra value.
   */
  lemma VarianceVersusTrueRange(test: seq<real>)
    requires |test| > 0
    ensures ClampedMax(test) - ClampedMin(test) >= Max(test) - Min(test)
    ensures (Min(test) <= 0.0 <= Max(test)) ==> ClampedMax(test) - ClampedMin(test) == Max(test) - Min(test)
  {
  }
}

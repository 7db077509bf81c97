/**
 One-pass drawdown of an equity curve: the loop of backend/app/backtest/metrics.py and the path loop of
 backend/app/backtest/monte_carlo.py.  A curve is its starting capital followed by the recorded equities.
 */
module Drawdown {
  import opened Common

  /** The running peak. */
  function Peak(curve: seq<real>): real
    requires curve != []
  {
    if |curve| == 1 then curve[0] else Max(Peak(curve[..|curve| - 1]), curve[|curve| - 1])
  }

  /** The fall from a peak in percent of that peak. */
  function Percent(peak: real, equity: real): real {
    if peak > 0.0 then (peak - equity) / peak * 100.0 else 0.0
  }

  function LargestDrop(curve: seq<real>): real
    requires curve != []
  {
    if |curve| == 1 then 0.0
    else Max(LargestDrop(curve[..|curve| - 1]), Peak(curve) - curve[|curve| - 1])
  }

  function LargestPercent(curve: seq<real>): real
    requires curve != []
  {
    if |curve| == 1 then 0.0
    else Max(LargestPercent(curve[..|curve| - 1]), Percent(Peak(curve), curve[|curve| - 1]))
  }

  // ---------------------------------------------------------------- what the one pass computes

  lemma {:induction false} PeakIsLargest(curve: seq<real>) returns (at: nat)
    requires curve != []
    ensures forall i :: 0 <= i < |curve| ==> curve[i] <= Peak(curve)
    ensures at < |curve| && curve[at] == Peak(curve)
  {
    if |curve| == 1 {
      at := 0;
    } else {
      at := PeakIsLargest(curve[..|curve| - 1]);
      if curve[at] < curve[|curve| - 1] { at := |curve| - 1; }
    }
  }

  /** The drawdown value is the largest fall between any two points of the curve, and some pair attains it. */
  lemma {:induction false} LargestDropIsLargest(curve: seq<real>) returns (from: nat, to: nat)
    requires curve != []
    ensures forall i, j :: 0 <= i <= j < |curve| ==> curve[i] - curve[j] <= LargestDrop(curve)
    ensures from <= to < |curve| && curve[from] - curve[to] == LargestDrop(curve)
  {
    hide Peak;
    var last := |curve| - 1;
    if last == 0 {
      from, to := 0, 0;
    } else {
      from, to := LargestDropIsLargest(curve[..last]);
      var top := PeakIsLargest(curve);
      forall i, j | 0 <= i <= j < |curve| ensures curve[i] - curve[j] <= LargestDrop(curve) {
        if j < last { assert curve[..last][i] == curve[i] && curve[..last][j] == curve[j]; }
      }
      if curve[from] - curve[to] < Peak(curve) - curve[last] { from, to := top, last; }
    }
  }

  /** A higher peak means a larger percentage, as long as the equity is not negative. */
  lemma PercentGrowsWithPeak(low: real, high: real, equity: real)
    requires 0.0 < low <= high && equity >= 0.0
    ensures Percent(low, equity) <= Percent(high, equity)
  {
    PercentIsShare(low, equity);
    PercentIsShare(high, equity);
    DivAtLeast(equity, equity / high, low);
    DivAtLeast(equity, equity / high, high);
    DivMono(0.0, equity, high);
    MulMono(low, high, equity / high);
  }

  lemma PercentIsShare(peak: real, equity: real)
    requires peak > 0.0
    ensures Percent(peak, equity) == 100.0 - equity / peak * 100.0
  {
    var share, rest := equity / peak, (peak - equity) / peak;
    DivAtLeast(equity, share, peak);
    DivAtLeast(peak - equity, rest, peak);
    SharesAddUp(equity, peak - equity, share, rest, peak);
  }

  lemma SharesAddUp(a: real, b: real, share: real, rest: real, whole: real)
    requires share * whole == a && rest * whole == b && a + b == whole > 0.0
    ensures share + rest == 1.0
  {
    MulSum(share + rest, share, rest, whole);
    assert (share + rest - 1.0) * whole == 0.0;
  }

  /**
   The percentage is attained, and no fall to a non-negative equity exceeds it.
   On a curve that never goes negative it is therefore the largest percentage fall of all.
   */
  lemma {:induction false} LargestPercentIsLargest(curve: seq<real>) returns (from: nat, to: nat)
    requires curve != []
    ensures forall i, j :: 0 <= i <= j < |curve| && curve[j] >= 0.0 ==>
              Percent(curve[i], curve[j]) <= LargestPercent(curve)
    ensures from <= to < |curve| && Percent(curve[from], curve[to]) == LargestPercent(curve) >= 0.0
  {
    hide Percent;
    var last := |curve| - 1;
    if last == 0 {
      from, to := 0, 0;
      NoFall(curve[0]);
    } else {
      from, to := LargestPercentIsLargest(curve[..last]);
      var top := PeakIsLargest(curve);
      var before := LargestPercent(curve[..last]);
      forall i, j | 0 <= i <= j < |curve| && curve[j] >= 0.0
        ensures Percent(curve[i], curve[j]) <= LargestPercent(curve)
      {
        if j == last {
          BelowPeak(curve[i], Peak(curve), curve[last]);
        } else {
          assert curve[..last][i] == curve[i] && curve[..last][j] == curve[j];
        }
      }
      if before < Percent(Peak(curve), curve[last]) { from, to := top, last; }
    }
  }

  lemma NoFall(equity: real)
    ensures Percent(equity, equity) == 0.0
  {
    if equity > 0.0 { DivMono(0.0, 0.0, equity); }
  }

  lemma BelowPeak(start: real, peak: real, equity: real)
    requires start <= peak && equity <= peak && equity >= 0.0
    ensures Percent(start, equity) <= Percent(peak, equity)
  {
    if start > 0.0 {
      PercentGrowsWithPeak(start, peak, equity);
    } else if peak > 0.0 {
      DivMono(0.0, peak - equity, peak);
    }
  }

  /** On a curve that never goes negative the percentage lies in [0, 100]. */
  lemma PercentAtMostHundred(curve: seq<real>)
    requires curve != [] && forall i :: 0 <= i < |curve| ==> curve[i] >= 0.0
    ensures 0.0 <= LargestPercent(curve) <= 100.0
  {
    var from, to := LargestPercentIsLargest(curve);
    if curve[from] > 0.0 {
      PercentIsShare(curve[from], curve[to]);
      DivMono(0.0, curve[to], curve[from]);
    }
  }

  /** Once equity is negative the running peak hides a larger percentage fall: 100, 200, -100 reads 150, not 200. */
  lemma NegativeEquityHidesAFall()
    ensures var curve := [100.0, 200.0, -100.0];
            LargestPercent(curve) == 150.0 && Percent(curve[0], curve[2]) == 200.0
  {
    var curve := [100.0, 200.0, -100.0];
    assert curve[..2] == [100.0, 200.0] && [100.0, 200.0][..1] == [100.0];
    assert Peak(curve[..2]) == 200.0 && Peak(curve) == 200.0;
    assert Percent(200.0, 200.0) == 0.0 && Percent(200.0, -100.0) == 150.0;
    assert LargestPercent(curve[..2]) == 0.0;
  }

  // ---------------------------------------------------------------- when the running peak is the right start

  /** No start up to point j falls further, in percent, to the equity there than the running peak does. */
  ghost predicate PeakIsWorstStart(curve: seq<real>, j: nat)
    requires j < |curve|
  {
    forall i :: 0 <= i <= j ==> Percent(curve[i], curve[j]) <= Percent(Peak(curve[..j + 1]), curve[j])
  }

  /** All positive equities up to point j are equal. */
  ghost predicate OnlyOneLevel(curve: seq<real>, j: nat)
    requires j < |curve|
  {
    forall i :: 0 <= i <= j && curve[i] > 0.0 ==> curve[i] == Peak(curve[..j + 1])
  }

  /** Below zero it is the other way round: the lower the start, the larger the percentage. */
  lemma PercentFallsWithStart(low: real, high: real, equity: real)
    requires 0.0 < low < high && equity < 0.0
    ensures Percent(low, equity) > Percent(high, equity) > 100.0
  {
    PercentIsShare(low, equity);
    PercentIsShare(high, equity);
    var share := equity / high;
    DivAtLeast(equity, share, high);
    DivAtLeast(equity, 0.0, high);
    MulMonoStrict(low, high, -share);
    DivAtLeast(equity, share, low);
  }

  /**
     At one point of the curve: the percentage is the largest there exactly when the equity is not negative or
     only one level was seen.
     */
  lemma PeakIsWorstStartExactly(curve: seq<real>, j: nat)
    requires j < |curve|
    ensures PeakIsWorstStart(curve, j) <==> curve[j] >= 0.0 || OnlyOneLevel(curve, j)
  {
    hide Percent;
    var prefix := curve[..j + 1];
    var peak := Peak(prefix);
    var top := PeakIsLargest(prefix);
    assert forall i :: 0 <= i <= j ==> prefix[i] == curve[i] <= peak;
    forall i | 0 <= i <= j
      ensures curve[j] >= 0.0 || curve[i] <= 0.0 || curve[i] == peak
              ==> Percent(curve[i], curve[j]) <= Percent(peak, curve[j])
    {
      if curve[j] >= 0.0 {
        BelowPeak(curve[i], peak, curve[j]);
      } else if curve[i] <= 0.0 {
        NoPercent(curve[i], peak, curve[j]);
      }
    }
    if curve[j] < 0.0 && !OnlyOneLevel(curve, j) {
      var i :| 0 <= i <= j && curve[i] > 0.0 && curve[i] != peak;
      PercentFallsWithStart(curve[i], peak, curve[j]);
      assert !PeakIsWorstStart(curve, j);
    }
  }

  lemma NoPercent(start: real, peak: real, equity: real)
    requires start <= 0.0 && equity <= peak
    ensures Percent(start, equity) <= Percent(peak, equity)
  {
    if peak > 0.0 { DivMono(0.0, peak - equity, peak); }
  }

  /** The lowest positive equity so far, or zero when there is none. */
  function LowestStart(curve: seq<real>): real
    requires curve != []
  {
    var x := curve[|curve| - 1];
    if |curve| == 1 then Max(0.0, x)
    else
      var lowest := LowestStart(curve[..|curve| - 1]);
      if x <= 0.0 then lowest else if lowest <= 0.0 then x else Min(lowest, x)
  }

  /** The largest fall to negative equity after a second positive level: it starts at the lowest one. */
  function Hidden(curve: seq<real>): real
    requires curve != []
  {
    var x := curve[|curve| - 1];
    if |curve| == 1 then 0.0
    else
      Max(Hidden(curve[..|curve| - 1]),
          if x < 0.0 && LowestStart(curve) < Peak(curve) then Percent(LowestStart(curve), x) else 0.0)
  }

  /** The largest percentage recorded before a second positive level. */
  function OnOneLevel(curve: seq<real>): real
    requires curve != []
  {
    if |curve| == 1 then 0.0
    else
      Max(OnOneLevel(curve[..|curve| - 1]),
          if LowestStart(curve) == Peak(curve) then Percent(Peak(curve), curve[|curve| - 1]) else 0.0)
  }

  lemma {:induction false} LowestStartIsLowest(curve: seq<real>) returns (at: nat)
    requires curve != []
    ensures LowestStart(curve) >= 0.0
    ensures forall i :: 0 <= i < |curve| && curve[i] > 0.0 ==> 0.0 < LowestStart(curve) <= curve[i]
    ensures LowestStart(curve) > 0.0 ==> at < |curve| && curve[at] == LowestStart(curve)
  {
    var last := |curve| - 1;
    if last == 0 {
      at := 0;
    } else {
      at := LowestStartIsLowest(curve[..last]);
      if LowestStart(curve) != LowestStart(curve[..last]) { at := last; }
    }
  }

  /** No fall is larger than what the one pass reports and what it hides. */
  lemma {:induction false} FallsAreReportedOrHidden(curve: seq<real>, i: nat, j: nat)
    requires i <= j < |curve|
    ensures Percent(curve[i], curve[j]) <= Max(LargestPercent(curve), Hidden(curve))
  {
    var last := |curve| - 1;
    if last == 0 {
      NoFall(curve[0]);
    } else if j < last {
      FallsAreReportedOrHidden(curve[..last], i, j);
    } else {
      var top := PeakIsLargest(curve);
      var low := LowestStartIsLowest(curve);
      FallFromStart(curve[i], LowestStart(curve), Peak(curve), curve[last]);
      hide Percent, Peak, LowestStart;
    }
  }

  /** A fall from a start between the lowest and the peak. */
  lemma FallFromStart(start: real, lowest: real, peak: real, equity: real)
    requires start <= peak && equity <= peak && (start > 0.0 ==> 0.0 < lowest <= start)
    ensures || Percent(start, equity) <= Percent(peak, equity)
            || (equity < 0.0 && lowest < peak && Percent(start, equity) <= Percent(lowest, equity))
  {
    if equity >= 0.0 {
      BelowPeak(start, peak, equity);
    } else if start <= 0.0 {
      NoPercent(start, peak, equity);
    } else if lowest < start {
      PercentFallsWithStart(lowest, start, equity);
    }
    hide Percent;
  }

  /** What is hidden is a fall between two points of the curve, of more than a hundred percent. */
  lemma {:induction false} HiddenIsAFall(curve: seq<real>) returns (i: nat, j: nat)
    requires curve != []
    ensures Hidden(curve) >= 0.0
    ensures Hidden(curve) > 0.0 ==>
              && i <= j < |curve| && Percent(curve[i], curve[j]) == Hidden(curve) > 100.0
  {
    var last := |curve| - 1;
    i, j := 0, 0;
    if last > 0 {
      i, j := HiddenIsAFall(curve[..last]);
      var low := LowestStartIsLowest(curve);
      var lowest := LowestStart(curve);
      if Hidden(curve) != Hidden(curve[..last]) {
        if lowest > 0.0 { PercentFallsWithStart(lowest, Peak(curve), curve[last]); }
        i, j := low, last;
      }
    }
  }

  /** The reported percentage is at most a hundred, or was recorded on one level, or some fall is larger. */
  lemma {:induction false} ReportedOnOneLevel(curve: seq<real>) returns (i: nat, j: nat)
    requires curve != []
    ensures 0.0 <= OnOneLevel(curve) <= LargestPercent(curve)
    ensures || LargestPercent(curve) <= 100.0 || OnOneLevel(curve) == LargestPercent(curve)
            || (i <= j < |curve| && Percent(curve[i], curve[j]) > LargestPercent(curve))
  {
    var last := |curve| - 1;
    i, j := 0, 0;
    if last > 0 {
      i, j := ReportedOnOneLevel(curve[..last]);
      if LargestPercent(curve[..last]) < Percent(Peak(curve), curve[last]) {
        var low := LowestStartIsLowest(curve);
        var top := PeakIsLargest(curve);
        AboveHundred(Peak(curve), curve[last]);
        if LowestStart(curve) < Peak(curve) && LowestStart(curve) > 0.0 && curve[last] < 0.0 {
          PercentFallsWithStart(LowestStart(curve), Peak(curve), curve[last]);
        }
        i, j := low, last;
      }
    }
    hide Percent, Peak, LowestStart;
  }

  /** More than a hundred percent can only be lost below zero. */
  lemma AboveHundred(peak: real, equity: real)
    ensures Percent(peak, equity) > 100.0 ==> peak > 0.0 && equity < 0.0
  {
    if peak > 0.0 {
      PercentIsShare(peak, equity);
      if equity >= 0.0 { DivMono(0.0, equity, peak); }
    }
  }

  /**
     Over the whole curve: the percentage is the largest fall of all exactly when what is hidden after a second
     positive level is no more than what was recorded before it.
     */
  lemma LargestPercentIsExact(curve: seq<real>)
    requires curve != []
    ensures (forall i, j :: 0 <= i <= j < |curve| ==> Percent(curve[i], curve[j]) <= LargestPercent(curve))
            <==> Hidden(curve) <= OnOneLevel(curve)
  {
    hide Percent, LargestPercent, Hidden, OnOneLevel;
    var i, j := HiddenIsAFall(curve);
    var k, l := ReportedOnOneLevel(curve);
    if Hidden(curve) <= OnOneLevel(curve) {
      forall m, n | 0 <= m <= n < |curve| ensures Percent(curve[m], curve[n]) <= LargestPercent(curve) {
        FallsAreReportedOrHidden(curve, m, n);
      }
    }
  }

  // ---------------------------------------------------------------- the loops

  /** Both drawdown figures in one pass over the recorded equities. */
  method MeasureDrawdown(initialCapital: real, equities: seq<real>) returns (maxPercent: real, maxValue: real)
    ensures var curve := [initialCapital] + equities;
            maxPercent == LargestPercent(curve) && maxValue == LargestDrop(curve)
  {
    hide Percent;
    ghost var curve := [initialCapital] + equities;
    var peak := initialCapital;
    maxPercent, maxValue := 0.0, 0.0;
    for k := 0 to |equities|
      invariant peak == Peak(curve[..k + 1])
      invariant maxPercent == LargestPercent(curve[..k + 1]) && maxValue == LargestDrop(curve[..k + 1])
    {
      assert curve[..k + 2][..k + 1] == curve[..k + 1];
      var equity := equities[k];
      if equity > peak {
        peak := equity;
      }
      var drop, percent := peak - equity, Percent(peak, equity);
      if percent > maxPercent {
        maxPercent := percent;
      }
      if drop > maxValue {
        maxValue := drop;
      }
    }
    assert curve[..|equities| + 1] == curve;
  }

  /** The equity curve that a list of trade results draws. */
  function Curve(initialCapital: real, pnls: seq<real>): (curve: seq<real>)
    ensures |curve| == |pnls| + 1 && curve[0] == initialCapital
  {
    if pnls == [] then [initialCapital]
    else
      var earlier := Curve(initialCapital, pnls[..|pnls| - 1]);
      earlier + [earlier[|pnls| - 1] + pnls[|pnls| - 1]]
  }

  lemma {:induction false} CurveEndsAtTotal(initialCapital: real, pnls: seq<real>)
    ensures Curve(initialCapital, pnls)[|pnls|] == initialCapital + Sum(pnls)
  {
    if pnls != [] { CurveEndsAtTotal(initialCapital, pnls[..|pnls| - 1]); }
  }

  /** After k trades the equity is the capital plus the first k results. */
  lemma {:induction false} CurveIsRunningTotal(initialCapital: real, pnls: seq<real>, k: nat)
    requires k <= |pnls|
    ensures Curve(initialCapital, pnls)[k] == initialCapital + Sum(pnls[..k])
  {
    if k == |pnls| {
      assert pnls[..k] == pnls;
      CurveEndsAtTotal(initialCapital, pnls);
    } else {
      CurveIsRunningTotal(initialCapital, pnls[..|pnls| - 1], k);
      assert pnls[..|pnls| - 1][..k] == pnls[..k];
    }
  }

  /** Some trade took the equity down to the ruin level. */
  predicate Ruined(curve: seq<real>, level: real) {
    exists k :: 1 <= k < |curve| && curve[k] <= level
  }

  datatype Path = Path(terminal: real, maxPercent: real, ruined: bool, curve: seq<real>)

  /** Play one list of trade results. */
  method SimulatePath(initialCapital: real, pnls: seq<real>, ruinLevel: real) returns (path: Path)
    ensures path.curve == Curve(initialCapital, pnls)
    ensures path.terminal == initialCapital + Sum(pnls)
    ensures path.maxPercent == LargestPercent(path.curve)
    ensures path.ruined <==> Ruined(path.curve, ruinLevel)
  {
    hide Percent;
    var equity, peak, maxPercent, ruined := initialCapital, initialCapital, 0.0, false;
    var curve := [equity];
    for k := 0 to |pnls|
      invariant curve == Curve(initialCapital, pnls[..k]) && equity == curve[k]
      invariant peak == Peak(curve) && maxPercent == LargestPercent(curve)
      invariant ruined <==> Ruined(curve, ruinLevel)
    {
      ghost var before := curve;
      assert pnls[..k + 1][..k] == pnls[..k];
      equity := equity + pnls[k];
      if equity > peak {
        peak := equity;
      }
      var percent := Percent(peak, equity);
      if percent > maxPercent {
        maxPercent := percent;
      }
      if equity <= ruinLevel {
        ruined := true;
      }
      curve := curve + [equity];
      assert curve[..k + 1] == before;
      assert forall i :: 0 <= i <= k ==> curve[i] == before[i];
    }
    assert pnls[..|pnls|] == pnls;
    CurveEndsAtTotal(initialCapital, pnls);
    path := Path(equity, maxPercent, ruined, curve);
  }
}

/**
 How high a rejected strategy can score (backend/app/backtest/grading.py fed by backend/app/backtest/metrics.py).
 The verdict does not look at the score, so the score of a rejected card is bounded only through the links between
 the figures: one ceiling for each critical flaw, and none can be lowered.
 */
module ScorecardCeilings {
  import opened BacktestMetrics
  import opened Common
  import opened Drawdown
  import opened Grading

  /** A win rate is at most a hundred percent, which for short horizons is not yet a full score. */
  function BestWinScore(h: Horizon): real {
    GradeHigher(100.0, ProfileOf(h).winRate).score
  }

  /** Without a profit the annual growth scores nothing. */
  function ReturnCeiling(h: Horizon): real {
    70.0 + 0.15 * BestWinScore(h)
  }

  /** Beyond the drawdown gate the drawdown scores less than at the gate. */
  function DrawdownCeiling(h: Horizon): real {
    60.0 + 0.15 * BestWinScore(h) + 0.25 * GradeLower(ProfileOf(h).maxDrawdownGate, ProfileOf(h).drawdown).score
  }

  /** Below one the profit factor scores less than at one. */
  function ProfitFactorCeiling(h: Horizon): real {
    65.0 + 0.15 * BestWinScore(h) + 0.2 * GradeHigher(1.0, ProfileOf(h).profitFactor).score
  }

  /** The inputs that stand for powers and roots are what they should be. */
  ghost predicate Calculable(b: Backtest, power: real -> real, deviation: real, root: real) {
    b.initialCapital > 0.0 && IsPower(power) && IsDeviation(Returns(Equities(b)), deviation) && IsAnnualFactor(root)
  }

  /** The gate of every profile lies in the band graded poor or at its edge, as does a profit factor of one. */
  lemma WhereTheGatesLie(h: Horizon)
    ensures var p := ProfileOf(h);
            && Regular(p) && p.drawdown.acceptable <= p.maxDrawdownGate && p.maxDrawdownGate + 2.0 <= p.drawdown.poor
            && p.profitFactor.poor <= 1.0 && 1.01 <= p.profitFactor.acceptable
            && p.drawdown.poor - p.drawdown.acceptable >= 4.0
            && p.drawdown.excellent >= 2.0
            && (p.profitFactor.poor == 1.0
                || (p.profitFactor.poor == 0.95 && p.profitFactor.acceptable == 1.05))
            && p.sharpe.excellent <= 2.0 && p.profitFactor.excellent <= 2.0 && p.cagr.excellent <= 40.0
  {
    ProfilesAreRegular(h);
    match h
    case Intraday =>
    case Swing =>
    case Positional =>
    case Investment =>
  }

  // ---------------------------------------------------------------- the ceilings hold

  lemma DropsBeyondGate(t: Thresholds, gate: real, val: real)
    requires Rising(t) && t.acceptable <= gate < t.poor && gate < val
    ensures GradeLower(val, t).score < GradeLower(gate, t).score
  {
    LowerIsConsistent(val, t);
    LowerIsConsistent(gate, t);
    if val <= t.poor && gate > t.acceptable {
      StrictQuotient(t.poor - val, t.poor - gate, Max(MICRO, t.poor - t.acceptable));
    }
  }

  lemma StrictQuotient(x: real, y: real, d: real)
    requires x < y && d > 0.0
    ensures x / d < y / d
  {
    DivAtLeast(x, y / d, d);
    DivAtLeast(y, 0.0, d);
  }

  lemma FallsBelowOne(t: Thresholds, val: real)
    requires Falling(t) && t.poor <= 1.0 < t.acceptable && val < 1.0
    ensures GradeHigher(val, t).score < GradeHigher(1.0, t).score
  {
    HigherIsConsistent(val, t);
    HigherIsConsistent(1.0, t);
    if val >= t.poor {
      StrictQuotient(val - t.poor, 1.0 - t.poor, Max(MICRO, t.acceptable - t.poor));
    }
  }

  lemma NoGrowthScoresNothing(t: Thresholds, val: real)
    requires Falling(t) && val <= 0.0
    ensures GradeHigher(val, t).score == 0.0
  {
    QuotientGrows(val, Max(MICRO, t.poor), Max(MICRO, t.poor));
  }

  /** A card rejected for its return, its drawdown or its profit factor scores no more than that flaw's ceiling. */
  lemma RejectedScoresAreBounded(b: Backtest, power: real -> real, deviation: real, root: real, h: Horizon)
    requires Calculable(b, power, deviation, root)
    ensures var m := MetricsOf(b, power, deviation, root);
            && (m.totalReturn <= 0.0 ==> OverallScore(m, h) <= ReturnCeiling(h))
            && (m.maxDrawdown > ProfileOf(h).maxDrawdownGate ==> OverallScore(m, h) < DrawdownCeiling(h))
            && (m.profitFactor < 1.0 ==> OverallScore(m, h) < ProfitFactorCeiling(h))
  {
    hide GradeHigher, GradeLower, ProfileOf, TotalReturn, LargestPercent, Sharpe;
    hide BacktestMetrics.Cagr, BacktestMetrics.ProfitFactor, BacktestMetrics.WinRate;
    var m, p := MetricsOf(b, power, deviation, root), ProfileOf(h);
    WhereTheGatesLie(h);
    HigherIsConsistent(m.sharpe, p.sharpe);
    LowerIsConsistent(m.maxDrawdown, p.drawdown);
    HigherIsConsistent(m.profitFactor, p.profitFactor);
    HigherIsConsistent(m.cagr, p.cagr);
    WinRateInRange(b.realized);
    HigherIsMonotone(m.winRate, 100.0, p.winRate);
    ReturnsHaveOneSign(b, power);
    if m.totalReturn <= 0.0 { NoGrowthScoresNothing(p.cagr, m.cagr); }
    if m.maxDrawdown > p.maxDrawdownGate { DropsBeyondGate(p.drawdown, p.maxDrawdownGate, m.maxDrawdown); }
    if m.profitFactor < 1.0 { FallsBelowOne(p.profitFactor, m.profitFactor); }
  }

  /** No rejected card reaches a score of ninety. */
  lemma RejectedScoresBelowNinety(b: Backtest, power: real -> real, deviation: real, root: real, h: Horizon,
                                  minTrades: int, overfit: bool)
    requires Calculable(b, power, deviation, root)
    requires VerdictOf(MetricsOf(b, power, deviation, root), h, minTrades, overfit) == Reject
    ensures OverallScore(MetricsOf(b, power, deviation, root), h) < 90.0
  {
    hide OverallScore, MetricsOf, ReturnCeiling, DrawdownCeiling, ProfitFactorCeiling, ProfileOf;
    RejectedScoresAreBounded(b, power, deviation, root, h);
    CeilingsAtMostNinety(h);
  }

  lemma CeilingsAtMostNinety(h: Horizon)
    ensures ReturnCeiling(h) < 90.0 && DrawdownCeiling(h) <= 90.0 && ProfitFactorCeiling(h) <= 90.0
  {
    hide GradeLower, GradeHigher;
    var p := ProfileOf(h);
    HigherIsConsistent(100.0, p.winRate);
    GateScores(h);
  }

  /** What the gates themselves score. */
  lemma GateScores(h: Horizon)
    ensures GradeLower(ProfileOf(h).maxDrawdownGate, ProfileOf(h).drawdown).score <= 60.0
    ensures GradeHigher(1.0, ProfileOf(h).profitFactor).score <= 50.0
  {
    hide ProfileOf, GradeLower, GradeHigher;
    WhereTheGatesLie(h);
    GateScoresAtMost(ProfileOf(h).drawdown, ProfileOf(h).maxDrawdownGate, ProfileOf(h).profitFactor);
  }

  lemma GateScoresAtMost(d: Thresholds, gate: real, f: Thresholds)
    requires Rising(d) && d.acceptable <= gate < d.poor
    requires Falling(f) && (f.poor == 1.0 || (f.poor == 0.95 && f.acceptable == 1.05))
    ensures GradeLower(gate, d).score <= 60.0 && GradeHigher(1.0, f).score <= 50.0
  {
    LowerIsConsistent(gate, d);
    DivMono(0.0, 0.0, Max(MICRO, f.acceptable - f.poor));
  }

  // ---------------------------------------------------------------- the ceilings are reached

  /** Over 365 days nothing is annualised. */
  const SAME: real -> real := x => x

  lemma FullScore(val: real, t: Thresholds)
    requires t.excellent >= MICRO && val >= 2.0 * t.excellent
    ensures GradeHigher(val, t).score == 100.0
  {
    DivAtLeast(10.0 * (val - t.excellent), 10.0, t.excellent);
  }

  lemma AnnualFactorIsLarge(root: real)
    requires IsAnnualFactor(root)
    ensures root > 15.0
  {
    if root <= 15.0 {
      MulMono(root, 15.0, root);
      MulMono(root, 15.0, 15.0);
      assert false;
    }
  }

  lemma CurveSnoc(curve: seq<real>, x: real)
    requires curve != []
    ensures Peak(curve + [x]) == Max(Peak(curve), x)
    ensures LargestPercent(curve + [x]) == Max(LargestPercent(curve), Percent(Peak(curve + [x]), x))
  {
    assert (curve + [x])[..|curve|] == curve;
  }

  lemma ReturnsSnoc(equities: seq<real>, x: real)
    requires equities != []
    ensures Returns(equities + [x]) == Returns(equities) + [Change(equities[|equities| - 1], x)]
  {
    hide Change;
    assert (equities + [x])[..|equities|] == equities;
  }

  /** An equity that grows at a rate. */
  function Grow(a: real, rate: real): real {
    a * (1.0 + rate)
  }

  /** Four equities and the three changes between them. */
  lemma ThreeChanges(a: real, r1: real, r2: real, r3: real)
    requires a > 0.0 && r1 > 0.0 && r2 > 0.0 && r3 > 0.0
    ensures var b := Grow(a, r1);
            var c := Grow(b, r2);
            var d := Grow(c, r3);
            0.0 < a < b < c < d && Returns([a, b, c, d]) == [r1, r2, r3]
  {
    hide Grow, Change, Returns;
    var b := Grow(a, r1);
    var c := Grow(b, r2);
    ChangeOf(a, r1);
    ChangeOf(b, r2);
    ChangeOf(c, r3);
    FourReturns(a, b, c, Grow(c, r3));
  }

  lemma FourReturns(a: real, b: real, c: real, d: real)
    ensures Returns([a, b, c, d]) == [Change(a, b), Change(b, c), Change(c, d)]
  {
    hide Change;
    ReturnsSnoc([a], b);
    ReturnsSnoc([a, b], c);
    ReturnsSnoc([a, b, c], d);
    assert [a] + [b] == [a, b] && [a, b] + [c] == [a, b, c] && [a, b, c] + [d] == [a, b, c, d];
  }

  lemma ChangeOf(a: real, r: real)
    requires a > 0.0 && r > 0.0
    ensures Grow(a, r) > a && Change(a, Grow(a, r)) == r
  {
    MulMonoStrict(0.0, r, a);
    assert a * (1.0 + r) - a == r * a;
    assert ((a * (1.0 + r) - a) / a - r) * a == 0.0;
  }

  lemma SumsSnoc(s: seq<real>, x: real, from: real)
    ensures Sum(s + [x]) == Sum(s) + x
    ensures SquaredDistances(s + [x], from) == SquaredDistances(s, from) + (x - from) * (x - from)
  {
    assert (s + [x])[..|s|] == s;
  }

  lemma ThreeSums(x: real, y: real, z: real, from: real)
    ensures Sum([x, y, z]) == x + y + z
    ensures SquaredDistances([x, y, z], from) == (x - from) * (x - from) + (y - from) * (y - from)
            + (z - from) * (z - from)
  {
    SumsSnoc([], x, from);
    SumsSnoc([x], y, from);
    SumsSnoc([x, y], z, from);
    assert [] + [x] == [x] && [x] + [y] == [x, y] && [x, y] + [z] == [x, y, z];
    assert Sum([]) == 0.0 && SquaredDistances([], from) == 0.0;
    hide Sum, SquaredDistances;
  }

  /** Three evenly spaced changes around m, d apart, deviate by d. */
  lemma EvenChanges(m: real, d: real)
    requires d >= 0.0
    ensures Mean([m - d, m, m + d]) == m && IsDeviation([m - d, m, m + d], d)
  {
    ThreeSums(m - d, m, m + d, m);
  }

  /** From a capital of 100 a first recorded equity, then growth. */
  function Climb(first: real, m: real, d: real, realized: seq<real>): Backtest {
    var b := Grow(first, m - d);
    var c := Grow(b, m);
    Backtest(100.0, [first, b, c, Grow(c, m + d)], 0.0, realized, 100)
  }

  /** Its Sharpe ratio is full, and its drawdown is the first step. */
  lemma ClimbIsSteady(first: real, m: real, d: real, realized: seq<real>, root: real)
    requires 0.0 < first <= 100.0 && 0.0 < d && m >= d * 2.0 && d > FLAT_DEVIATION && IsAnnualFactor(root)
    ensures var b := Climb(first, m, d, realized);
            && Returns(Equities(b)) == [m - d, m, m + d] && IsDeviation(Returns(Equities(b)), d)
            && Sharpe(Returns(Equities(b)), d, root) >= 4.0
            && LargestPercent([100.0] + Equities(b)) == 100.0 - first
            && b.curve[3] > first
  {
    var b := Climb(first, m, d, realized);
    ThreeChanges(first, m - d, m, m + d);
    hide Grow, Returns, LargestPercent, Mean, IsDeviation, Sharpe;
    EvenChanges(m, d);
    SteadySharpe(m, d, root);
    ClimbDrawdown(first, b.curve[1], b.curve[2], b.curve[3]);
    assert [100.0] + Equities(b) == [100.0, first, b.curve[1], b.curve[2], b.curve[3]];
  }

  lemma SteadySharpe(m: real, d: real, root: real)
    requires d > FLAT_DEVIATION && m >= d * 2.0 && IsAnnualFactor(root)
    ensures Sharpe([m - d, m, m + d], d, root) >= 4.0
  {
    EvenChanges(m, d);
    hide Mean;
    AnnualFactorIsLarge(root);
    DivAtLeast(m, 2.0, d);
    MulMono(2.0, m / d, root);
  }

  lemma ClimbDrawdown(a: real, b: real, c: real, d: real)
    requires 0.0 < a <= b <= c <= d && a <= 100.0
    ensures LargestPercent([100.0, a, b, c, d]) == 100.0 - a
  {
    CurveSnoc([100.0], a);
    CurveSnoc([100.0, a], b);
    CurveSnoc([100.0, a, b], c);
    CurveSnoc([100.0, a, b, c], d);
    assert [100.0] + [a] == [100.0, a] && [100.0, a] + [b] == [100.0, a, b];
    assert [100.0, a, b] + [c] == [100.0, a, b, c] && [100.0, a, b, c] + [d] == [100.0, a, b, c, d];
    LaterFallsAreSmaller(a, b);
    LaterFallsAreSmaller(a, c);
    LaterFallsAreSmaller(a, d);
  }

  lemma LaterFallsAreSmaller(low: real, later: real)
    requires 0.0 < low <= later && low <= 100.0
    ensures Percent(100.0, low) == 100.0 - low && Percent(Max(100.0, later), later) <= 100.0 - low
  {
    if later > 100.0 { NoFall(later); }
  }

  /** One winning position and an open one: a win rate of a hundred percent, and the profit as the factor. */
  lemma OneWinner(profit: real)
    requires profit > 0.0
    ensures BacktestMetrics.WinRate([profit, 0.0]) == 100.0 && BacktestMetrics.ProfitFactor([profit, 0.0]) == profit
  {
    assert [profit, 0.0][..1] == [profit] && [profit][..0] == [];
    assert Winners([]) == 0 && Losers([]) == 0 && GrossProfit([]) == 0.0 && GrossLoss([]) == 0.0;
    assert Winners([profit]) == 1 && Losers([profit]) == 0;
    assert GrossProfit([profit]) == profit && GrossLoss([profit]) == 0.0;
    assert Winners([profit, 0.0]) == 1 && Losers([profit, 0.0]) == 0;
    assert GrossProfit([profit, 0.0]) == profit && GrossLoss([profit, 0.0]) == 0.0;
  }

  /** The figures of such a backtest. */
  lemma ClimbFigures(first: real, m: real, d: real, profit: real, root: real)
    requires 0.0 < first <= 100.0 && 0.0 < d && m >= d * 2.0 && d > FLAT_DEVIATION && IsAnnualFactor(root)
             && profit > 0.0
    ensures var b := Climb(first, m, d, [profit, 0.0]);
            var x := MetricsOf(b, SAME, d, root);
            && Calculable(b, SAME, d, root)
            && x.sharpe >= 4.0 && x.winRate == 100.0 && x.profitFactor == profit && x.maxDrawdown == 100.0 - first
            && x.totalReturn == b.curve[3] - 100.0 && x.cagr == b.curve[3] - 100.0
  {
    var b := Climb(first, m, d, [profit, 0.0]);
    ClimbIsSteady(first, m, d, [profit, 0.0], root);
    OneWinner(profit);
    hide LargestPercent, Sharpe, Returns, BacktestMetrics.WinRate, BacktestMetrics.ProfitFactor;
    assert FinalEquity(b) == b.curve[3];
    assert BacktestMetrics.Cagr(b, SAME) == b.curve[3] - 100.0;
  }

  /** The backtest can be played on a portfolio with a capital of 100: one closed position, and one that climbs. */
  ghost predicate Playable(b: Backtest) {
    exists first, m, d, profit :: profit > 0.0 && b == Climb(first, m, d, [profit, 0.0])
  }

  /** What it scores in the figures a flaw does not touch. */
  lemma FullScores(first: real, m: real, d: real, profit: real, root: real, h: Horizon)
    requires 0.0 < first <= 100.0 && 0.0 < d && m >= d * 2.0 && d > FLAT_DEVIATION && IsAnnualFactor(root)
             && profit > 0.0
    ensures var b := Climb(first, m, d, [profit, 0.0]);
            var x, p := MetricsOf(b, SAME, d, root), ProfileOf(h);
            && Calculable(b, SAME, d, root)
            && GradeHigher(x.sharpe, p.sharpe).score == 100.0
            && GradeHigher(x.winRate, p.winRate).score == BestWinScore(h)
            && x.maxDrawdown == 100.0 - first && x.profitFactor == profit
            && (first >= 98.0 ==> GradeLower(x.maxDrawdown, p.drawdown).score == 100.0)
            && (profit >= 4.0 ==> GradeHigher(x.profitFactor, p.profitFactor).score == 100.0)
            && x.totalReturn == b.curve[3] - 100.0 && x.cagr == b.curve[3] - 100.0
            && (b.curve[3] >= 180.0 ==> GradeHigher(x.cagr, p.cagr).score == 100.0)
  {
    hide GradeHigher, ProfileOf, MetricsOf, Calculable;
    var b := Climb(first, m, d, [profit, 0.0]);
    var x, p := MetricsOf(b, SAME, d, root), ProfileOf(h);
    WhereTheGatesLie(h);
    ClimbFigures(first, m, d, profit, root);
    FullScore(x.sharpe, p.sharpe);
    if profit >= 4.0 { FullScore(profit, p.profitFactor); }
    if b.curve[3] >= 180.0 { FullScore(x.cagr, p.cagr); }
  }

  /** A loss of half a percent with everything else perfect scores the ceiling exactly. */
  lemma ReturnCeilingIsReached(h: Horizon, root: real) returns (b: Backtest, deviation: real)
    requires IsAnnualFactor(root)
    ensures Calculable(b, SAME, deviation, root) && Playable(b)
    ensures var m := MetricsOf(b, SAME, deviation, root);
            && m.totalReturn < 0.0 && m.maxDrawdown <= ProfileOf(h).maxDrawdownGate && m.profitFactor >= 1.0
            && OverallScore(m, h) == ReturnCeiling(h)
  {
    deviation := 0.001;
    b := Climb(98.0, 0.005, deviation, [1000.0, 0.0]);
    FullScores(98.0, 0.005, deviation, 1000.0, root, h);
    hide GradeHigher, GradeLower, ProfileOf, MetricsOf;
    WhereTheGatesLie(h);
    NoGrowthScoresNothing(ProfileOf(h).cagr, b.curve[3] - 100.0);
  }

  /** A drawdown just beyond the gate, with everything else perfect, comes as close to the ceiling as one likes. */
  lemma DrawdownCeilingIsApproached(h: Horizon, root: real, target: real) returns (b: Backtest, deviation: real)
    requires IsAnnualFactor(root) && target < DrawdownCeiling(h)
    ensures Calculable(b, SAME, deviation, root) && Playable(b)
    ensures var m := MetricsOf(b, SAME, deviation, root);
            && m.totalReturn > 0.0 && m.maxDrawdown > ProfileOf(h).maxDrawdownGate && m.profitFactor >= 1.0
            && OverallScore(m, h) > target
  {
    var p := ProfileOf(h);
    var beyond := Min(1.0, (DrawdownCeiling(h) - target) / 2.0);
    var first := 100.0 - p.maxDrawdownGate - beyond;
    deviation := 1.0;
    b := Climb(first, 2.0, deviation, [1000.0, 0.0]);
    GateIsWithin(h);
    FullScores(first, 2.0, deviation, 1000.0, root, h);
    hide GradeHigher, GradeLower, ProfileOf, MetricsOf;
    WhereTheGatesLie(h);
    LittleBeyondTheGate(p.drawdown, p.maxDrawdownGate, beyond);
  }

  lemma GateIsWithin(h: Horizon)
    ensures 10.0 <= ProfileOf(h).maxDrawdownGate <= 40.0
  {
  }

  lemma LittleBeyondTheGate(t: Thresholds, gate: real, beyond: real)
    requires Rising(t) && t.acceptable <= gate && t.poor - t.acceptable >= 4.0 && 0.0 < beyond <= 1.0
             && gate + 2.0 <= t.poor
    ensures GradeLower(gate + beyond, t).score >= GradeLower(gate, t).score - 5.0 * beyond
  {
    var width := t.poor - t.acceptable;
    DivAtLeast(beyond, 0.0, width);
    QuotientGrows(beyond, width, 4.0);
    QuotientsSubtract(t.poor - gate, beyond, width);
    if gate == t.acceptable {
      LowerIsConsistent(gate, t);
      assert GradeLower(gate, t).score == 60.0;
      DivMono(width, width, width);
    }
  }

  lemma QuotientsSubtract(x: real, y: real, d: real)
    requires d > 0.0
    ensures (x - y) / d == x / d - y / d
  {
    assert ((x - y) / d - (x / d - y / d)) * d == 0.0;
  }

  /** A single winning position that earned just under one unit of money, and everything else perfect. */
  lemma ProfitFactorCeilingIsApproached(h: Horizon, root: real, target: real) returns (b: Backtest, deviation: real)
    requires IsAnnualFactor(root) && target < ProfitFactorCeiling(h)
    ensures Calculable(b, SAME, deviation, root) && Playable(b)
    ensures var m := MetricsOf(b, SAME, deviation, root);
            && m.totalReturn > 0.0 && m.maxDrawdown <= ProfileOf(h).maxDrawdownGate && m.profitFactor < 1.0
            && OverallScore(m, h) > target
  {
    var p := ProfileOf(h);
    var short := Min(0.01, (ProfitFactorCeiling(h) - target) / 50.0);
    deviation := 1.0;
    b := Climb(98.0, 2.0, deviation, [1.0 - short, 0.0]);
    GateIsWithin(h);
    FullScores(98.0, 2.0, deviation, 1.0 - short, root, h);
    hide GradeHigher, GradeLower, ProfileOf, MetricsOf;
    WhereTheGatesLie(h);
    LittleBelowOne(p.profitFactor, short);
  }

  lemma LittleBelowOne(t: Thresholds, short: real)
    requires Falling(t) && 0.0 < short <= 0.01
    requires (t.poor == 1.0 && t.acceptable > 1.0) || (t.poor == 0.95 && t.acceptable == 1.05)
    ensures GradeHigher(1.0 - short, t).score >= GradeHigher(1.0, t).score - 200.0 * short
  {
    if t.poor == 1.0 {
      DivMono(0.0, 0.0, Max(MICRO, t.acceptable - t.poor));
    }
  }
}

/**
 Strategy scorecard: metric grading, horizon profiles and deployment gates (backend/app/backtest/grading.py).
 Message texts and the time stamp are left out.
 */
module Grading {
  import opened BacktestMetrics
  import opened Common

  datatype Grade = Excellent | Good | Acceptable | Poor | Rejected

  datatype Thresholds = Thresholds(excellent: real, good: real, acceptable: real, poor: real)

  datatype Graded = Graded(grade: Grade, score: real)

  const MICRO := 0.000001

  /** A metric of which more is better. */
  function GradeHigher(val: real, t: Thresholds): Graded {
    if val >= t.excellent then
      var score := 90.0 + Min(10.0, 10.0 * (val - t.excellent) / Max(MICRO, t.excellent));
      Graded(Excellent, Min(100.0, score))
    else if val >= t.good then
      Graded(Good, 75.0 + 15.0 * ((val - t.good) / Max(MICRO, t.excellent - t.good)))
    else if val >= t.acceptable then
      Graded(Acceptable, 60.0 + 15.0 * ((val - t.acceptable) / Max(MICRO, t.good - t.acceptable)))
    else if val >= t.poor then
      Graded(Poor, 40.0 + 20.0 * ((val - t.poor) / Max(MICRO, t.acceptable - t.poor)))
    else
      Graded(Rejected, 40.0 * Max(0.0, val / Max(MICRO, t.poor)))
  }

  /** A metric of which less is better. */
  function GradeLower(val: real, t: Thresholds): Graded {
    if val <= t.excellent then
      Graded(Excellent, 100.0)
    else if val <= t.good then
      Graded(Good, 75.0 + 15.0 * ((t.good - val) / Max(MICRO, t.good - t.excellent)))
    else if val <= t.acceptable then
      Graded(Acceptable, 60.0 + 15.0 * ((t.acceptable - val) / Max(MICRO, t.acceptable - t.good)))
    else if val <= t.poor then
      Graded(Poor, 40.0 + 20.0 * ((t.poor - val) / Max(MICRO, t.poor - t.acceptable)))
    else
      Graded(Rejected, Max(0.0, 40.0 - 20.0 * ((val - t.poor) / Max(MICRO, t.poor))))
  }

  // ---------------------------------------------------------------- grades and scores agree

  /** The grade a score between 0 and 100 belongs to: the bands leave no gap and do not overlap. */
  function GradeOfScore(score: real): Grade {
    if score >= 90.0 then Excellent
    else if score >= 75.0 then Good
    else if score >= 60.0 then Acceptable
    else if score >= 40.0 then Poor
    else Rejected
  }

  ghost predicate Consistent(g: Graded) {
    0.0 <= g.score <= 100.0 && g.grade == GradeOfScore(g.score)
  }

  /** A fraction of a gap, measured from one end, while the other end is not reached. */
  lemma FractionBelowOne(part: real, gap: real)
    requires 0.0 <= part < gap
    ensures 0.0 <= part / Max(MICRO, gap) < 1.0
  {
    var d := Max(MICRO, gap);
    DivMono(0.0, part, d);
    DivAtLeast(part, 1.0, d);
  }

  /** For any thresholds the score lies in [0, 100] and in the band of its grade. */
  lemma HigherIsConsistent(val: real, t: Thresholds)
    ensures Consistent(GradeHigher(val, t))
  {
    if val >= t.excellent {
      DivMono(0.0, 10.0 * (val - t.excellent), Max(MICRO, t.excellent));
    } else if val >= t.good {
      FractionBelowOne(val - t.good, t.excellent - t.good);
    } else if val >= t.acceptable {
      FractionBelowOne(val - t.acceptable, t.good - t.acceptable);
    } else if val >= t.poor {
      FractionBelowOne(val - t.poor, t.acceptable - t.poor);
    } else {
      DivAtLeast(val, 1.0, Max(MICRO, t.poor));
    }
  }

  lemma LowerIsConsistent(val: real, t: Thresholds)
    ensures Consistent(GradeLower(val, t))
  {
    if t.excellent < val <= t.good {
      FractionBelowOne(t.good - val, t.good - t.excellent);
    } else if t.excellent < val && t.good < val <= t.acceptable {
      FractionBelowOne(t.acceptable - val, t.acceptable - t.good);
    } else if t.excellent < val && t.good < val && t.acceptable < val <= t.poor {
      FractionBelowOne(t.poor - val, t.poor - t.acceptable);
    } else if val > t.excellent {
      PositiveFraction(val - t.poor, Max(MICRO, t.poor));
    }
  }

  lemma PositiveFraction(x: real, d: real)
    requires x > 0.0 && d > 0.0
    ensures x / d > 0.0
  {
    DivAtLeast(0.0, x / d, d);
  }

  lemma InsideGap(share: real, gap: real)
    requires gap >= MICRO && 0.0 <= share < 1.0
    ensures 0.0 <= Product(share, gap) < gap && Product(share, gap) / Max(MICRO, gap) == share
  {
    MulMono(0.0, share, gap);
    MulMonoStrict(share, 1.0, gap);
    DivAtLeast(share * gap, share, gap);
    assert (share * gap / gap - share) * gap == 0.0;
  }

  /** Between two thresholds the score runs in a straight line from the edge of the band to the next one. */
  lemma HigherInterpolates(t: Thresholds, share: real, val: real)
    requires Falling(t) && 0.0 <= share < 1.0
    ensures val == t.good + Product(share, t.excellent - t.good)
            ==> GradeHigher(val, t) == Graded(Good, 75.0 + 15.0 * share)
    ensures val == t.acceptable + Product(share, t.good - t.acceptable) ==>
              GradeHigher(val, t) == Graded(Acceptable, 60.0 + 15.0 * share)
    ensures val == t.poor + Product(share, t.acceptable - t.poor)
            ==> GradeHigher(val, t) == Graded(Poor, 40.0 + 20.0 * share)
    ensures val == Product(share, t.poor) ==> GradeHigher(val, t) == Graded(Rejected, 40.0 * share)
    ensures val == t.excellent + Product(share, t.excellent)
            ==> GradeHigher(val, t) == Graded(Excellent, 90.0 + 10.0 * share)
  {
    hide Product;
    InsideGap(share, t.excellent - t.good);
    InsideGap(share, t.good - t.acceptable);
    InsideGap(share, t.acceptable - t.poor);
    InsideGap(share, t.poor);
    InsideGap(share, t.excellent);
    TenTimes(Product(share, t.excellent), Max(MICRO, t.excellent));
  }

  lemma TenTimes(x: real, d: real)
    requires d > 0.0
    ensures 10.0 * x / d == 10.0 * (x / d)
  {
    DivAtLeast(x, 0.0, d);
    DivAtLeast(10.0 * x, 0.0, d);
    assert (10.0 * x / d - 10.0 * (x / d)) * d == 0.0;
  }

  lemma LowerInterpolates(t: Thresholds, share: real, val: real)
    requires Rising(t) && 0.0 <= share < 1.0
    ensures val == t.good - Product(share, t.good - t.excellent)
            ==> GradeLower(val, t) == Graded(Good, 75.0 + 15.0 * share)
    ensures val == t.acceptable - Product(share, t.acceptable - t.good) ==>
              GradeLower(val, t) == Graded(Acceptable, 60.0 + 15.0 * share)
    ensures val == t.poor - Product(share, t.poor - t.acceptable)
            ==> GradeLower(val, t) == Graded(Poor, 40.0 + 20.0 * share)
    ensures val == t.poor + Product(share, t.poor) && share > 0.0
            ==> GradeLower(val, t) == Graded(Rejected, 40.0 - 20.0 * share)
  {
    hide Product;
    InsideGap(share, t.good - t.excellent);
    InsideGap(share, t.acceptable - t.good);
    InsideGap(share, t.poor - t.acceptable);
    InsideGap(share, t.poor);
    if share > 0.0 { MoreThanNothing(share, t.poor); }
  }

  lemma MoreThanNothing(share: real, gap: real)
    requires share > 0.0 && gap > 0.0
    ensures Product(share, gap) > 0.0
  {
    MulMonoStrict(0.0, share, gap);
  }

  // ---------------------------------------------------------------- better values, better scores

  /** A larger value never scores lower, across all branch boundaries. */
  lemma HigherIsMonotone(v1: real, v2: real, t: Thresholds)
    requires v1 <= v2
    ensures GradeHigher(v1, t).score <= GradeHigher(v2, t).score
  {
    HigherIsConsistent(v1, t);
    HigherIsConsistent(v2, t);
    if GradeHigher(v1, t).grade == GradeHigher(v2, t).grade {
      match GradeHigher(v1, t).grade
      case Excellent => DivMono(10.0 * (v1 - t.excellent), 10.0 * (v2 - t.excellent), Max(MICRO, t.excellent));
      case Good => DivMono(v1 - t.good, v2 - t.good, Max(MICRO, t.excellent - t.good));
      case Acceptable => DivMono(v1 - t.acceptable, v2 - t.acceptable, Max(MICRO, t.good - t.acceptable));
      case Poor => DivMono(v1 - t.poor, v2 - t.poor, Max(MICRO, t.acceptable - t.poor));
      case Rejected => DivMono(v1, v2, Max(MICRO, t.poor));
    }
  }

  lemma LowerIsMonotone(v1: real, v2: real, t: Thresholds)
    requires v1 <= v2
    ensures GradeLower(v1, t).score >= GradeLower(v2, t).score
  {
    LowerIsConsistent(v1, t);
    LowerIsConsistent(v2, t);
    if GradeLower(v1, t).grade == GradeLower(v2, t).grade {
      match GradeLower(v1, t).grade
      case Excellent =>
      case Good => DivMono(t.good - v2, t.good - v1, Max(MICRO, t.good - t.excellent));
      case Acceptable => DivMono(t.acceptable - v2, t.acceptable - v1, Max(MICRO, t.acceptable - t.good));
      case Poor => DivMono(t.poor - v2, t.poor - v1, Max(MICRO, t.poor - t.acceptable));
      case Rejected => DivMono(v1 - t.poor, v2 - t.poor, Max(MICRO, t.poor));
    }
  }

  // ---------------------------------------------------------------- easier thresholds, better scores

  /** Thresholds for "more is better": falling, positive and further apart than the guard of the division. */
  predicate Falling(t: Thresholds) {
    && t.excellent - t.good >= MICRO && t.good - t.acceptable >= MICRO
    && t.acceptable - t.poor >= MICRO && t.poor >= MICRO
  }

  predicate Rising(t: Thresholds) {
    && t.good - t.excellent >= MICRO && t.acceptable - t.good >= MICRO
    && t.poor - t.acceptable >= MICRO && t.excellent >= 0.0
  }

  /** No threshold of `t` lies below that of `u`. */
  predicate AtLeast(t: Thresholds, u: Thresholds) {
    t.excellent >= u.excellent && t.good >= u.good && t.acceptable >= u.acceptable && t.poor >= u.poor
  }

  /** a/(a+b) grows when a grows and b shrinks. */
  lemma ShareGrows(a: real, b: real, a': real, b': real)
    requires 0.0 <= a <= a' && 0.0 <= b' <= b && a + b > 0.0 && a' + b' > 0.0
    ensures a / (a + b) <= a' / (a' + b')
  {
    CrossProducts(a, b, a', b');
    var r := a / (a + b);
    DivAtLeast(a, r, a + b);
    DivAtLeast(a', r, a' + b');
    Scaled(a, a + b, a', a' + b', r);
  }

  lemma CrossProducts(a: real, b: real, a': real, b': real)
    requires 0.0 <= a <= a' && 0.0 <= b' <= b
    ensures a * (a' + b') <= a' * (a + b)
  {
    MulMono(b', b, a);
    MulMono(a, a', b);
  }

  lemma Scaled(a: real, s: real, a': real, s': real, r: real)
    requires r * s == a && s > 0.0 && a * s' <= a' * s
    ensures r * s' <= a'
  {
    assert r * s' * s == a * s';
    if r * s' > a' { MulMonoStrict(a', r * s', s); }
  }

  /** Lower demands never lower the score. */
  lemma EasierHigher(val: real, t: Thresholds, u: Thresholds)
    requires Falling(t) && Falling(u) && AtLeast(t, u)
    ensures GradeHigher(val, t).score <= GradeHigher(val, u).score
  {
    HigherIsConsistent(val, t);
    HigherIsConsistent(val, u);
    if GradeHigher(val, t).grade == GradeHigher(val, u).grade {
      match GradeHigher(val, t).grade
      case Excellent => ExcessGrows(val, t.excellent, u.excellent);
      case Good => ShareGrows(val - t.good, t.excellent - val, val - u.good, u.excellent - val);
      case Acceptable => ShareGrows(val - t.acceptable, t.good - val, val - u.acceptable, u.good - val);
      case Poor => ShareGrows(val - t.poor, t.acceptable - val, val - u.poor, u.acceptable - val);
      case Rejected => QuotientGrows(val, t.poor, u.poor);
    }
  }

  /** Higher allowances never lower the score. */
  lemma EasierLower(val: real, t: Thresholds, u: Thresholds)
    requires Rising(t) && Rising(u) && AtLeast(u, t)
    ensures GradeLower(val, t).score <= GradeLower(val, u).score
  {
    LowerIsConsistent(val, t);
    LowerIsConsistent(val, u);
    if GradeLower(val, t).grade == GradeLower(val, u).grade {
      match GradeLower(val, t).grade
      case Excellent =>
      case Good => ShareGrows(t.good - val, val - t.excellent, u.good - val, val - u.excellent);
      case Acceptable => ShareGrows(t.acceptable - val, val - t.good, u.acceptable - val, val - u.good);
      case Poor => ShareGrows(t.poor - val, val - t.acceptable, u.poor - val, val - u.acceptable);
      case Rejected => RelativeExcess(val, t.poor, u.poor);
    }
  }

  lemma QuotientGrows(x: real, d: real, d': real)
    requires 0.0 < d' <= d
    ensures x >= 0.0 ==> 0.0 <= x / d <= x / d'
    ensures x <= 0.0 ==> x / d <= 0.0 && x / d' <= 0.0
  {
    if x >= 0.0 {
      DivMono(0.0, x, d);
      DivAtLeast(x, x / d, d);
      DivAtLeast(x, x / d, d');
      MulMono(d', d, x / d);
    }
    if x <= 0.0 {
      DivMono(x, 0.0, d);
      DivMono(x, 0.0, d');
    }
  }

  lemma ExcessGrows(val: real, e: real, e': real)
    requires 0.0 < e' <= e <= val
    ensures 10.0 * (val - e) / e <= 10.0 * (val - e') / e'
  {
    QuotientGrows(10.0 * (val - e), e, e');
    DivMono(10.0 * (val - e), 10.0 * (val - e'), e');
  }

  lemma RelativeExcess(val: real, p: real, p': real)
    requires 0.0 < p <= p' < val
    ensures (val - p') / p' <= (val - p) / p
  {
    QuotientGrows(val - p', p', p);
    DivMono(val - p', val - p, p);
  }

  // ---------------------------------------------------------------- profiles

  datatype Horizon = Intraday | Swing | Positional | Investment

  datatype Profile = Profile(
    sharpe: Thresholds,
    drawdown: Thresholds,
    winRate: Thresholds,
    profitFactor: Thresholds,
    cagr: Thresholds,
    maxDrawdownGate: real,
    minSharpeGate: real)

  function ProfileOf(h: Horizon): Profile {
    match h
    case Intraday =>
      Profile(Thresholds(2.0, 1.5, 1.0, 0.5), Thresholds(3.0, 5.0, 8.0, 12.0), Thresholds(60.0, 50.0, 45.0, 40.0),
              Thresholds(2.0, 1.5, 1.2, 1.0), Thresholds(40.0, 25.0, 15.0, 8.0), 10.0, 1.0)
    case Swing =>
      Profile(Thresholds(1.5, 1.2, 0.8, 0.4), Thresholds(8.0, 15.0, 20.0, 25.0), Thresholds(55.0, 45.0, 40.0, 35.0),
              Thresholds(1.8, 1.4, 1.15, 1.0), Thresholds(30.0, 20.0, 12.0, 6.0), 20.0, 0.8)
    case Positional =>
      Profile(Thresholds(1.2, 1.0, 0.7, 0.3), Thresholds(12.0, 20.0, 28.0, 35.0), Thresholds(50.0, 40.0, 35.0, 30.0),
              Thresholds(1.6, 1.3, 1.1, 1.0), Thresholds(25.0, 18.0, 12.0, 5.0), 30.0, 0.6)
    case Investment =>
      Profile(Thresholds(1.0, 0.8, 0.5, 0.2), Thresholds(15.0, 25.0, 35.0, 45.0), Thresholds(45.0, 38.0, 32.0, 25.0),
              Thresholds(1.5, 1.25, 1.05, 0.95), Thresholds(22.0, 15.0, 10.0, 4.0), 40.0, 0.4)
  }

  function Length(h: Horizon): nat {
    match h case Intraday => 0 case Swing => 1 case Positional => 2 case Investment => 3
  }

  // ---------------------------------------------------------------- the scorecard

  datatype MetricName = SharpeRatio | MaxDrawdown | ProfitFactor | WinRate | Cagr

  datatype MetricScore = MetricScore(name: MetricName, value: real, graded: Graded, weight: real)

  datatype GateName = PositiveReturn | MaxDrawdownGate | MinimumSharpe | SampleSize

  datatype Gate = Gate(name: GateName, passed: bool, threshold: real, actual: real)

  datatype Flag = LowTradeCount | ExcessiveDrawdown | PoorRiskReward | OverfittingDetected | AuditWarning(text: string)

  datatype Verdict = Deployable | Investigate | Reject

  datatype OverfittingReport = OverfittingReport(isOverfit: bool, warnings: seq<string>)

  datatype Scorecard = Scorecard(
    score: real,
    grade: Grade,
    verdict: Verdict,
    metrics: seq<MetricScore>,
    flags: seq<Flag>,
    gates: seq<Gate>)

  function Weighted(scores: seq<MetricScore>): real {
    if scores == [] then 0.0
    else Weighted(scores[..|scores| - 1]) + scores[|scores| - 1].graded.score * scores[|scores| - 1].weight
  }

  /** The weighted average of the five metric scores. */
  function OverallScore(m: Metrics, h: Horizon): real {
    var p := ProfileOf(h);
    0.25 * GradeHigher(m.sharpe, p.sharpe).score
    + 0.25 * GradeLower(m.maxDrawdown, p.drawdown).score
    + 0.2 * GradeHigher(m.profitFactor, p.profitFactor).score
    + 0.15 * GradeHigher(m.winRate, p.winRate).score
    + 0.15 * GradeHigher(m.cagr, p.cagr).score
  }

  function OverallGrade(score: real): Grade {
    if score >= 85.0 then Excellent
    else if score >= 70.0 then Good
    else if score >= 55.0 then Acceptable
    else if score >= 40.0 then Poor
    else Rejected
  }

  /** Flaws that reject a strategy outright. */
  predicate Critical(m: Metrics, h: Horizon) {
    m.totalReturn <= 0.0 || m.maxDrawdown > ProfileOf(h).maxDrawdownGate || m.profitFactor < 1.0
  }

  /** What a deployable strategy must show. */
  predicate Sound(m: Metrics, h: Horizon, minTrades: int, overfit: bool) {
    && m.totalReturn > 0.0
    && m.maxDrawdown <= ProfileOf(h).maxDrawdownGate
    && m.sharpe >= ProfileOf(h).minSharpeGate
    && m.trades >= minTrades
    && m.profitFactor >= 1.1
    && !overfit
  }

  predicate Overfit(report: Option<OverfittingReport>) {
    report.Some? && report.value.isOverfit
  }

  /** The metric scores in the order they are listed. */
  function MetricScores(m: Metrics, h: Horizon): seq<MetricScore> {
    var p := ProfileOf(h);
    [ MetricScore(SharpeRatio, m.sharpe, GradeHigher(m.sharpe, p.sharpe), 0.25),
      MetricScore(MaxDrawdown, m.maxDrawdown, GradeLower(m.maxDrawdown, p.drawdown), 0.25),
      MetricScore(ProfitFactor, m.profitFactor, GradeHigher(m.profitFactor, p.profitFactor), 0.2),
      MetricScore(WinRate, m.winRate, GradeHigher(m.winRate, p.winRate), 0.15),
      MetricScore(Cagr, m.cagr, GradeHigher(m.cagr, p.cagr), 0.15)]
  }

  /** Rejected for a critical flaw, deployable when sound, to be investigated otherwise. */
  function VerdictOf(m: Metrics, h: Horizon, minTrades: int, overfit: bool): Verdict {
    if Critical(m, h) then Reject else if Sound(m, h, minTrades, overfit) then Deployable else Investigate
  }

  method EvaluateStrategyScorecard(m: Metrics, h: Horizon, minTrades: int, report: Option<OverfittingReport>)
    returns (card: Scorecard)
    ensures card.score == OverallScore(m, h) && card.grade == OverallGrade(card.score)
    ensures card.grade.Excellent? <==> card.score >= 85.0
    ensures card.grade.Good? <==> 70.0 <= card.score < 85.0
    ensures card.grade.Acceptable? <==> 55.0 <= card.score < 70.0
    ensures card.grade.Poor? <==> 40.0 <= card.score < 55.0
    ensures card.verdict == VerdictOf(m, h, minTrades, Overfit(report))
    ensures card.verdict.Reject?
            <==> m.totalReturn <= 0.0 || m.maxDrawdown > ProfileOf(h).maxDrawdownGate || m.profitFactor < 1.0
    ensures (forall g :: g in card.gates ==> g.passed) && card.flags == [] <==> card.verdict.Deployable?
    ensures LowTradeCount in card.flags <==> m.trades < minTrades
    ensures ExcessiveDrawdown in card.flags <==> m.maxDrawdown > ProfileOf(h).maxDrawdownGate
    ensures PoorRiskReward in card.flags <==> m.profitFactor < 1.1
    ensures OverfittingDetected in card.flags <==> report.Some? && report.value.isOverfit
    ensures forall w :: AuditWarning(w) in card.flags
                        <==> report.Some? && report.value.isOverfit && w in report.value.warnings
    ensures card.metrics == MetricScores(m, h)
    ensures |card.gates| == 4
    ensures card.gates[0].passed <==> m.totalReturn > 0.0
    ensures card.gates[1].passed <==> m.maxDrawdown <= ProfileOf(h).maxDrawdownGate
    ensures card.gates[2].passed <==> m.sharpe >= ProfileOf(h).minSharpeGate
    ensures card.gates[3].passed <==> m.trades >= minTrades
    ensures forall s :: s in card.metrics ==> Consistent(s.graded)
  {
    hide ProfileOf, OverallScore, MetricScores, Weighted, Consistent;
    var p := ProfileOf(h);
    var metrics := ScoreMetrics(m, h);
    var score := WeightedSum(metrics);
    ScoresAreWeighted(m, h);
    var gates := CheckGates(m, p, minTrades);
    var flags := RaiseFlags(m, p, minTrades, report);
    var allPassed := forall g :: g in gates ==> g.passed;
    var verdict :=
      if !gates[0].passed || !gates[1].passed || m.profitFactor < 1.0 then Reject
      else if !allPassed || Overfit(report) || flags != [] then Investigate
      else Deployable;
    if flags != [] { NoFlags(flags); }
    card := Scorecard(score, OverallGrade(score), verdict, metrics, flags, gates);
  }

  method ScoreMetrics(m: Metrics, h: Horizon) returns (scores: seq<MetricScore>)
    ensures scores == MetricScores(m, h) && |scores| == 5
    ensures forall s :: s in scores ==> Consistent(s.graded)
  {
    hide GradeHigher, GradeLower, Consistent;
    var p := ProfileOf(h);
    scores := [];
    HigherIsConsistent(m.sharpe, p.sharpe);
    scores := scores + [MetricScore(SharpeRatio, m.sharpe, GradeHigher(m.sharpe, p.sharpe), 0.25)];
    LowerIsConsistent(m.maxDrawdown, p.drawdown);
    scores := scores + [MetricScore(MaxDrawdown, m.maxDrawdown, GradeLower(m.maxDrawdown, p.drawdown), 0.25)];
    HigherIsConsistent(m.profitFactor, p.profitFactor);
    scores := scores + [MetricScore(ProfitFactor, m.profitFactor, GradeHigher(m.profitFactor, p.profitFactor), 0.2)];
    HigherIsConsistent(m.winRate, p.winRate);
    scores := scores + [MetricScore(WinRate, m.winRate, GradeHigher(m.winRate, p.winRate), 0.15)];
    HigherIsConsistent(m.cagr, p.cagr);
    scores := scores + [MetricScore(Cagr, m.cagr, GradeHigher(m.cagr, p.cagr), 0.15)];
  }

  method WeightedSum(scores: seq<MetricScore>) returns (sum: real)
    ensures sum == Weighted(scores)
  {
    sum := 0.0;
    for i := 0 to |scores|
      invariant sum == Weighted(scores[..i])
    {
      assert scores[..i + 1][..i] == scores[..i];
      sum := sum + scores[i].graded.score * scores[i].weight;
    }
    assert scores[..|scores|] == scores;
  }

  lemma WeightedSnoc(scores: seq<MetricScore>, s: MetricScore)
    ensures Weighted(scores + [s]) == Weighted(scores) + s.graded.score * s.weight && Weighted([]) == 0.0
  {
    assert (scores + [s])[..|scores|] == scores;
  }

  lemma ScoresAreWeighted(m: Metrics, h: Horizon)
    ensures Weighted(MetricScores(m, h)) == OverallScore(m, h)
  {
    hide GradeHigher, GradeLower, Weighted, ProfileOf;
    var s := MetricScores(m, h);
    var one := [] + [s[0]];
    var two := one + [s[1]];
    var three := two + [s[2]];
    var four := three + [s[3]];
    WeightedSnoc([], s[0]);
    WeightedSnoc(one, s[1]);
    WeightedSnoc(two, s[2]);
    WeightedSnoc(three, s[3]);
    WeightedSnoc(four, s[4]);
    assert s == four + [s[4]];
  }

  method CheckGates(m: Metrics, p: Profile, minTrades: int) returns (gates: seq<Gate>)
    ensures |gates| == 4
    ensures gates[0].passed <==> m.totalReturn > 0.0
    ensures gates[1].passed <==> m.maxDrawdown <= p.maxDrawdownGate
    ensures gates[2].passed <==> m.sharpe >= p.minSharpeGate
    ensures gates[3].passed <==> m.trades >= minTrades
  {
    gates := [];
    gates := gates + [Gate(PositiveReturn, m.totalReturn > 0.0, 0.0, m.totalReturn)];
    gates := gates + [Gate(MaxDrawdownGate, m.maxDrawdown <= p.maxDrawdownGate, p.maxDrawdownGate, m.maxDrawdown)];
    gates := gates + [Gate(MinimumSharpe, m.sharpe >= p.minSharpeGate, p.minSharpeGate, m.sharpe)];
    gates := gates + [Gate(SampleSize, m.trades >= minTrades, minTrades as real, m.trades as real)];
  }

  method RaiseFlags(m: Metrics, p: Profile, minTrades: int, report: Option<OverfittingReport>)
    returns (flags: seq<Flag>)
    ensures LowTradeCount in flags <==> m.trades < minTrades
    ensures ExcessiveDrawdown in flags <==> m.maxDrawdown > p.maxDrawdownGate
    ensures PoorRiskReward in flags <==> m.profitFactor < 1.1
    ensures OverfittingDetected in flags <==> Overfit(report)
    ensures forall w :: AuditWarning(w) in flags <==> Overfit(report) && w in report.value.warnings
  {
    flags := [];
    if m.trades < minTrades {
      flags := flags + [LowTradeCount];
    }
    if m.maxDrawdown > p.maxDrawdownGate {
      flags := flags + [ExcessiveDrawdown];
    }
    if m.profitFactor < 1.1 {
      flags := flags + [PoorRiskReward];
    }
    if Overfit(report) {
      var raised := flags;
      flags := flags + [OverfittingDetected];
      var warnings := report.value.warnings;
      for i := 0 to |warnings|
        invariant forall f: Flag :: !f.AuditWarning? ==> (f in flags <==> f in raised || f == OverfittingDetected)
        invariant forall w :: AuditWarning(w) in flags <==> w in warnings[..i]
      {
        flags := flags + [AuditWarning(warnings[i])];
      }
    }
  }

  lemma NoFlags(flags: seq<Flag>)
    requires flags != []
    ensures LowTradeCount in flags || ExcessiveDrawdown in flags || PoorRiskReward in flags
            || OverfittingDetected in flags || exists w :: AuditWarning(w) in flags
  {
    assert flags[0] in flags;
    match flags[0] {
      case LowTradeCount =>
      case ExcessiveDrawdown =>
      case PoorRiskReward =>
      case OverfittingDetected =>
      case AuditWarning(w) => assert AuditWarning(w) in flags;
    }
  }

  // ---------------------------------------------------------------- what a scorecard guarantees

  /** The overall score lies in [0, 100]. */
  lemma OverallScoreInRange(m: Metrics, h: Horizon)
    ensures 0.0 <= OverallScore(m, h) <= 100.0
  {
    hide GradeHigher, GradeLower, ProfileOf;
    var p := ProfileOf(h);
    HigherIsConsistent(m.sharpe, p.sharpe);
    LowerIsConsistent(m.maxDrawdown, p.drawdown);
    HigherIsConsistent(m.profitFactor, p.profitFactor);
    HigherIsConsistent(m.winRate, p.winRate);
    HigherIsConsistent(m.cagr, p.cagr);
  }

  /** At least as good in every metric. */
  predicate Dominates(m: Metrics, n: Metrics) {
    && m.sharpe >= n.sharpe && m.maxDrawdown <= n.maxDrawdown && m.profitFactor >= n.profitFactor
    && m.winRate >= n.winRate && m.cagr >= n.cagr && m.totalReturn >= n.totalReturn && m.trades >= n.trades
  }

  function Standing(v: Verdict): nat {
    match v case Reject => 0 case Investigate => 1 case Deployable => 2
  }

  function GradeStanding(g: Grade): nat {
    match g case Rejected => 0 case Poor => 1 case Acceptable => 2 case Good => 3 case Excellent => 4
  }

  /** Better metrics never get a lower score, a lower grade or a worse verdict. */
  lemma DominatorIsNotWorse(m: Metrics, n: Metrics, h: Horizon, minTrades: int, overfit: bool)
    requires Dominates(m, n)
    ensures OverallScore(m, h) >= OverallScore(n, h)
    ensures GradeStanding(OverallGrade(OverallScore(m, h))) >= GradeStanding(OverallGrade(OverallScore(n, h)))
    ensures Standing(VerdictOf(m, h, minTrades, overfit)) >= Standing(VerdictOf(n, h, minTrades, overfit))
  {
    hide GradeHigher, GradeLower, ProfileOf;
    var p := ProfileOf(h);
    HigherIsMonotone(n.sharpe, m.sharpe, p.sharpe);
    LowerIsMonotone(m.maxDrawdown, n.maxDrawdown, p.drawdown);
    HigherIsMonotone(n.profitFactor, m.profitFactor, p.profitFactor);
    HigherIsMonotone(n.winRate, m.winRate, p.winRate);
    HigherIsMonotone(n.cagr, m.cagr, p.cagr);
  }

  predicate Regular(p: Profile) {
    && Falling(p.sharpe) && Falling(p.profitFactor) && Falling(p.winRate) && Falling(p.cagr) && Rising(p.drawdown)
  }

  /** Every demand of `l` is at most that of `s`, every allowance at least. */
  predicate Eases(s: Profile, l: Profile) {
    && AtLeast(s.sharpe, l.sharpe) && AtLeast(s.profitFactor, l.profitFactor) && AtLeast(s.winRate, l.winRate)
    && AtLeast(s.cagr, l.cagr) && AtLeast(l.drawdown, s.drawdown)
    && s.maxDrawdownGate <= l.maxDrawdownGate && s.minSharpeGate >= l.minSharpeGate
  }

  lemma ProfilesAreRegular(h: Horizon)
    ensures Regular(ProfileOf(h))
  {
    match h
    case Intraday =>
    case Swing =>
    case Positional =>
    case Investment =>
  }

  lemma EasesTransitively(a: Profile, b: Profile, c: Profile)
    requires Eases(a, b) && Eases(b, c)
    ensures Eases(a, c)
  {
  }

  /** From a shorter to a longer horizon every demand is lowered and every allowance raised. */
  lemma LongerIsEasier(short: Horizon, long: Horizon)
    requires Length(short) <= Length(long)
    ensures Eases(ProfileOf(short), ProfileOf(long))
  {
    SwingIsEasier();
    PositionalIsEasier();
    InvestmentIsEasier();
    hide Eases, ProfileOf;
    EasesTransitively(ProfileOf(Intraday), ProfileOf(Swing), ProfileOf(Positional));
    EasesTransitively(ProfileOf(Intraday), ProfileOf(Positional), ProfileOf(Investment));
    EasesTransitively(ProfileOf(Swing), ProfileOf(Positional), ProfileOf(Investment));
    EasesItself(ProfileOf(short));
  }

  lemma EasesItself(p: Profile)
    ensures Eases(p, p)
  {
  }

  lemma SwingIsEasier()
    ensures Eases(ProfileOf(Intraday), ProfileOf(Swing))
  {
  }

  lemma PositionalIsEasier()
    ensures Eases(ProfileOf(Swing), ProfileOf(Positional))
  {
  }

  lemma InvestmentIsEasier()
    ensures Eases(ProfileOf(Positional), ProfileOf(Investment))
  {
  }

  /** Declaring a longer horizon never lowers the score, the grade or the verdict of a strategy. */
  lemma LongerHorizonIsNotWorse(m: Metrics, short: Horizon, long: Horizon, minTrades: int, overfit: bool)
    requires Length(short) <= Length(long)
    ensures OverallScore(m, short) <= OverallScore(m, long)
    ensures GradeStanding(OverallGrade(OverallScore(m, short))) <= GradeStanding(OverallGrade(OverallScore(m, long)))
    ensures Standing(VerdictOf(m, short, minTrades, overfit)) <= Standing(VerdictOf(m, long, minTrades, overfit))
  {
    hide GradeHigher, GradeLower, ProfileOf;
    LongerIsEasier(short, long);
    ProfilesAreRegular(short);
    ProfilesAreRegular(long);
    var s, l := ProfileOf(short), ProfileOf(long);
    EasierHigher(m.sharpe, s.sharpe, l.sharpe);
    EasierLower(m.maxDrawdown, s.drawdown, l.drawdown);
    EasierHigher(m.profitFactor, s.profitFactor, l.profitFactor);
    EasierHigher(m.winRate, s.winRate, l.winRate);
    EasierHigher(m.cagr, s.cagr, l.cagr);
  }

  // ---------------------------------------------------------------- what the figures are worth

  /** The five graded figures of a strategy. */
  function Figures(sharpe: real, maxDrawdown: real, profitFactor: real, winRate: real, cagr: real): Metrics {
    Metrics(sharpe, maxDrawdown, profitFactor, winRate, cagr, 1.0, 0)
  }

  /** The figures of a strategy that just reaches a grade in every metric. */
  function AtEdge(h: Horizon, g: Grade): Metrics
    requires !g.Rejected?
  {
    match h
    case Intraday => (
      match g
      case Excellent => Figures(2.0, 3.0, 2.0, 60.0, 40.0)
      case Good => Figures(1.5, 5.0, 1.5, 50.0, 25.0)
      case Acceptable => Figures(1.0, 8.0, 1.2, 45.0, 15.0)
      case Poor => Figures(0.5, 12.0, 1.0, 40.0, 8.0))
    case Swing => (
      match g
      case Excellent => Figures(1.5, 8.0, 1.8, 55.0, 30.0)
      case Good => Figures(1.2, 15.0, 1.4, 45.0, 20.0)
      case Acceptable => Figures(0.8, 20.0, 1.15, 40.0, 12.0)
      case Poor => Figures(0.4, 25.0, 1.0, 35.0, 6.0))
    case Positional => (
      match g
      case Excellent => Figures(1.2, 12.0, 1.6, 50.0, 25.0)
      case Good => Figures(1.0, 20.0, 1.3, 40.0, 18.0)
      case Acceptable => Figures(0.7, 28.0, 1.1, 35.0, 12.0)
      case Poor => Figures(0.3, 35.0, 1.0, 30.0, 5.0))
    case Investment => (
      match g
      case Excellent => Figures(1.0, 15.0, 1.5, 45.0, 22.0)
      case Good => Figures(0.8, 25.0, 1.25, 38.0, 15.0)
      case Acceptable => Figures(0.5, 35.0, 1.05, 32.0, 10.0)
      case Poor => Figures(0.2, 45.0, 0.95, 25.0, 4.0))
  }

  /** The score at which a band of a rising metric begins, and of a falling one. */
  lemma BandsBegin(t: Thresholds)
    ensures Falling(t) ==>
              && GradeHigher(t.excellent, t) == Graded(Excellent, 90.0)
              && GradeHigher(t.good, t) == Graded(Good, 75.0)
              && GradeHigher(t.acceptable, t) == Graded(Acceptable, 60.0)
              && GradeHigher(t.poor, t) == Graded(Poor, 40.0)
    ensures Rising(t) ==>
              && GradeLower(t.excellent, t) == Graded(Excellent, 100.0)
              && GradeLower(t.good, t) == Graded(Good, 75.0)
              && GradeLower(t.acceptable, t) == Graded(Acceptable, 60.0)
              && GradeLower(t.poor, t) == Graded(Poor, 40.0)
  {
  }

  /** A strategy that just reaches a grade in every metric of its horizon has the score that grade begins with. */
  lemma EdgesScoreTheirGrade(h: Horizon, g: Grade)
    requires !g.Rejected?
    ensures OverallScore(AtEdge(h, g), h)
            == match g case Excellent => 92.5 case Good => 75.0 case Acceptable => 60.0 case Poor => 40.0
  {
    ProfilesAreRegular(h);
    var p := ProfileOf(h);
    BandsBegin(p.sharpe);
    BandsBegin(p.drawdown);
    BandsBegin(p.profitFactor);
    BandsBegin(p.winRate);
    BandsBegin(p.cagr);
    hide GradeHigher, GradeLower;
  }

  /** What the gates of the four horizons ask for. */
  lemma GatesWiden(h: Horizon)
    ensures ProfileOf(h).maxDrawdownGate == 10.0 * (Length(h) + 1) as real
    ensures ProfileOf(h).minSharpeGate == 1.0 - 0.2 * Length(h) as real
    ensures h == [Intraday, Swing, Positional, Investment][Length(h)]
  {
  }

  /** How far one metric alone moves the score: a quarter, a quarter, a fifth and twice three twentieths. */
  lemma OneMetricMoves(m: Metrics, h: Horizon, to: real)
    ensures var p, score := ProfileOf(h), OverallScore(m, h);
            && OverallScore(m.(sharpe := to), h) - score
               == 0.25 * (GradeHigher(to, p.sharpe).score - GradeHigher(m.sharpe, p.sharpe).score)
            && OverallScore(m.(maxDrawdown := to), h) - score
               == 0.25 * (GradeLower(to, p.drawdown).score - GradeLower(m.maxDrawdown, p.drawdown).score)
            && OverallScore(m.(profitFactor := to), h) - score
               == 0.2 * (GradeHigher(to, p.profitFactor).score - GradeHigher(m.profitFactor, p.profitFactor).score)
            && OverallScore(m.(winRate := to), h) - score
               == 0.15 * (GradeHigher(to, p.winRate).score - GradeHigher(m.winRate, p.winRate).score)
            && OverallScore(m.(cagr := to), h) - score
               == 0.15 * (GradeHigher(to, p.cagr).score - GradeHigher(m.cagr, p.cagr).score)
  {
    hide GradeHigher, GradeLower, ProfileOf;
  }
}

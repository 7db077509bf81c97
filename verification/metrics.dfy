/**
 The performance figures a scorecard is built from (backend/app/backtest/metrics.py).  Powers and square roots are
 inputs: the annualising power is any increasing function that keeps one, and the standard deviation and the square
 root of 252 are numbers with the right squares.
 */
module BacktestMetrics {
  import opened Common
  import opened Drawdown
  import PortfolioAccounting

  /** What the calculation reads off a portfolio; `cash` stands in when no equity was recorded. */
  datatype Backtest = Backtest(initialCapital: real, curve: seq<real>, cash: real, realized: seq<real>, fills: nat)

  datatype Metrics = Metrics(
    sharpe: real,
    maxDrawdown: real,
    profitFactor: real,
    winRate: real,
    cagr: real,
    totalReturn: real,
    trades: int)

  function EquitiesOf(points: seq<PortfolioAccounting.EquityPoint>): seq<real> {
    if points == [] then [] else EquitiesOf(points[..|points| - 1]) + [points[|points| - 1].equity]
  }

  function RealizedIn(order: seq<string>, book: map<string, PortfolioAccounting.Holding>): seq<real>
    requires forall i :: 0 <= i < |order| ==> order[i] in book
  {
    if order == [] then [] else RealizedIn(order[..|order| - 1], book) + [book[order[|order| - 1]].realized]
  }

  /** A portfolio as the calculation sees it; positions come in the order they were opened. */
  ghost function BacktestOf(p: PortfolioAccounting.Portfolio): Backtest
    requires p.Valid()
    reads p, p.positions.Values
  {
    assert forall i :: 0 <= i < |p.order| ==> p.order[i] in p.order;
    Backtest(p.initialCash, EquitiesOf(p.curve), p.cash, RealizedIn(p.order, p.Book()), |p.fills|)
  }

  const FLAT_DEVIATION := 0.000000001
  const SESSIONS := 252.0

  function FinalEquity(b: Backtest): real {
    if b.curve == [] then b.cash else b.curve[|b.curve| - 1]
  }

  function Equities(b: Backtest): (e: seq<real>)
    ensures e != [] && e[|e| - 1] == FinalEquity(b)
  {
    if b.curve == [] then [b.cash] else b.curve
  }

  function TotalReturn(b: Backtest): real {
    if b.initialCapital > 0.0 then (FinalEquity(b) - b.initialCapital) / b.initialCapital * 100.0 else 0.0
  }

  /** `power` raises to the number of years' reciprocal; over 365 days it is the identity. */
  function Cagr(b: Backtest, power: real -> real): real {
    if FinalEquity(b) > 0.0 && b.initialCapital > 0.0 then (power(FinalEquity(b) / b.initialCapital) - 1.0) * 100.0
    else -100.0
  }

  ghost predicate IsPower(power: real -> real) {
    power(1.0) == 1.0 && forall x, y :: 0.0 < x < y ==> power(x) < power(y)
  }

  function Change(prev: real, last: real): real {
    if prev > 0.0 then (last - prev) / prev else 0.0
  }

  /**
     The relative changes from one recorded equity to the next; the step from the starting capital is not among
     them.
     */
  function Returns(equities: seq<real>): seq<real> {
    if |equities| <= 1 then []
    else
      var prev, last := equities[|equities| - 2], equities[|equities| - 1];
      Returns(equities[..|equities| - 1]) + [Change(prev, last)]
  }

  function Mean(s: seq<real>): real {
    if s == [] then 0.0 else Sum(s) / |s| as real
  }

  function Square(x: real): real {
    x * x
  }

  function SquaredDistances(s: seq<real>, from: real): real {
    if s == [] then 0.0 else SquaredDistances(s[..|s| - 1], from) + Square(s[|s| - 1] - from)
  }

  /** The sample standard deviation, known by its square; zero for fewer than two returns. */
  ghost predicate IsDeviation(s: seq<real>, deviation: real) {
    && deviation >= 0.0
    && (if |s| > 1 then deviation * deviation == SquaredDistances(s, Mean(s)) / (|s| - 1) as real else deviation == 0.0)
  }

  ghost predicate IsAnnualFactor(root: real) {
    root >= 0.0 && root * root == SESSIONS
  }

  function Sharpe(changes: seq<real>, deviation: real, root: real): real {
    if deviation > FLAT_DEVIATION then Mean(changes) / deviation * root else 0.0
  }

  function Negatives(s: seq<real>): seq<real> {
    if s == [] then []
    else Negatives(s[..|s| - 1]) + if s[|s| - 1] < 0.0 then [s[|s| - 1]] else []
  }

  /** The Sharpe ratio with the deviation of the losses alone. */
  function Sortino(changes: seq<real>, downside: real, root: real): real {
    Sharpe(changes, downside, root)
  }

  /** Annual growth per percent of drawdown. */
  function Calmar(cagr: real, maxPercent: real): real {
    if maxPercent > 0.0001 then cagr / maxPercent else 0.0
  }

  function Winners(realized: seq<real>): nat {
    if realized == [] then 0 else Winners(realized[..|realized| - 1]) + if realized[|realized| - 1] > 0.0 then 1 else 0
  }

  function Losers(realized: seq<real>): nat {
    if realized == [] then 0 else Losers(realized[..|realized| - 1]) + if realized[|realized| - 1] < 0.0 then 1 else 0
  }

  function WinRate(realized: seq<real>): real {
    var trades := Winners(realized) + Losers(realized);
    if trades > 0 then Winners(realized) as real / trades as real * 100.0 else 0.0
  }

  function GrossProfit(realized: seq<real>): (profit: real)
    ensures profit >= 0.0
  {
    if realized == [] then 0.0 else GrossProfit(realized[..|realized| - 1]) + Max(0.0, realized[|realized| - 1])
  }

  function GrossLoss(realized: seq<real>): (loss: real)
    ensures loss >= 0.0
  {
    if realized == [] then 0.0 else GrossLoss(realized[..|realized| - 1]) + Max(0.0, -realized[|realized| - 1])
  }

  /** Without losses to divide by, the factor is the gross profit itself, an amount of money. */
  function ProfitFactor(realized: seq<real>): real {
    var profit, loss := GrossProfit(realized), GrossLoss(realized);
    if loss > FLAT_DEVIATION then profit / loss else if profit > 0.0 then profit else 1.0
  }

  /** All the figures of a backtest. */
  function MetricsOf(b: Backtest, power: real -> real, deviation: real, root: real): Metrics {
    Metrics(Sharpe(Returns(Equities(b)), deviation, root),
            LargestPercent([b.initialCapital] + Equities(b)),
            ProfitFactor(b.realized), WinRate(b.realized), Cagr(b, power), TotalReturn(b), b.fills)
  }

  method CalculateBacktestMetrics(b: Backtest, power: real -> real, deviation: real, downside: real, root: real)
    returns (m: Metrics, maxValue: real, sortino: real, calmar: real)
    requires IsDeviation(Returns(Equities(b)), deviation) && IsAnnualFactor(root)
    requires IsDeviation(Negatives(Returns(Equities(b))), downside)
    ensures m == MetricsOf(b, power, deviation, root)
    ensures maxValue == LargestDrop([b.initialCapital] + Equities(b))
    ensures sortino == Sortino(Returns(Equities(b)), downside, root) && calmar == Calmar(m.cagr, m.maxDrawdown)
  {
    hide IsDeviation, Negatives, LargestPercent, LargestDrop, Returns;
    hide LargestPercent, LargestDrop, Returns, Mean;
    var equities := Equities(b);
    var maxPercent;
    maxPercent, maxValue := MeasureDrawdown(b.initialCapital, equities);
    var changes := RelativeChanges(equities);
    var winners, losers, profit, loss := TradeStatistics(b.realized);
    var trades := winners + losers;
    var winRate := if trades > 0 then winners as real / trades as real * 100.0 else 0.0;
    var factor := if loss > FLAT_DEVIATION then profit / loss else if profit > 0.0 then profit else 1.0;
    m := Metrics(Sharpe(changes, deviation, root), maxPercent, factor, winRate, Cagr(b, power), TotalReturn(b),
                 b.fills);
    sortino, calmar := Sortino(changes, downside, root), Calmar(m.cagr, maxPercent);
  }

  method RelativeChanges(equities: seq<real>) returns (changes: seq<real>)
    requires equities != []
    ensures changes == Returns(equities)
  {
    changes := [];
    for i := 1 to |equities|
      invariant changes == Returns(equities[..i])
    {
      assert equities[..i + 1][..i] == equities[..i];
      changes := changes + [Change(equities[i - 1], equities[i])];
    }
    assert equities[..|equities|] == equities;
  }

  method TradeStatistics(realized: seq<real>) returns (winners: nat, losers: nat, profit: real, loss: real)
    ensures winners == Winners(realized) && losers == Losers(realized)
    ensures profit == GrossProfit(realized) && loss == GrossLoss(realized)
  {
    winners, losers, profit, loss := 0, 0, 0.0, 0.0;
    for i := 0 to |realized|
      invariant winners == Winners(realized[..i]) && losers == Losers(realized[..i])
      invariant profit == GrossProfit(realized[..i]) && loss == GrossLoss(realized[..i])
    {
      assert realized[..i + 1][..i] == realized[..i];
      if realized[i] > 0.0 {
        winners, profit := winners + 1, profit + realized[i];
      } else if realized[i] < 0.0 {
        losers, loss := losers + 1, loss - realized[i];
      }
    }
    assert realized[..|realized|] == realized;
  }

  // ---------------------------------------------------------------- links between the figures

  function Squares(s: seq<real>): real {
    if s == [] then 0.0 else Squares(s[..|s| - 1]) + Square(s[|s| - 1])
  }

  function Moments(squares: real, sum: real, n: real, from: real): real {
    squares - 2.0 * from * sum + n * (from * from)
  }

  /** Squared distances from any point, by the sums alone. */
  lemma {:induction false} DistancesByMoments(s: seq<real>, from: real)
    ensures SquaredDistances(s, from) == Moments(Squares(s), Sum(s), |s| as real, from)
  {
    if s != [] {
      hide Moments, Square;
      var rest, x := s[..|s| - 1], s[|s| - 1];
      DistancesByMoments(rest, from);
      OneMoreMoment(Squares(rest), Sum(rest), |rest| as real, from, x);
    } else {
      assert Moments(0.0, 0.0, 0.0, from) == 0.0;
    }
  }

  lemma OneMoreMoment(squares: real, sum: real, n: real, from: real, x: real)
    ensures Moments(squares + Square(x), sum + x, n + 1.0, from)
            == Moments(squares, sum, n, from) + Square(x - from)
  {
    assert (x - from) * (x - from) == x * x - 2.0 * from * x + from * from;
    MulSum(sum + x, sum, x, 2.0 * from);
    MulSum(n + 1.0, n, 1.0, from * from);
  }

  /** x times y is z. */
  predicate Makes(x: real, y: real, z: real) {
    x * y == z
  }

  lemma QuotientMakes(x: real, d: real)
    requires d != 0.0
    ensures Makes(x / d, d, x)
  {
  }

  /**
     The Sharpe ratio without roots: squared and times the sample variance it is 252 times the squared mean, and it
     has the sign of the mean.  `variance` is the sum of the squared distances from the mean over the number of
     returns less one.
     */
  lemma SharpeByVariance(changes: seq<real>, deviation: real, root: real, mean: real, variance: real)
    requires |changes| > 1 && Makes(mean, |changes| as real, Sum(changes))
    requires Makes(variance, |changes| as real - 1.0, Squares(changes) - Product(mean, Sum(changes)))
    requires IsDeviation(changes, deviation) && IsAnnualFactor(root) && deviation > 0.000000001
    ensures var sharpe := Sharpe(changes, deviation, root);
            && sharpe * sharpe * variance == 252.0 * (mean * mean)
            && (sharpe > 0.0 <==> mean > 0.0) && (sharpe < 0.0 <==> mean < 0.0)
  {
    hide Squares, SquaredDistances, Sum, Makes, Moments, Product;
    var n := |changes| as real;
    SameQuotient(mean, Sum(changes), n);
    DistancesByMoments(changes, mean);
    VarianceByMean(mean, n, Sum(changes), Squares(changes), variance);
    SameQuotient(variance, SquaredDistances(changes, mean), n - 1.0);
    assert deviation * deviation == variance;
    QuotientMakes(mean, deviation);
    RatioSquared(mean / deviation, deviation, mean, root);
    SignOfRatio(mean, deviation, root);
  }

  /** Returns that hardly vary, or only one of them, are worth nothing. */
  lemma FlatReturnsScoreNothing(changes: seq<real>, deviation: real, root: real)
    requires IsDeviation(changes, deviation) && (deviation <= 0.000000001 || |changes| <= 1)
    ensures Sharpe(changes, deviation, root) == 0.0
  {
  }

  lemma SameQuotient(q: real, x: real, d: real)
    requires Makes(q, d, x) && d > 0.0
    ensures q == x / d
  {
    var r := x / d;
    assert (q - r) * d == 0.0;
  }

  lemma VarianceByMean(mean: real, n: real, sum: real, squares: real, variance: real)
    requires Makes(mean, n, sum) && Makes(variance, n - 1.0, squares - Product(mean, sum))
    ensures Makes(variance, n - 1.0, Moments(squares, sum, n, mean))
  {
    assert n * (mean * mean) == mean * (mean * n);
  }

  lemma RatioSquared(ratio: real, deviation: real, mean: real, root: real)
    requires Makes(ratio, deviation, mean) && root * root == 252.0
    ensures ratio * root * (ratio * root) * (deviation * deviation) == 252.0 * (mean * mean)
  {
    var x := ratio * deviation;
    assert ratio * root * (ratio * root) == (root * root) * (ratio * ratio);
    assert (ratio * ratio) * (deviation * deviation) == x * x;
    assert 252.0 * (ratio * ratio) * (deviation * deviation) == 252.0 * ((ratio * ratio) * (deviation * deviation));
  }

  lemma SignOfRatio(mean: real, deviation: real, root: real)
    requires deviation > 0.0 && root >= 0.0 && root * root == 252.0
    ensures (mean / deviation * root > 0.0 <==> mean > 0.0) && (mean / deviation * root < 0.0 <==> mean < 0.0)
  {
    SignOfQuotient(mean, deviation);
    var ratio := mean / deviation;
    assert root > 0.0;
    if ratio > 0.0 { MulMonoStrict(0.0, ratio, root); }
    if ratio < 0.0 { MulMonoStrict(ratio, 0.0, root); }
  }

  /** Returns lead from each positive recorded equity to the next. */
  lemma {:induction false} ReturnsLeadOn(equities: seq<real>, i: nat)
    requires i + 1 < |equities|
    ensures |Returns(equities)| == |equities| - 1
    ensures equities[i] > 0.0 ==> Makes(equities[i], 1.0 + Returns(equities)[i], equities[i + 1])
    ensures equities[i] <= 0.0 ==> Returns(equities)[i] == 0.0
  {
    var rest := equities[..|equities| - 1];
    if i + 1 < |rest| {
      ReturnsLeadOn(rest, i);
    } else {
      if |rest| > 1 { ReturnsLeadOn(rest, i - 1); }
      if equities[i] > 0.0 { ChangeLeadsOn(equities[i], equities[i + 1]); }
    }
  }

  lemma ChangeLeadsOn(prev: real, last: real)
    requires prev > 0.0
    ensures Makes(prev, 1.0 + Change(prev, last), last)
  {
    var q := (last - prev) / prev;
    assert q * prev == last - prev;
    assert prev * (1.0 + q) == prev + q * prev;
  }

  /** The downside is made of the negative returns and nothing else. */
  lemma {:induction false} NegativesAreTheLosses(s: seq<real>, x: real)
    ensures multiset(Negatives(s))[x] == if x < 0.0 then multiset(s)[x] else 0
  {
    if s != [] {
      NegativesAreTheLosses(s[..|s| - 1], x);
      LastCounted(s, x);
      if s[|s| - 1] < 0.0 { SnocCounted(Negatives(s[..|s| - 1]), s[|s| - 1], x); }
    }
  }

  /** Securities that brought a profit, and securities that brought a loss. */
  function Gaining(realized: seq<real>): set<nat> {
    set i | 0 <= i < |realized| && realized[i] > 0.0
  }

  function Losing(realized: seq<real>): set<nat> {
    set i | 0 <= i < |realized| && realized[i] < 0.0
  }

  lemma LastCounts(realized: seq<real>)
    requires realized != []
    ensures var n := |realized| - 1;
            && Gaining(realized) == Gaining(realized[..n]) + (if realized[n] > 0.0 then {n} else {})
            && Losing(realized) == Losing(realized[..n]) + if realized[n] < 0.0 then {n} else {}
    ensures |realized| - 1 !in Gaining(realized[..|realized| - 1]) + Losing(realized[..|realized| - 1])
  {
  }

  lemma {:induction false} WinnersAreCounted(realized: seq<real>)
    ensures Winners(realized) == |Gaining(realized)| && Losers(realized) == |Losing(realized)|
  {
    if realized == [] {
      assert Gaining(realized) == {} && Losing(realized) == {};
    } else {
      var n := |realized| - 1;
      WinnersAreCounted(realized[..n]);
      LastCounts(realized);
      hide Gaining, Losing;
    }
  }

  /** Gross profit less gross loss is what was realized; gains make up the one, losses the other. */
  lemma {:induction false} ProfitLessLoss(realized: seq<real>)
    ensures GrossProfit(realized) - GrossLoss(realized) == Sum(realized)
    ensures (GrossProfit(realized) > 0.0 <==> Gaining(realized) != {})
    ensures (GrossLoss(realized) > 0.0 <==> Losing(realized) != {})
  {
    if realized != [] {
      var n := |realized| - 1;
      ProfitLessLoss(realized[..n]);
      LastCounts(realized);
      hide Gaining, Losing;
    }
  }

  /** A power that leaves the growth alone, as over 365 days, makes the annual growth the total return. */
  lemma OverAYear(b: Backtest, power: real -> real)
    requires b.initialCapital > 0.0 && FinalEquity(b) > 0.0
    ensures power(FinalEquity(b) / b.initialCapital) == FinalEquity(b) / b.initialCapital ==>
              Cagr(b, power) == TotalReturn(b)
  {
    var q := FinalEquity(b) / b.initialCapital;
    assert q * b.initialCapital == FinalEquity(b);
    assert (q - 1.0) * b.initialCapital == FinalEquity(b) - b.initialCapital;
    SameQuotient(q - 1.0, FinalEquity(b) - b.initialCapital, b.initialCapital);
  }

  /** What each ratio of the result is a ratio of. */
  lemma FiguresAreRatios(b: Backtest, power: real -> real, maxPercent: real)
    ensures if b.initialCapital > 0.0 then
              Makes(TotalReturn(b), b.initialCapital, 100.0 * (FinalEquity(b) - b.initialCapital))
            else TotalReturn(b) == 0.0
    ensures var traded := |Gaining(b.realized)| + |Losing(b.realized)|;
            if traded > 0 then Makes(WinRate(b.realized), traded as real, 100.0 * |Gaining(b.realized)| as real)
            else WinRate(b.realized) == 0.0
    ensures GrossLoss(b.realized) > 0.000000001 ==>
              Makes(ProfitFactor(b.realized), GrossLoss(b.realized), GrossProfit(b.realized))
    ensures Losing(b.realized) == {} ==>
              ProfitFactor(b.realized) == if Gaining(b.realized) != {} then Sum(b.realized) else 1.0
    ensures if maxPercent > 0.0001 then Makes(Calmar(Cagr(b, power), maxPercent), maxPercent, Cagr(b, power))
            else Calmar(Cagr(b, power), maxPercent) == 0.0
  {
    WinnersAreCounted(b.realized);
    ProfitLessLoss(b.realized);
    hide Sum, GrossProfit, GrossLoss, Winners, Losers, Gaining, Losing;
    if b.initialCapital > 0.0 { PercentMakes(FinalEquity(b) - b.initialCapital, b.initialCapital); }
    var trades := Winners(b.realized) + Losers(b.realized);
    if trades > 0 { PercentMakes(Winners(b.realized) as real, trades as real); }
    hide FinalEquity, Cagr;
  }

  lemma PercentMakes(x: real, d: real)
    requires d > 0.0
    ensures Makes(x / d * 100.0, d, 100.0 * x)
  {
    assert x / d * d == x;
    assert x / d * 100.0 * d == 100.0 * (x / d * d);
  }

  lemma WinRateInRange(realized: seq<real>)
    ensures 0.0 <= WinRate(realized) <= 100.0
  {
    var winners, trades := Winners(realized) as real, (Winners(realized) + Losers(realized)) as real;
    if trades > 0.0 {
      DivMono(0.0, winners, trades);
      DivMono(winners, trades, trades);
    }
  }

  /** Both returns are read off the same final equity: one is positive exactly when the other is. */
  lemma ReturnsHaveOneSign(b: Backtest, power: real -> real)
    requires b.initialCapital > 0.0 && IsPower(power)
    ensures TotalReturn(b) > 0.0 <==> Cagr(b, power) > 0.0
    ensures TotalReturn(b) < 0.0 <==> Cagr(b, power) < 0.0
  {
    var capital, final := b.initialCapital, FinalEquity(b);
    DivAtLeast(final - capital, 0.0, capital);
    DivAtLeast(capital - final, 0.0, capital);
    SignOfQuotient(final - capital, capital);
    if final > 0.0 {
      DivAtLeast(final, 1.0, capital);
      DivAtLeast(final, 0.0, capital);
      QuotientAboveOne(final, capital);
    }
  }

  /** How a quotient q compares with zero and one. */
  lemma QuotientOf(q: real, x: real, d: real)
    requires q * d == x && d > 0.0
    ensures (q > 0.0 <==> x > 0.0) && (q < 0.0 <==> x < 0.0)
    ensures (q > 1.0 <==> x > d) && (q < 1.0 <==> x < d)
  {
    if q > 0.0 { MulMonoStrict(0.0, q, d); } else { MulMono(q, 0.0, d); }
    if q < 0.0 { MulMonoStrict(q, 0.0, d); } else { MulMono(0.0, q, d); }
    if q > 1.0 { MulMonoStrict(1.0, q, d); } else { MulMono(q, 1.0, d); }
    if q < 1.0 { MulMonoStrict(q, 1.0, d); } else { MulMono(1.0, q, d); }
  }

  lemma SignOfQuotient(x: real, d: real)
    requires d > 0.0
    ensures (x / d > 0.0 <==> x > 0.0) && (x / d < 0.0 <==> x < 0.0)
  {
    var q := x / d;
    QuotientOf(q, x, d);
  }

  lemma QuotientAboveOne(x: real, d: real)
    requires x > 0.0 && d > 0.0
    ensures (x / d > 1.0 <==> x > d) && (x / d < 1.0 <==> x < d) && x / d > 0.0
  {
    var q := x / d;
    QuotientOf(q, x, d);
  }

  lemma NegatedQuotient(x: real, d: real)
    requires d > 0.0
    ensures (-x) / d == -(x / d)
  {
    var q, r := x / d, (-x) / d;
    assert q * d == x && r * d == -x;
    assert (q + r) * d == 0.0;
  }

  /** A loss is also a drawdown at least as large, unless the equity ends below zero. */
  lemma LossIsDrawdown(b: Backtest)
    requires b.initialCapital > 0.0 && FinalEquity(b) >= 0.0
    ensures LargestPercent([b.initialCapital] + Equities(b)) >= -TotalReturn(b)
  {
    hide LargestPercent;
    var curve := [b.initialCapital] + Equities(b);
    var last := |curve| - 1;
    var from, to := LargestPercentIsLargest(curve);
    assert curve[0] == b.initialCapital && curve[last] == FinalEquity(b);
    assert Percent(curve[0], curve[last]) <= LargestPercent(curve);
    NegatedQuotient(FinalEquity(b) - b.initialCapital, b.initialCapital);
  }
}

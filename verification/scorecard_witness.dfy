/**
 The backtests that reach or approach the ceilings of a scorecard are real ones: a portfolio that is filled and marked
 (backend/app/engine/contracts.py) and handed to the metrics gives exactly these figures.
 */
module ScorecardWitness {
  import opened BacktestMetrics
  import opened Common
  import opened PortfolioAccounting
  import opened ScorecardCeilings

  /** A portfolio as a value. */
  datatype Account = Account(initialCash: real, cash: real, order: seq<string>, book: map<string, Holding>,
                             fills: nat, equities: seq<real>)

  ghost function AccountOf(p: Portfolio): Account
    reads p, p.positions.Values
  {
    Account(p.initialCash, p.cash, p.order, p.Book(), |p.fills|, EquitiesOf(p.curve))
  }

  /** Only security A was traded: it is flat and has realized a profit. */
  ghost predicate Closed(a: Account, profit: real, fills: nat) {
    && a.initialCash == 100.0 && a.cash == 100.0 + profit && a.fills == fills && a.equities == []
    && a.order == ["A"] && a.book.Keys == {"A"} && Marked(a.book["A"])
    && a.book["A"].quantity == 0 && a.book["A"].realized == profit
  }

  /** Everything was put into two units of B, and these equities were recorded since. */
  ghost predicate Invested(a: Account, profit: real, equities: seq<real>) {
    && a.initialCash == 100.0 && a.cash == 0.0 && a.fills == 100 && a.order == ["A", "B"] && a.equities == equities
    && a.book.Keys == {"A", "B"} && a.book["A"].quantity == 0 && a.book["A"].realized == profit
    && a.book["B"].quantity == 2 && a.book["B"].realized == 0.0
  }

  /** One unit was bought or sold without fees. */
  ghost predicate Filled(a: Account, b: Account, security: string, side: Side, price: real) {
    && b.initialCash == a.initialCash && b.cash == a.cash - (if side.Buy? then price else -price)
    && b.fills == a.fills + 1 && b.equities == a.equities
    && b.order == (if security in a.book then a.order else a.order + [security])
    && b.book.Keys == a.book.Keys + {security}
    && (forall s :: s in a.book && s != security ==> b.book[s] == a.book[s])
    && FilledBy(if security in a.book then a.book[security] else Holding(0, 0.0, 0.0, 0.0, price),
                b.book[security], side, 1, price)
  }

  function Free(security: string, side: Side, price: real): Fill {
    Fill(security, side, 1, price, 0.0, 0.0, 0.0)
  }

  /** Buying one unit and selling it again realizes the difference. */
  lemma RoundTripRealizes(before: Holding, between: Holding, after: Holding, bought: real, sold: real)
    requires Marked(before) && before.quantity == 0
    requires FilledBy(before, between, Buy, 1, bought) && FilledBy(between, after, Sell, 1, sold)
    ensures after.quantity == 0 && after.realized == before.realized + sold - bought
  {
    NegatedProduct(before.average, 0.0);
    NegatedProduct(after.average, 0.0);
  }

  lemma OneUnit(price: real)
    ensures Consideration(price, Buy, 1) == price && Consideration(price, Sell, 1) == -price
  {
  }

  lemma CashFollows(initialCash: real, fills: seq<Fill>, f: Fill)
    requires f.fees == 0.0 && f.slippage == 0.0 && f.quantity == 1
    ensures initialCash - PaidInAll(fills + [f]) - Fees(fills + [f])
            == initialCash - PaidInAll(fills) - Fees(fills) - if f.side.Buy? then f.price else -f.price
  {
    FillsSnoc(fills, f);
    OneUnit(f.price);
    hide Consideration, PaidInAll, Fees;
  }

  /** Fill one unit. */
  method FillOne(p: Portfolio, security: string, side: Side, price: real)
    requires p.Valid()
    modifies p, p.positions.Values
    ensures p.Valid() && fresh(p.positions.Values - old(p.positions.Values))
    ensures Filled(old(AccountOf(p)), AccountOf(p), security, side, price)
  {
    hide FilledBy, Keys, Reconciled, PaidInAll, Fees, Consideration, Portfolio.Book, EquitiesOf;
    CashFollows(p.initialCash, p.fills, Free(security, side, price));
    p.ApplyFill(Free(security, side, price));
  }

  /** Buying a unit of A and selling it again realizes the difference. */
  lemma RoundTripCloses(a: Account, b: Account, c: Account, profit: real, fills: nat, bought: real, sold: real)
    requires Closed(a, profit, fills) && Filled(a, b, "A", Buy, bought) && Filled(b, c, "A", Sell, sold)
    ensures Closed(c, profit + sold - bought, fills + 2)
  {
    RoundTripRealizes(a.book["A"], b.book["A"], c.book["A"], bought, sold);
  }

  lemma FirstRoundTripCloses(a: Account, b: Account, c: Account, price: real)
    requires a == Account(100.0, 100.0, [], map[], 0, [])
    requires Filled(a, b, "A", Buy, price) && Filled(b, c, "A", Sell, price)
    ensures Closed(c, 0.0, 2)
  {
    NegatedProduct(price, 0.0);
    NegatedProduct(0.0, 0.0);
    RoundTripRealizes(Holding(0, 0.0, 0.0, 0.0, price), b.book["A"], c.book["A"], price, price);
  }

  lemma BuyingInvests(a: Account, b: Account, c: Account, profit: real)
    requires Closed(a, profit, 98)
    requires Filled(a, b, "B", Buy, (100.0 + profit) / 2.0) && Filled(b, c, "B", Buy, (100.0 + profit) / 2.0)
    ensures Invested(c, profit, [])
  {
    assert "A"[0] != "B"[0];
    hide Marked;
  }

  method RoundTrip(p: Portfolio, ghost profit: real, ghost fills: nat, bought: real, sold: real)
    requires p.Valid() && Closed(AccountOf(p), profit, fills)
    modifies p, p.positions.Values
    ensures p.Valid() && fresh(p.positions.Values - old(p.positions.Values))
    ensures Closed(AccountOf(p), profit + sold - bought, fills + 2)
  {
    hide *;
    ghost var before := AccountOf(p);
    FillOne(p, "A", Buy, bought);
    ghost var between := AccountOf(p);
    FillOne(p, "A", Sell, sold);
    RoundTripCloses(before, between, AccountOf(p), profit, fills, bought, sold);
  }

  method FirstRoundTrip(p: Portfolio)
    requires p.Valid() && AccountOf(p) == Account(100.0, 100.0, [], map[], 0, [])
    modifies p, p.positions.Values
    ensures p.Valid() && fresh(p.positions.Values - old(p.positions.Values))
    ensures Closed(AccountOf(p), 0.0, 2)
  {
    hide *;
    ghost var before := AccountOf(p);
    FillOne(p, "A", Buy, 1.0);
    ghost var between := AccountOf(p);
    FillOne(p, "A", Sell, 1.0);
    FirstRoundTripCloses(before, between, AccountOf(p), 1.0);
  }

  /** Put all the money into B. */
  method Invest(p: Portfolio, profit: real)
    requires p.Valid() && Closed(AccountOf(p), profit, 98)
    modifies p, p.positions.Values
    ensures p.Valid() && fresh(p.positions.Values - old(p.positions.Values))
    ensures Invested(AccountOf(p), profit, [])
  {
    hide *;
    ghost var before := AccountOf(p);
    FillOne(p, "B", Buy, (100.0 + profit) / 2.0);
    ghost var between := AccountOf(p);
    FillOne(p, "B", Buy, (100.0 + profit) / 2.0);
    BuyingInvests(before, between, AccountOf(p), profit);
  }

  /** Quoting B at half of what the two units shall be worth. */
  lemma QuoteSetsWorth(a: Account, b: Account, profit: real, equities: seq<real>, worth: real)
    requires Invested(a, profit, equities) && b.book.Keys == a.book.Keys
    requires forall s :: s in a.book ==>
               RepricedBy(a.book[s], b.book[s], LatestPrice([Mark("B", worth / 2.0)], s, a.book[s].current))
    requires b == a.(book := b.book, equities := equities + [a.cash + Total(["A", "B"], b.book, Value)])
    ensures Invested(b, profit, equities + [worth])
  {
    LatestOfTwo(Mark("B", worth / 2.0), a.book);
    hide LatestPrice, Marked, Total;
    WorthOfTwo(b.book, worth);
  }

  /** Mark B so that the portfolio is worth a given equity. */
  method MarkAt(p: Portfolio, ghost profit: real, ghost equities: seq<real>, worth: real)
    requires p.Valid() && Invested(AccountOf(p), profit, equities)
    modifies p`curve, p.positions.Values
    ensures p.Valid() && p.positions == old(p.positions)
    ensures Invested(AccountOf(p), profit, equities + [worth])
  {
    assert p.order == ["A", "B"] && EquitiesOf(p.curve) == equities;
    hide Portfolio.Valid, Portfolio.Book, EquitiesOf, Total, Value, RepricedBy, LatestPrice, Invested;
    ghost var before := AccountOf(p);
    var equity := p.MarkToMarket([Mark("B", worth / 2.0)], 0.0);
    EquitiesSnoc(old(p.curve), p.curve[|old(p.curve)|]);
    QuoteSetsWorth(before, AccountOf(p), profit, equities, worth);
  }

  lemma WorthOfTwo(book: map<string, Holding>, worth: real)
    requires "A" in book && "B" in book && book["A"].quantity == 0 && book["B"].quantity == 2
    requires book["B"].current == worth / 2.0
    ensures Total(["A", "B"], book, Value) == worth
  {
    assert ["A", "B"][..1] == ["A"] && ["A"][..0] == [];
    NegatedProduct(book["A"].current, 0.0);
    assert Total([], book, Value) == 0.0;
    assert Total(["A"], book, Value) == Value(book["A"]);
  }

  lemma EquitiesSnoc(points: seq<EquityPoint>, point: EquityPoint)
    ensures EquitiesOf(points + [point]) == EquitiesOf(points) + [point.equity]
  {
    assert (points + [point])[..|points|] == points;
  }

  lemma LatestOfTwo(mark: Mark, book: map<string, Holding>)
    requires mark.security == "B" && "A" in book && "B" in book
    ensures LatestPrice([mark], "B", book["B"].current) == mark.price
  {
  }

  /** Round trips without a profit. */
  method FlatTrips(p: Portfolio, n: nat, ghost fills: nat)
    requires p.Valid() && Closed(AccountOf(p), 0.0, fills)
    modifies p, p.positions.Values
    ensures p.Valid() && fresh(p.positions.Values - old(p.positions.Values))
    ensures Closed(AccountOf(p), 0.0, fills + 2 * n)
  {
    hide *;
    if n > 0 {
      RoundTrip(p, 0.0, fills, 1.0, 1.0);
      FlatTrips(p, n - 1, fills + 2);
    }
  }

  method NewTrader() returns (p: Portfolio)
    ensures fresh(p) && fresh(p.positions.Values) && p.Valid() && Closed(AccountOf(p), 0.0, 2)
  {
    p := new Portfolio(100.0);
    NewAccount(p);
    hide *;
    FirstRoundTrip(p);
  }

  /** A capital of 100 that a closed profit was added to. */
  method TradeA(profit: real) returns (p: Portfolio)
    ensures fresh(p) && fresh(p.positions.Values) && p.Valid() && Closed(AccountOf(p), profit, 98)
  {
    hide *;
    p := NewTrader();
    FlatTrips(p, 47, 2);
    RoundTrip(p, 0.0, 96, 1.0, 1.0 + profit);
  }

  /** Every such backtest is that of a portfolio: a closed profit of any size, then an equity that climbs. */
  method Play(first: real, m: real, d: real, profit: real) returns (p: Portfolio)
    ensures p.Valid() && BacktestOf(p) == Climb(first, m, d, [profit, 0.0])
  {
    hide Closed, Invested, Grow, BacktestOf, Portfolio.Valid, AccountOf;
    p := TradeA(profit);
    Invest(p, profit);
    var b := Grow(first, m - d);
    var c := Grow(b, m);
    MarkAt(p, profit, [], first);
    MarkAt(p, profit, [] + [first], b);
    MarkAt(p, profit, [] + [first] + [b], c);
    MarkAt(p, profit, [] + [first] + [b] + [c], Grow(c, m + d));
    InvestedFigures(p, profit, [] + [first] + [b] + [c] + [Grow(c, m + d)]);
  }

  lemma NewAccount(p: Portfolio)
    requires p.initialCash == 100.0 == p.cash && p.positions == map[] && p.order == [] && p.fills == [] && p.curve == []
    ensures AccountOf(p) == Account(100.0, 100.0, [], map[], 0, [])
  {
    assert p.Book() == map[];
  }

  lemma InvestedFigures(p: Portfolio, profit: real, equities: seq<real>)
    requires p.Valid() && Invested(AccountOf(p), profit, equities)
    ensures BacktestOf(p) == Backtest(100.0, equities, 0.0, [profit, 0.0], 100)
  {
    var book := p.Book();
    assert ["A", "B"][..1] == ["A"] && ["A"][..0] == [];
    assert RealizedIn([], book) == [];
    assert RealizedIn(["A"], book) == [profit];
  }
}

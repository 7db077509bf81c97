/**
 Portfolio accounting (backend/app/engine/contracts.py, `Position` and `Portfolio`): cash, positions and the
 equity curve under any run of fills and marks.  Check-pointing to JSON is left out.
 */
module PortfolioAccounting {
  import opened Common

  datatype Side = Buy | Sell

  /** Fees are brokerage and taxes together. */
  datatype Fill = Fill(security: string, side: Side, quantity: int, price: real, time: real, fees: real, slippage: real)
  {
    function Cost(): real {
      fees + slippage
    }
  }

  // ---------------------------------------------------------------- one position, as a value

  datatype Holding = Holding(quantity: int, average: real, realized: real, unrealized: real, current: real)

  /** The quantity with its direction. */
  function Signed(side: Side, quantity: int): int {
    if side.Buy? then quantity else -quantity
  }

  /** The money a fill takes; negative when it brings money in. */
  function Consideration(price: real, side: Side, quantity: int): real {
    Product(price, Signed(side, quantity) as real)
  }

  function Value(h: Holding): real {
    Product(h.current, h.quantity as real)
  }

  /** What was realized less what the open quantity cost. */
  function Brought(h: Holding): real {
    h.realized - Product(h.average, h.quantity as real)
  }

  /** Open profit against the current price; a flat position has no average price. */
  ghost predicate Marked(h: Holding) {
    && h.unrealized == Value(h) - Product(h.average, h.quantity as real)
    && (h.quantity == 0 ==> h.average == 0.0)
  }

  /** The fill adds to a long or to a short position, or opens one. */
  predicate Adds(h: Holding, side: Side) {
    if side.Buy? then h.quantity >= 0 else h.quantity <= 0
  }

  predicate SameDirection(before: int, after: int) {
    (before > 0 && after >= 0) || (before < 0 && after <= 0)
  }

  /**
   A fill of a position.  The books balance: what the position brought in falls by exactly the consideration.
   Adding realizes nothing; reducing keeps the average price; what is left of a flip was bought at the fill price.
   */
  ghost predicate FilledBy(before: Holding, after: Holding, side: Side, quantity: int, price: real) {
    && after.quantity == before.quantity + Signed(side, quantity)
    && after.current == price
    && Marked(after)
    && Brought(after) == Brought(before) - Consideration(price, side, quantity)
    && (Adds(before, side) ==> after.realized == before.realized)
    && (!Adds(before, side) && after.quantity != 0 ==>
          after.average == if SameDirection(before.quantity, after.quantity) then before.average else price)
  }

  /** The average price of `held` units at one price and `added` at another. */
  function Mean(held: real, average: real, added: real, price: real): real
    requires held + added > 0.0
  {
    (held * average + added * price) / (held + added)
  }

  function Profit(quantity: real, sold: real, bought: real): real {
    quantity * (sold - bought)
  }

  lemma MeanBalances(held: real, average: real, added: real, price: real)
    requires held + added > 0.0
    ensures Product(Mean(held, average, added, price), held + added) == Product(average, held) + Product(price, added)
  {
    DivAtLeast(held * average + added * price, 0.0, held + added);
  }

  lemma NegatedProduct(a: real, k: real)
    ensures Product(a, -k) == -Product(a, k) && Product(a, 0.0) == 0.0
  {
  }

  lemma ProfitIsDifference(quantity: real, a: real, b: real)
    ensures Profit(quantity, a, b) == Product(a, quantity) - Product(b, quantity)
  {
  }

  /** Reducing a position of q by k (or by -k) at an unchanged average a. */
  lemma ReduceBalances(a: real, p: real, q: real, k: real)
    ensures Profit(k, a, p) - Product(a, q + k) == -Product(a, q) - Product(p, k)
    ensures Profit(k, p, a) - Product(a, q - k) == -Product(a, q) + Product(p, k)
  {
    hide Profit, Product;
    ProductSplit(a, q, k);
    ProductSplit(a, q, -k);
    NegatedProduct(a, k);
    ProfitIsDifference(k, a, p);
    ProfitIsDifference(k, p, a);
  }

  /** Flipping: profit on the whole old position q, and a new average p. */
  lemma FlipBalances(a: real, p: real, q: real, k: real)
    ensures Profit(-q, a, p) - Product(p, q + k) == -Product(a, q) - Product(p, k)
    ensures Profit(q, p, a) - Product(p, q - k) == -Product(a, q) + Product(p, k)
  {
    hide Profit, Product;
    ProductSplit(p, q, k);
    ProductSplit(p, q, -k);
    NegatedProduct(p, k);
    NegatedProduct(p, q);
    NegatedProduct(a, q);
    ProfitIsDifference(-q, a, p);
    ProfitIsDifference(q, p, a);
  }

  class Position {
    var quantity: int
    var average: real
    var realized: real
    var unrealized: real
    var current: real

    constructor (price: real)
      ensures State() == Holding(0, 0.0, 0.0, 0.0, price) && Marked(State())
    {
      quantity, average, realized, unrealized, current := 0, 0.0, 0.0, 0.0, price;
      new;
      NegatedProduct(price, 0.0);
      NegatedProduct(0.0, 0.0);
    }

    function State(): Holding
      reads this
    {
      Holding(quantity, average, realized, unrealized, current)
    }

    method UpdatePrice(price: real)
      requires quantity == 0 ==> average == 0.0
      modifies this
      ensures State() == old(State()).(current := price, unrealized := State().unrealized) && Marked(State())
    {
      hide Profit, Product;
      current := price;
      NegatedProduct(price, quantity as real);
      NegatedProduct(average, quantity as real);
      if quantity > 0 {
        unrealized := Profit(quantity as real, price, average);
        ProfitIsDifference(quantity as real, price, average);
      } else if quantity < 0 {
        unrealized := Profit((-quantity) as real, average, price);
        ProfitIsDifference((-quantity) as real, average, price);
      } else {
        unrealized := 0.0;
      }
    }

    method ApplyFill(side: Side, filled: int, price: real) returns (profit: real)
      requires Marked(State())
      modifies this
      ensures filled <= 0 ==> State() == old(State()) && profit == 0.0
      ensures filled > 0 ==> FilledBy(old(State()), State(), side, filled, price)
      ensures realized == old(realized) + profit
    {
      profit := 0.0;
      if filled <= 0 {
        return;
      }
      hide Product, Profit, Mean;
      ghost var q, k := quantity as real, filled as real;
      NegatedProduct(price, k);
      var held, cost := quantity, average;
      if side.Buy? {
        if held >= 0 {
          quantity := held + filled;
          average := Mean(held as real, cost, filled as real, price);
          MeanBalances(q, cost, k, price);
        } else if filled <= -held {
          profit := Profit(filled as real, cost, price);
          ReduceBalances(cost, price, q, k);
          NegatedProduct(cost, 0.0);
          quantity := held + filled;
          if quantity == 0 {
            average := 0.0;
          }
        } else {
          profit := Profit((-held) as real, cost, price);
          FlipBalances(cost, price, q, k);
          quantity := filled + held;
          average := price;
        }
      } else {
        if held <= 0 {
          quantity := held - filled;
          average := Mean((-held) as real, cost, filled as real, price);
          MeanBalances(-q, cost, k, price);
          NegatedProduct(cost, q);
          NegatedProduct(average, q - k);
        } else if filled <= held {
          profit := Profit(filled as real, price, cost);
          ReduceBalances(cost, price, q, k);
          NegatedProduct(cost, 0.0);
          quantity := held - filled;
          if quantity == 0 {
            average := 0.0;
          }
        } else {
          profit := Profit(held as real, price, cost);
          FlipBalances(cost, price, q, k);
          quantity := -(filled - held);
          average := price;
        }
      }
      realized := realized + profit;
      NegatedProduct(0.0, 0.0);
      UpdatePrice(price);
    }
  }


  // ---------------------------------------------------------------- what a list of fills amounts to

  /** Units of a security bought less units sold. */
  function NetQuantity(fills: seq<Fill>, security: string): int {
    if fills == [] then 0
    else
      var f := fills[|fills| - 1];
      NetQuantity(fills[..|fills| - 1], security) + if f.security == security then Signed(f.side, f.quantity) else 0
  }

  /** Money paid for a security less money received for it, fees apart. */
  function Paid(fills: seq<Fill>, security: string): real {
    if fills == [] then 0.0
    else
      var f := fills[|fills| - 1];
      Paid(fills[..|fills| - 1], security)
      + if f.security == security then Consideration(f.price, f.side, f.quantity) else 0.0
  }

  function Fees(fills: seq<Fill>): real {
    if fills == [] then 0.0 else Fees(fills[..|fills| - 1]) + fills[|fills| - 1].Cost()
  }

  /** Money paid for all securities, fees apart. */
  function PaidInAll(fills: seq<Fill>): real {
    if fills == [] then 0.0
    else
      var f := fills[|fills| - 1];
      PaidInAll(fills[..|fills| - 1]) + Consideration(f.price, f.side, f.quantity)
  }

  lemma FillsSnoc(fills: seq<Fill>, f: Fill)
    ensures forall s :: NetQuantity(fills + [f], s)
                        == NetQuantity(fills, s) + if f.security == s then Signed(f.side, f.quantity) else 0
    ensures forall s :: Paid(fills + [f], s)
                        == Paid(fills, s)
                           + if f.security == s then Consideration(f.price, f.side, f.quantity) else 0.0
    ensures Fees(fills + [f]) == Fees(fills) + f.Cost()
    ensures PaidInAll(fills + [f]) == PaidInAll(fills) + Consideration(f.price, f.side, f.quantity)
  {
    assert (fills + [f])[..|fills|] == fills;
  }

  // ---------------------------------------------------------------- totals over the positions

  /** The keys of a dictionary in insertion order. */
  ghost predicate Keys(order: seq<string>, book: map<string, Holding>) {
    && (forall i, j :: 0 <= i < j < |order| ==> order[i] != order[j])
    && (forall s :: s in order <==> s in book)
  }

  function Total(order: seq<string>, book: map<string, Holding>, what: Holding -> real): real
    requires forall i :: 0 <= i < |order| ==> order[i] in book
  {
    if order == [] then 0.0
    else Total(order[..|order| - 1], book, what) + what(book[order[|order| - 1]])
  }

  function RealizedOf(h: Holding): real { h.realized }

  function UnrealizedOf(h: Holding): real { h.unrealized }

  /** Realized and open profit together are what the positions brought in plus what they are worth. */
  lemma {:induction false} ProfitIsBroughtAndValue(order: seq<string>, book: map<string, Holding>)
    requires forall i :: 0 <= i < |order| ==> order[i] in book && Marked(book[order[i]])
    ensures Total(order, book, RealizedOf) + Total(order, book, UnrealizedOf)
            == Total(order, book, Brought) + Total(order, book, Value)
  {
    hide Product;
    if order != [] { ProfitIsBroughtAndValue(order[..|order| - 1], book); }
  }

  /** Every position is the net of its fills, and brought in what was received for it. */
  ghost predicate Reconciled(book: map<string, Holding>, fills: seq<Fill>) {
    && (forall f :: f in fills ==> f.security in book)
    && (forall s :: s in book ==>
          Marked(book[s]) && book[s].quantity == NetQuantity(fills, s) && Brought(book[s]) == -Paid(fills, s))
  }

  function PaidFor(order: seq<string>, fills: seq<Fill>): real {
    if order == [] then 0.0 else PaidFor(order[..|order| - 1], fills) + Paid(fills, order[|order| - 1])
  }

  lemma {:induction false} BroughtIsPaid(order: seq<string>, book: map<string, Holding>, fills: seq<Fill>)
    requires Reconciled(book, fills) && forall i :: 0 <= i < |order| ==> order[i] in book
    ensures Total(order, book, Brought) == -PaidFor(order, fills)
  {
    hide Brought, Marked, Paid;
    if order != [] { BroughtIsPaid(order[..|order| - 1], book, fills); }
  }

  lemma {:induction false} PaidForSnoc(order: seq<string>, fills: seq<Fill>, f: Fill)
    requires forall i, j :: 0 <= i < j < |order| ==> order[i] != order[j]
    ensures PaidFor(order, fills + [f])
            == PaidFor(order, fills) + if f.security in order then Consideration(f.price, f.side, f.quantity) else 0.0
  {
    hide Consideration, Paid;
    if order != [] {
      PaidForSnoc(order[..|order| - 1], fills, f);
      FillsSnoc(fills, f);
      assert f.security in order <==> f.security == order[|order| - 1] || f.security in order[..|order| - 1];
    }
  }

  lemma {:induction false} NothingPaid(order: seq<string>)
    ensures PaidFor(order, []) == 0.0
  {
    if order != [] { NothingPaid(order[..|order| - 1]); }
  }

  /** Summed by security or in order of time, the fills cost the same. */
  lemma {:induction false} PaidEitherWay(order: seq<string>, fills: seq<Fill>)
    requires forall i, j :: 0 <= i < j < |order| ==> order[i] != order[j]
    requires forall f :: f in fills ==> f.security in order
    ensures PaidFor(order, fills) == PaidInAll(fills)
  {
    hide Consideration, Paid;
    if fills == [] {
      NothingPaid(order);
    } else {
      var f, earlier := fills[|fills| - 1], fills[..|fills| - 1];
      assert fills == earlier + [f];
      assert f in fills;
      PaidEitherWay(order, earlier);
      PaidForSnoc(order, earlier, f);
    }
  }

  /**
   The accounting identity.  Starting capital plus profits less fees, which is what the equity curve records,
   is the cash in hand plus the positions at their current prices.
   */
  lemma EquityIsCashAndValue(initialCash: real, order: seq<string>, book: map<string, Holding>, fills: seq<Fill>)
    requires Keys(order, book) && Reconciled(book, fills)
    ensures initialCash + Total(order, book, RealizedOf) + Total(order, book, UnrealizedOf) - Fees(fills)
            == (initialCash - PaidInAll(fills) - Fees(fills)) + Total(order, book, Value)
  {
    hide Total, Brought, Value, PaidFor, PaidInAll, Fees, Paid, NetQuantity, Marked;
    assert forall i :: 0 <= i < |order| ==> order[i] in order;
    ProfitIsBroughtAndValue(order, book);
    BroughtIsPaid(order, book, fills);
    PaidEitherWay(order, fills);
  }

  /** A fill moves the equity only by repricing what was already held; buying or selling at the market price is free. */
  lemma FillOnlyReprices(before: Holding, after: Holding, side: Side, quantity: int, price: real)
    requires FilledBy(before, after, side, quantity, price)
    ensures Value(after) - Consideration(price, side, quantity)
            == Value(before) + Product(price - before.current, before.quantity as real)
  {
    ProductSplit(price, before.quantity as real, Signed(side, quantity) as real);
    ProductSum(price, before.current, price - before.current, before.quantity as real);
  }

  /** When only one position is open, the positions are worth what that one is. */
  lemma {:induction false} OnlyOneHasValue(order: seq<string>, book: map<string, Holding>, security: string)
    requires forall i :: 0 <= i < |order| ==> order[i] in book
    requires forall i, j :: 0 <= i < j < |order| ==> order[i] != order[j]
    requires forall s :: s in book && s != security ==> book[s].quantity == 0
    ensures Total(order, book, Value) == if security in order then Value(book[security]) else 0.0
  {
    hide Product;
    if order != [] {
      var last := order[|order| - 1];
      OnlyOneHasValue(order[..|order| - 1], book, security);
      NegatedProduct(book[last].current, 0.0);
      assert security in order <==> security == last || security in order[..|order| - 1];
    }
  }

  /** Once a security is sold off, its realized profit is exactly what was received less what was paid. */
  lemma FlatIsFullyRealized(book: map<string, Holding>, fills: seq<Fill>, security: string)
    requires Reconciled(book, fills) && security in book && NetQuantity(fills, security) == 0
    ensures book[security].realized == -Paid(fills, security) && book[security].unrealized == 0.0
  {
    NegatedProduct(book[security].average, 0.0);
    NegatedProduct(book[security].current, 0.0);
  }

  // ---------------------------------------------------------------- the portfolio

  datatype EquityPoint = EquityPoint(time: real, equity: real, cash: real, unrealized: real, realized: real)

  datatype Mark = Mark(security: string, price: real)

  /** The last price quoted for a security, or the one before any quote. */
  function LatestPrice(marks: seq<Mark>, security: string, before: real): real {
    if marks == [] then before
    else if marks[|marks| - 1].security == security then marks[|marks| - 1].price
    else LatestPrice(marks[..|marks| - 1], security, before)
  }

  /** Repriced, otherwise unchanged. */
  ghost predicate RepricedBy(before: Holding, after: Holding, price: real) {
    after == before.(current := price, unrealized := after.unrealized) && Marked(after)
  }

  class Portfolio {
    const initialCash: real
    var cash: real
    var positions: map<string, Position>
    var order: seq<string>
    var fills: seq<Fill>
    var curve: seq<EquityPoint>

    constructor (initialCash: real)
      ensures Valid() && positions == map[] && order == [] && fills == [] && curve == []
      ensures this.initialCash == initialCash == cash
    {
      this.initialCash := initialCash;
      cash, positions, order, fills, curve := initialCash, map[], [], [], [];
    }

    /** The positions as values. */
    ghost function Book(): (book: map<string, Holding>)
      reads this`positions, positions.Values
      ensures book.Keys == positions.Keys
    {
      map s | s in positions :: positions[s].State()
    }

    ghost predicate Separate()
      reads this`positions
    {
      forall s, t :: s in positions && t in positions && s != t ==> positions[s] != positions[t]
    }

    /** Positions agree with the fills, and cash is what the fills left of the starting capital. */
    ghost predicate Valid()
      reads this, positions.Values
    {
      && Keys(order, Book()) && Reconciled(Book(), fills) && Separate()
      && cash == initialCash - PaidInAll(fills) - Fees(fills)
    }

    /** A flat position for a security not held so far. */
    method Open(security: string, price: real)
      requires Valid() && security !in positions
      modifies this`positions, this`order
      ensures Valid() && positions.Keys == old(positions.Keys) + {security} && order == old(order) + [security]
      ensures fresh(positions[security]) && positions == old(positions)[security := positions[security]]
      ensures Book() == old(Book())[security := Holding(0, 0.0, 0.0, 0.0, price)]
    {
      hide Keys, Reconciled;
      var position := new Position(price);
      OpeningKeepsBooks(order, Book(), fills, security, position.State());
      ghost var before := Book();
      positions := positions[security := position];
      order := order + [security];
      assert Book() == before[security := position.State()];
    }

    method ApplyFill(fill: Fill)
      requires Valid() && fill.quantity > 0
      modifies this, positions.Values
      ensures Valid() && fills == old(fills) + [fill] && curve == old(curve)
      ensures positions.Keys == old(positions.Keys) + {fill.security}
      ensures order == if fill.security in old(positions) then old(order) else old(order) + [fill.security]
      ensures fresh(positions.Values - old(positions.Values))
      ensures forall s :: s in old(positions) && s != fill.security ==> Book()[s] == old(Book())[s]
      ensures var before := if fill.security in old(positions) then old(Book())[fill.security]
                            else Holding(0, 0.0, 0.0, 0.0, fill.price);
              FilledBy(before, Book()[fill.security], fill.side, fill.quantity, fill.price)
    {
      hide Keys, Reconciled, Consideration, FilledBy, Fees, PaidInAll;
      if fill.security !in positions {
        Open(fill.security, fill.price);
      }
      FillHeld(fill);
    }

    method FillHeld(fill: Fill)
      requires Valid() && fill.quantity > 0 && fill.security in positions
      modifies this`cash, this`fills, positions[fill.security]
      ensures Valid() && fills == old(fills) + [fill]
      ensures Book() == old(Book())[fill.security := Book()[fill.security]]
      ensures FilledBy(old(Book())[fill.security], Book()[fill.security], fill.side, fill.quantity, fill.price)
    {
      hide Keys, Reconciled, Consideration, FilledBy, Fees, PaidInAll;
      var position := positions[fill.security];
      ghost var before := Book();
      FillsSnoc(fills, fill);
      ConsiderationOfSide(fill.price, fill.side, fill.quantity);
      BookHasMarked(before, fills, fill.security);
      var value := fill.price * fill.quantity as real;
      if fill.side.Buy? {
        cash := cash - (value + fill.Cost());
      } else {
        cash := cash + (value - fill.Cost());
      }
      var profit := position.ApplyFill(fill.side, fill.quantity, fill.price);
      FillKeepsBooks(order, before, fills, fill, position.State());
      fills := fills + [fill];
      assert Book() == before[fill.security := position.State()];
    }

    lemma BooksBalance()
      requires Valid()
      ensures initialCash + Total(order, Book(), RealizedOf) + Total(order, Book(), UnrealizedOf) - Fees(fills)
              == cash + Total(order, Book(), Value)
    {
      hide Keys, Reconciled, Total, Fees, PaidInAll, Value;
      EquityIsCashAndValue(initialCash, order, Book(), fills);
    }

    method Record(point: EquityPoint)
      requires Valid()
      modifies this`curve
      ensures Valid() && Book() == old(Book())
      ensures curve == old(curve) + [point]
    {
      hide Keys, Reconciled, Total, Fees, PaidInAll;
      curve := curve + [point];
      assert Book() == old(Book());
    }

    /** Reprice, then record the totals. */
    method MarkToMarket(marks: seq<Mark>, time: real) returns (equity: real)
      requires Valid()
      modifies this`curve, positions.Values
      ensures Valid()
      ensures forall s :: s in positions ==>
                RepricedBy(old(Book())[s], Book()[s], LatestPrice(marks, s, old(Book())[s].current))
      ensures equity == cash + Total(order, Book(), Value)
      ensures curve == old(curve) + [EquityPoint(time, equity, cash, Total(order, Book(), UnrealizedOf),
                                                 Total(order, Book(), RealizedOf))]
    {
      hide Keys, Reconciled, Total, Fees, PaidInAll, Value, RepricedBy, LatestPrice, Valid, Book;
      UpdatePrices(marks);
      var totalUnrealized, totalRealized := Totals();
      var totalCosts := SumFees(fills);
      equity := initialCash + totalRealized + totalUnrealized - totalCosts;
      BooksBalance();
      Record(EquityPoint(time, equity, cash, totalUnrealized, totalRealized));
    }

    method UpdatePrices(marks: seq<Mark>)
      requires Valid()
      modifies positions.Values
      ensures Valid()
      ensures forall s :: s in positions ==>
                RepricedBy(old(Book())[s], Book()[s], LatestPrice(marks, s, old(Book())[s].current))
    {
      hide Keys, Fees, PaidInAll;
      ghost var before := Book();
      for i := 0 to |marks|
        invariant Book().Keys == before.Keys
        invariant forall s :: s in positions ==> RepricedBy(before[s], Book()[s],
                                                            LatestPrice(marks[..i], s, before[s].current))
      {
        assert marks[..i + 1][..i] == marks[..i];
        var security := marks[i].security;
        if security in positions {
          positions[security].UpdatePrice(marks[i].price);
        }
      }
      assert marks[..|marks|] == marks;
      RepricingKeepsBooks(order, before, Book(), fills);
    }

    method Totals() returns (unrealized: real, realized: real)
      requires Valid()
      ensures unrealized == Total(order, Book(), UnrealizedOf) && realized == Total(order, Book(), RealizedOf)
    {
      unrealized, realized := 0.0, 0.0;
      for i := 0 to |order|
        invariant unrealized == Total(order[..i], Book(), UnrealizedOf)
                  && realized == Total(order[..i], Book(), RealizedOf)
      {
        assert order[i] in order;
        assert order[..i + 1][..i] == order[..i];
        unrealized := unrealized + positions[order[i]].unrealized;
        realized := realized + positions[order[i]].realized;
      }
      assert order[..|order|] == order;
    }
  }

  method SumFees(fills: seq<Fill>) returns (total: real)
    ensures total == Fees(fills)
  {
    total := 0.0;
    for i := 0 to |fills|
      invariant total == Fees(fills[..i])
    {
      assert fills[..i + 1][..i] == fills[..i];
      total := total + fills[i].Cost();
    }
    assert fills[..|fills|] == fills;
  }

  lemma RepricingKeepsBooks(order: seq<string>, before: map<string, Holding>, after: map<string, Holding>,
                            fills: seq<Fill>)
    requires Keys(order, before) && Reconciled(before, fills) && after.Keys == before.Keys
    requires forall s :: s in before ==> RepricedBy(before[s], after[s], after[s].current)
    ensures Keys(order, after) && Reconciled(after, fills)
  {
    hide Marked, NetQuantity, Paid;
  }

  lemma ConsiderationOfSide(price: real, side: Side, quantity: int)
    ensures Consideration(price, side, quantity)
            == if side.Buy? then price * quantity as real else -(price * quantity as real)
  {
    NegatedProduct(price, quantity as real);
  }

  lemma BookHasMarked(book: map<string, Holding>, fills: seq<Fill>, security: string)
    requires Reconciled(book, fills) && security in book
    ensures Marked(book[security])
  {
  }

  lemma {:induction false} NoFills(fills: seq<Fill>, security: string)
    requires forall f :: f in fills ==> f.security != security
    ensures NetQuantity(fills, security) == 0 && Paid(fills, security) == 0.0
  {
    if fills != [] {
      assert fills[|fills| - 1] in fills;
      NoFills(fills[..|fills| - 1], security);
    }
  }

  lemma OpeningKeepsBooks(order: seq<string>, book: map<string, Holding>, fills: seq<Fill>, security: string,
                          flat: Holding)
    requires Keys(order, book) && Reconciled(book, fills) && security !in book
    requires Marked(flat) && flat.quantity == 0 && flat.realized == 0.0
    ensures Keys(order + [security], book[security := flat]) && Reconciled(book[security := flat], fills)
  {
    NegatedProduct(flat.average, 0.0);
    NoFills(fills, security);
  }

  lemma FillKeepsBooks(order: seq<string>, book: map<string, Holding>, fills: seq<Fill>, fill: Fill, after: Holding)
    requires Keys(order, book) && Reconciled(book, fills) && fill.security in book
    requires FilledBy(book[fill.security], after, fill.side, fill.quantity, fill.price)
    ensures Keys(order, book[fill.security := after]) && Reconciled(book[fill.security := after], fills + [fill])
  {
    hide Marked, Consideration, Brought;
    FillsSnoc(fills, fill);
  }
}

/**
 Margin of an option basket with relief for hedged positions (backend/app/analytics/options_margin.py).
 The rounding of the reported figures is left out.
 */
module BasketMargin {
  import opened Common
  import opened OptionLegs

  datatype Rates = Rates(span: real, exposure: real)
  {
    predicate Valid() {
      span >= 0.0 && exposure >= 0.0
    }
  }

  datatype LegMargin = LegMargin(premium: real, span: real, exposure: real)
  {
    function Total(): real {
      premium + span + exposure
    }
  }

  function Units(leg: OptionLeg): real {
    (leg.quantity * leg.lotSize) as real
  }

  /** A bought leg costs its premium; a sold one a share of the contract value plus the premium received. */
  function MarginOf(leg: OptionLeg, spot: real, rates: Rates): LegMargin {
    var units := Units(leg);
    if leg.isBuy then LegMargin(Product(leg.entryPrice, units), 0.0, 0.0)
    else
      LegMargin(0.0,
                Product(Product(spot, units), rates.span) + Product(leg.entryPrice, units),
                Product(Product(spot, units), rates.exposure))
  }

  /** The figures of several legs, added up. */
  function Totals(legs: seq<OptionLeg>, spot: real, rates: Rates): LegMargin {
    if legs == [] then LegMargin(0.0, 0.0, 0.0)
    else
      var t, m := Totals(legs[..|legs| - 1], spot, rates), MarginOf(legs[|legs| - 1], spot, rates);
      LegMargin(t.premium + m.premium, t.span + m.span, t.exposure + m.exposure)
  }

  /** The legs on one side of the market, in order. */
  function Select(legs: seq<OptionLeg>, isBuy: bool, isCall: bool): seq<OptionLeg> {
    if legs == [] then []
    else
      var rest, leg := Select(legs[..|legs| - 1], isBuy, isCall), legs[|legs| - 1];
      if leg.isBuy == isBuy && leg.isCall == isCall then rest + [leg] else rest
  }

  /** The contracts two legs have in common, in units of the short leg's lot. */
  function MatchedUnits(short: OptionLeg, long: OptionLeg): real {
    ((if short.quantity <= long.quantity then short.quantity else long.quantity) * short.lotSize) as real
  }

  /** What pairing a short with a long leg takes off the gross margin. */
  function Relief(short: OptionLeg, long: OptionLeg, spot: real, rates: Rates): real {
    var units := MatchedUnits(short, long);
    var risk := Product(Abs(short.strike - long.strike), units);
    var shortCost := Product(Product(spot, units), rates.span + rates.exposure) + Product(short.entryPrice, units);
    var longCost := Product(long.entryPrice, units);
    var capped := Max(risk, longCost) + Product(Product(spot, units), 0.005);
    Max(0.0, shortCost + longCost - capped)
  }

  /** The reliefs of the first n pairs. */
  function Reliefs(shorts: seq<OptionLeg>, longs: seq<OptionLeg>, n: nat, spot: real, rates: Rates): real
    requires n <= |shorts| && n <= |longs|
  {
    if n == 0 then 0.0
    else Reliefs(shorts, longs, n - 1, spot, rates) + Relief(shorts[n - 1], longs[n - 1], spot, rates)
  }

  function Pairs(shorts: seq<OptionLeg>, longs: seq<OptionLeg>): nat {
    if |shorts| <= |longs| then |shorts| else |longs|
  }

  /** The margin after the vertical spreads are recognised. */
  function Spread(legs: seq<OptionLeg>, spot: real, rates: Rates): real {
    var sc, lc := Select(legs, false, true), Select(legs, true, true);
    var sp, lp := Select(legs, false, false), Select(legs, true, false);
    Totals(legs, spot, rates).Total()
    - Reliefs(sc, lc, Pairs(sc, lc), spot, rates)
    - Reliefs(sp, lp, Pairs(sp, lp), spot, rates)
  }

  /** The margin of the first call spread and first put spread taken together as a condor. */
  function Condor(sc: OptionLeg, lc: OptionLeg, sp: OptionLeg, lp: OptionLeg, spot: real): real {
    var units := ((if sc.quantity <= sp.quantity then sc.quantity else sp.quantity) * sc.lotSize) as real;
    Product(Max(Abs(sc.strike - lc.strike), Abs(sp.strike - lp.strike)), units)
    + Product(Product(spot, units), 0.01) + Product(lc.entryPrice + lp.entryPrice, units)
  }

  predicate HasBothWings(legs: seq<OptionLeg>) {
    && Select(legs, false, true) != [] && Select(legs, true, true) != []
    && Select(legs, false, false) != [] && Select(legs, true, false) != []
  }

  function Hedged(legs: seq<OptionLeg>, spot: real, rates: Rates): real {
    var spread := Spread(legs, spot, rates);
    if HasBothWings(legs) then
      Min(spread, Condor(Select(legs, false, true)[0], Select(legs, true, true)[0],
                         Select(legs, false, false)[0], Select(legs, true, false)[0], spot))
    else spread
  }

  datatype BasketMargin = BasketMargin(gross: real, span: real, exposure: real, premium: real,
                                       benefit: real, net: real, isAvailable: bool, breakdown: seq<LegMargin>)

  const NOTHING := BasketMargin(0.0, 0.0, 0.0, 0.0, 0.0, 0.0, true, [])

  /** The reliefs of one side, pair by pair, off a running margin. */
  method Relieve(margin: real, shorts: seq<OptionLeg>, longs: seq<OptionLeg>, spot: real, rates: Rates)
    returns (hedged: real)
    ensures hedged == margin - Reliefs(shorts, longs, Pairs(shorts, longs), spot, rates)
  {
    hide Relief;
    hedged := margin;
    for i := 0 to Pairs(shorts, longs)
      invariant hedged == margin - Reliefs(shorts, longs, i, spot, rates)
    {
      hedged := hedged - Relief(shorts[i], longs[i], spot, rates);
    }
  }

  method CalculateBasketMargin(basket: seq<OptionLeg>, spot: real, rates: Rates) returns (r: BasketMargin)
    ensures spot <= 0.0 ==> r == NOTHING.(isAvailable := false)
    ensures spot > 0.0 ==>
              var legs := Active(basket);
              var totals := Totals(legs, spot, rates);
              && r.isAvailable
              && (r.span, r.exposure, r.premium) == (totals.span, totals.exposure, totals.premium)
              && r.gross == totals.Total()
              && (legs != [] ==> && r.benefit == Max(0.0, r.gross - Hedged(legs, spot, rates))
                                 && r.net == Max(r.premium, Hedged(legs, spot, rates)))
              && (legs == [] ==> r == NOTHING)
              && |r.breakdown| == |legs|
              && (forall i :: 0 <= i < |legs| ==> r.breakdown[i] == MarginOf(legs[i], spot, rates))
  {
    if spot <= 0.0 {
      return NOTHING.(isAvailable := false);
    }
    var legs := Active(basket);
    if legs == [] {
      return NOTHING;
    }
    hide Active, MarginOf, Relief, Condor;
    var span, exposure, premium := 0.0, 0.0, 0.0;
    var sc, lc, sp, lp := [], [], [], [];
    var breakdown: seq<LegMargin> := [];
    for i := 0 to |legs|
      invariant LegMargin(premium, span, exposure) == Totals(legs[..i], spot, rates)
      invariant sc == Select(legs[..i], false, true) && lc == Select(legs[..i], true, true)
      invariant sp == Select(legs[..i], false, false) && lp == Select(legs[..i], true, false)
      invariant |breakdown| == i && forall k :: 0 <= k < i ==> breakdown[k] == MarginOf(legs[k], spot, rates)
    {
      assert legs[..i + 1][..i] == legs[..i];
      var leg := legs[i];
      var m := MarginOf(leg, spot, rates);
      premium, span, exposure := premium + m.premium, span + m.span, exposure + m.exposure;
      if leg.isBuy {
        if leg.isCall { lc := lc + [leg]; } else { lp := lp + [leg]; }
      } else {
        if leg.isCall { sc := sc + [leg]; } else { sp := sp + [leg]; }
      }
      breakdown := breakdown + [m];
    }
    assert legs[..|legs|] == legs;
    var gross := span + exposure + premium;
    var hedged := Relieve(gross, sc, lc, spot, rates);
    hedged := Relieve(hedged, sp, lp, spot, rates);
    if sc != [] && lc != [] && sp != [] && lp != [] {
      var condor := Condor(sc[0], lc[0], sp[0], lp[0], spot);
      if condor < hedged {
        hedged := condor;
      }
    }
    r := BasketMargin(gross, span, exposure, premium, Max(0.0, gross - hedged), Max(premium, hedged), true, breakdown);
  }

  // ---------------------------------------------------------------- what the figures guarantee

  ghost predicate ValidLegs(legs: seq<OptionLeg>) {
    forall i :: 0 <= i < |legs| ==> legs[i].Valid()
  }

  lemma FiguresAreNonNegative(leg: OptionLeg, spot: real, rates: Rates)
    requires leg.Valid() && spot > 0.0 && rates.Valid()
    ensures var m := MarginOf(leg, spot, rates); m.premium >= 0.0 && m.span >= 0.0 && m.exposure >= 0.0
  {
    hide Product;
    ProductSign(leg.entryPrice, Units(leg));
    ProductSign(spot, Units(leg));
    ProductSign(Product(spot, Units(leg)), rates.span);
    ProductSign(Product(spot, Units(leg)), rates.exposure);
  }

  /** A pair's relief never exceeds the short leg's own margin, whatever the two lot sizes. */
  lemma ReliefWithinShortMargin(short: OptionLeg, long: OptionLeg, spot: real, rates: Rates)
    requires short.Valid() && long.Valid() && !short.isBuy && spot > 0.0 && rates.Valid()
    ensures 0.0 <= Relief(short, long, spot, rates) <= MarginOf(short, spot, rates).Total()
  {
    hide Product;
    var u, all := MatchedUnits(short, long), Units(short);
    FiguresAreNonNegative(short, spot, rates);
    MatchedWithin(short, long);
    ProductMono(u, all, short.entryPrice);
    ProductMono(u, all, spot);
    ProductSign(spot, u);
    ProductSign(Product(spot, u), 0.005);
    ProductMonoLeft(Product(spot, u), Product(spot, all), rates.span + rates.exposure);
    ProductSplit(Product(spot, all), rates.span, rates.exposure);
  }

  lemma MatchedWithin(short: OptionLeg, long: OptionLeg)
    requires short.Valid() && long.Valid()
    ensures 0.0 <= MatchedUnits(short, long) <= Units(short)
  {
  }

  function LegTotals(legs: seq<OptionLeg>, spot: real, rates: Rates): seq<real> {
    seq(|legs|, i requires 0 <= i < |legs| => MarginOf(legs[i], spot, rates).Total())
  }

  /** The gross margin is the sum of the leg margins. */
  lemma {:induction false} GrossIsSumOfLegs(legs: seq<OptionLeg>, spot: real, rates: Rates)
    ensures Totals(legs, spot, rates).Total() == Sum(LegTotals(legs, spot, rates))
  {
    hide MarginOf;
    if legs != [] {
      GrossIsSumOfLegs(legs[..|legs| - 1], spot, rates);
      assert LegTotals(legs, spot, rates)[..|legs| - 1] == LegTotals(legs[..|legs| - 1], spot, rates);
    }
  }

  ghost predicate AllOn(legs: seq<OptionLeg>, isBuy: bool) {
    ValidLegs(legs) && forall i :: 0 <= i < |legs| ==> legs[i].isBuy == isBuy
  }

  lemma {:induction false} SelectedLegs(legs: seq<OptionLeg>, isBuy: bool, isCall: bool)
    requires ValidLegs(legs)
    ensures AllOn(Select(legs, isBuy, isCall), isBuy)
  {
    if legs != [] { SelectedLegs(legs[..|legs| - 1], isBuy, isCall); }
  }

  lemma TotalsSnoc(legs: seq<OptionLeg>, leg: OptionLeg, spot: real, rates: Rates)
    ensures Totals(legs + [leg], spot, rates).Total()
            == Totals(legs, spot, rates).Total() + MarginOf(leg, spot, rates).Total()
  {
    assert (legs + [leg])[..|legs|] == legs;
  }

  /** Sold legs carry the whole span and exposure, calls and puts apart; bought legs the premium. */
  lemma {:induction false} ShortsCarrySpanAndExposure(legs: seq<OptionLeg>, spot: real, rates: Rates)
    ensures Totals(legs, spot, rates).span + Totals(legs, spot, rates).exposure
            == Totals(Select(legs, false, true), spot, rates).Total()
                + Totals(Select(legs, false, false), spot, rates).Total()
  {
    if legs != [] {
      var rest, leg := legs[..|legs| - 1], legs[|legs| - 1];
      ShortsCarrySpanAndExposure(rest, spot, rates);
      TotalsSnoc(Select(rest, false, true), leg, spot, rates);
      TotalsSnoc(Select(rest, false, false), leg, spot, rates);
    }
  }

  lemma {:induction false} TotalsNonNegative(legs: seq<OptionLeg>, spot: real, rates: Rates)
    requires ValidLegs(legs) && spot > 0.0 && rates.Valid()
    ensures var t := Totals(legs, spot, rates); t.premium >= 0.0 && t.span >= 0.0 && t.exposure >= 0.0
  {
    hide MarginOf;
    if legs != [] {
      TotalsNonNegative(legs[..|legs| - 1], spot, rates);
      FiguresAreNonNegative(legs[|legs| - 1], spot, rates);
    }
  }

  /** The reliefs of the first n pairs never exceed the margins of the n short legs they pair. */
  lemma {:induction false} ReliefsWithinShorts(shorts: seq<OptionLeg>, longs: seq<OptionLeg>, n: nat, spot: real,
                                               rates: Rates)
    requires n <= |shorts| && n <= |longs| && AllOn(shorts, false) && ValidLegs(longs) && spot > 0.0 && rates.Valid()
    ensures 0.0 <= Reliefs(shorts, longs, n, spot, rates) <= Totals(shorts[..n], spot, rates).Total()
  {
    hide Relief, MarginOf;
    if n > 0 {
      ReliefsWithinShorts(shorts, longs, n - 1, spot, rates);
      ReliefWithinShortMargin(shorts[n - 1], longs[n - 1], spot, rates);
      assert shorts[..n][..n - 1] == shorts[..n - 1];
    }
  }

  lemma {:induction false} PrefixTotals(legs: seq<OptionLeg>, n: nat, spot: real, rates: Rates)
    requires n <= |legs| && ValidLegs(legs) && spot > 0.0 && rates.Valid()
    ensures Totals(legs[..n], spot, rates).Total() <= Totals(legs, spot, rates).Total()
    decreases |legs|
  {
    hide MarginOf;
    if n < |legs| {
      var rest := legs[..|legs| - 1];
      PrefixTotals(rest, n, spot, rates);
      assert rest[..n] == legs[..n];
      FiguresAreNonNegative(legs[|legs| - 1], spot, rates);
    } else {
      assert legs[..n] == legs;
    }
  }

  lemma SideRelief(shorts: seq<OptionLeg>, longs: seq<OptionLeg>, spot: real, rates: Rates)
    requires AllOn(shorts, false) && ValidLegs(longs) && spot > 0.0 && rates.Valid()
    ensures 0.0 <= Reliefs(shorts, longs, Pairs(shorts, longs), spot, rates) <= Totals(shorts, spot, rates).Total()
  {
    ReliefsWithinShorts(shorts, longs, Pairs(shorts, longs), spot, rates);
    PrefixTotals(shorts, Pairs(shorts, longs), spot, rates);
  }

  /**
     For any basket with non-negative rates, lot sizes equal or not: recognising spreads never brings the
     margin below the premiums of the bought legs, so it stays non-negative; the net requirement lies
     between total premium and gross margin; and the premium floor binds only through the condor rule.
     */
  lemma MarginIsBounded(legs: seq<OptionLeg>, spot: real, rates: Rates)
    requires ValidLegs(legs) && spot > 0.0 && rates.Valid()
    ensures var premium, gross := Totals(legs, spot, rates).premium, Totals(legs, spot, rates).Total();
            var spread, hedged := Spread(legs, spot, rates), Hedged(legs, spot, rates);
            && 0.0 <= premium <= spread <= gross
            && 0.0 <= hedged && premium <= Max(premium, hedged) <= gross
            && Max(0.0, gross - hedged) == gross - hedged
            && (Max(premium, hedged) != hedged ==> HasBothWings(legs))
  {
    hide Totals, Select, Reliefs, Condor;
    TotalsNonNegative(legs, spot, rates);
    ShortsCarrySpanAndExposure(legs, spot, rates);
    SelectedLegs(legs, false, true);
    SelectedLegs(legs, true, true);
    SelectedLegs(legs, false, false);
    SelectedLegs(legs, true, false);
    SideRelief(Select(legs, false, true), Select(legs, true, true), spot, rates);
    SideRelief(Select(legs, false, false), Select(legs, true, false), spot, rates);
    if HasBothWings(legs) {
      CondorNonNegative(Select(legs, false, true)[0], Select(legs, true, true)[0],
                        Select(legs, false, false)[0], Select(legs, true, false)[0], spot);
    }
  }

  lemma CondorNonNegative(sc: OptionLeg, lc: OptionLeg, sp: OptionLeg, lp: OptionLeg, spot: real)
    requires sc.Valid() && lc.Valid() && sp.Valid() && lp.Valid() && spot > 0.0
    ensures Condor(sc, lc, sp, lp, spot) >= 0.0
  {
    var quantity := if sc.quantity <= sp.quantity then sc.quantity else sp.quantity;
    UnitsNonNegative(quantity, sc.lotSize);
    var units := (quantity * sc.lotSize) as real;
    ProductSign(Max(Abs(sc.strike - lc.strike), Abs(sp.strike - lp.strike)), units);
    ProductSign(spot, units);
    ProductSign(Product(spot, units), 0.01);
    ProductSign(lc.entryPrice + lp.entryPrice, units);
  }

  lemma UnitsNonNegative(quantity: int, lotSize: int)
    requires quantity > 0 && lotSize > 0
    ensures quantity * lotSize > 0
  {
  }

  lemma SelectSnoc(legs: seq<OptionLeg>, leg: OptionLeg, isBuy: bool, isCall: bool)
    ensures Select(legs + [leg], isBuy, isCall)
            == if leg.isBuy == isBuy && leg.isCall == isCall then Select(legs, isBuy, isCall) + [leg]
               else Select(legs, isBuy, isCall)
  {
    assert (legs + [leg])[..|legs|] == legs;
  }

  lemma SelectPair(first: OptionLeg, second: OptionLeg, isBuy: bool, isCall: bool)
    ensures var one := first.isBuy == isBuy && first.isCall == isCall;
            var two := second.isBuy == isBuy && second.isCall == isCall;
            Select([first, second], isBuy, isCall)
            == if one && two then [first, second] else if one then [first] else if two then [second] else []
  {
    SelectSnoc([], first, isBuy, isCall);
    SelectSnoc([first], second, isBuy, isCall);
    assert [first] + [second] == [first, second] && [] + [first] == [first] && [] + [second] == [second];
  }

  /**
     What a vertical spread can lose at most, or its bought premium if that is more, plus half a percent of the
     contract.
     */
  function CappedRisk(short: OptionLeg, long: OptionLeg, spot: real): real {
    var units := Units(short);
    Max(Product(Abs(short.strike - long.strike), units), Product(long.entryPrice, units))
        + Product(Product(spot, units), 0.005)
  }

  /**
     A sold leg and an equally large bought leg of the same type are charged the spread's capped risk, if that is
     less than both alone.
     */
  lemma VerticalSpreadIsCapped(short: OptionLeg, long: OptionLeg, spot: real, rates: Rates)
    requires !short.isBuy && long.isBuy && short.isCall == long.isCall
    requires short.quantity == long.quantity && short.lotSize == long.lotSize
    ensures var gross := MarginOf(short, spot, rates).Total() + MarginOf(long, spot, rates).Total();
            Hedged([short, long], spot, rates) == Min(gross, CappedRisk(short, long, spot))
  {
    PairIsRelieved(short, long, spot, rates);
    ReliefOfEqualPair(short, long, spot, rates);
    hide Hedged, Relief, MarginOf;
  }

  lemma NoTotals(spot: real, rates: Rates)
    ensures Totals([], spot, rates).Total() == 0.0
  {
  }

  lemma OnePair(shorts: seq<OptionLeg>, longs: seq<OptionLeg>, spot: real, rates: Rates)
    requires |shorts| == |longs| == 1
    ensures Reliefs(shorts, longs, 1, spot, rates) == Relief(shorts[0], longs[0], spot, rates)
    ensures Reliefs([], [], 0, spot, rates) == 0.0
  {
  }

  lemma ReliefOfEqualPair(short: OptionLeg, long: OptionLeg, spot: real, rates: Rates)
    requires !short.isBuy && long.isBuy && short.quantity == long.quantity && short.lotSize == long.lotSize
    ensures Relief(short, long, spot, rates)
            == Max(0.0, MarginOf(short, spot, rates).Total() + MarginOf(long, spot, rates).Total()
                        - CappedRisk(short, long, spot))
  {
    hide Product;
    ProductSplit(Product(spot, Units(short)), rates.span, rates.exposure);
  }

  /** n lots more or fewer of one contract. */
  function Part(leg: OptionLeg, quantity: int): OptionLeg {
    leg.(quantity := quantity)
  }

  lemma UnitsSplit(leg: OptionLeg, q: int)
    ensures Units(leg) == Units(Part(leg, q)) + Units(Part(leg, leg.quantity - q))
  {
    assert leg.quantity * leg.lotSize == q * leg.lotSize + (leg.quantity - q) * leg.lotSize;
  }

  /** A leg is charged as much as its two parts. */
  lemma MarginSplits(leg: OptionLeg, q: int, spot: real, rates: Rates)
    ensures MarginOf(leg, spot, rates).Total()
            == MarginOf(Part(leg, q), spot, rates).Total() + MarginOf(Part(leg, leg.quantity - q), spot, rates).Total()
  {
    hide Product;
    var u, v, w := Units(leg), Units(Part(leg, q)), Units(Part(leg, leg.quantity - q));
    hide Units;
    UnitsSplit(leg, q);
    assert ProductAdds(leg.entryPrice, u, v, w) by { ProductSplit(leg.entryPrice, v, w); }
    assert ProductAdds(spot, u, v, w) by { ProductSplit(spot, v, w); }
    ProductSum(Product(spot, u), Product(spot, v), Product(spot, w), rates.span);
    ProductSum(Product(spot, u), Product(spot, v), Product(spot, w), rates.exposure);
  }

  ghost predicate ProductAdds(a: real, u: real, v: real, w: real) {
    Product(a, u) == Product(a, v) + Product(a, w)
  }

  /**
     A spread of unequal quantities is charged as the spread of the smaller quantity, and the rest of the larger
     leg on its own.
     */
  lemma UnequalSpreadSplits(short: OptionLeg, long: OptionLeg, spot: real, rates: Rates)
    requires !short.isBuy && long.isBuy && short.isCall == long.isCall && short.lotSize == long.lotSize
    ensures var q := if short.quantity <= long.quantity then short.quantity else long.quantity;
            Hedged([short, long], spot, rates)
            == Hedged([Part(short, q), Part(long, q)], spot, rates)
                + MarginOf(Part(short, short.quantity - q), spot, rates).Total()
                + MarginOf(Part(long, long.quantity - q), spot, rates).Total()
  {
    var q := if short.quantity <= long.quantity then short.quantity else long.quantity;
    hide Hedged, Relief, MarginOf;
    PairIsRelieved(short, long, spot, rates);
    PairIsRelieved(Part(short, q), Part(long, q), spot, rates);
    MarginSplits(short, q, spot, rates);
    MarginSplits(long, q, spot, rates);
    SameRelief(short, long, spot, rates);
  }

  lemma SameRelief(short: OptionLeg, long: OptionLeg, spot: real, rates: Rates)
    ensures var q := if short.quantity <= long.quantity then short.quantity else long.quantity;
            Relief(short, long, spot, rates) == Relief(Part(short, q), Part(long, q), spot, rates)
  {
    hide Product;
  }

  /** A sold leg and a bought one of the same type: both charged, less the relief of the pair. */
  lemma PairIsRelieved(short: OptionLeg, long: OptionLeg, spot: real, rates: Rates)
    requires !short.isBuy && long.isBuy && short.isCall == long.isCall
    ensures Hedged([short, long], spot, rates)
            == MarginOf(short, spot, rates).Total() + MarginOf(long, spot, rates).Total()
                - Relief(short, long, spot, rates)
  {
    hide Select, Totals, MarginOf, Relief;
    SelectPair(short, long, false, true);
    SelectPair(short, long, true, true);
    SelectPair(short, long, false, false);
    SelectPair(short, long, true, false);
    TotalsSnoc([], short, spot, rates);
    TotalsSnoc([short], long, spot, rates);
    NoTotals(spot, rates);
    assert [short] + [long] == [short, long] && [] + [short] == [short];
    OnePair([short], [long], spot, rates);
  }

  /** What the figures are in plain arithmetic. */
  lemma LegIsChargedByUnits(leg: OptionLeg, spot: real, rates: Rates)
    ensures var units := (leg.quantity * leg.lotSize) as real;
            MarginOf(leg, spot, rates).Total()
            == if leg.isBuy then leg.entryPrice * units
               else spot * units * (rates.span + rates.exposure) + leg.entryPrice * units
  {
    var units := Units(leg);
    ProductSplit(Product(spot, units), rates.span, rates.exposure);
  }

  /**
     Whatever the widths of the two wings, a condor is charged for the wider one only, on the smaller of the two
     sold quantities, with one percent of the contract and both bought premiums on top.
     */
  lemma WiderWingIsCharged(sc: OptionLeg, lc: OptionLeg, sp: OptionLeg, lp: OptionLeg, spot: real, units: real)
    requires sc.quantity <= sp.quantity ==> units == (sc.quantity * sc.lotSize) as real
    requires sc.quantity > sp.quantity ==> units == (sp.quantity * sc.lotSize) as real
    ensures var rest := spot * units * 0.01 + (lc.entryPrice + lp.entryPrice) * units;
            var callWidth := if sc.strike <= lc.strike then lc.strike - sc.strike else sc.strike - lc.strike;
            var putWidth := if sp.strike <= lp.strike then lp.strike - sp.strike else sp.strike - lp.strike;
            && (putWidth <= callWidth ==> Condor(sc, lc, sp, lp, spot) == callWidth * units + rest)
            && (callWidth <= putWidth ==> Condor(sc, lc, sp, lp, spot) == putWidth * units + rest)
  {
  }

  // ---------------------------------------------------------------- what the condor rule overlooks

  /**
     What a further sold leg adds to the margin after spreads: its own margin less the relief of the bought leg it
     pairs with, if one is left.
     */
  function Added(legs: seq<OptionLeg>, leg: OptionLeg, spot: real, rates: Rates): real {
    var shorts, longs := Select(legs, false, leg.isCall), Select(legs, true, leg.isCall);
    MarginOf(leg, spot, rates).Total() - if |shorts| < |longs| then Relief(leg, longs[|shorts|], spot, rates) else 0.0
  }

  /** The reliefs of the old pairs stay; at most one pair is new. */
  lemma {:induction false} ReliefsStay(shorts: seq<OptionLeg>, leg: OptionLeg, longs: seq<OptionLeg>, n: nat,
                                       spot: real, rates: Rates)
    requires n <= |shorts| && n <= |longs|
    ensures Reliefs(shorts + [leg], longs, n, spot, rates) == Reliefs(shorts, longs, n, spot, rates)
  {
    hide Relief;
    if n > 0 { ReliefsStay(shorts, leg, longs, n - 1, spot, rates); }
  }

  lemma SpreadWithOneMore(legs: seq<OptionLeg>, leg: OptionLeg, spot: real, rates: Rates)
    requires !leg.isBuy
    ensures Spread(legs + [leg], spot, rates) == Spread(legs, spot, rates) + Added(legs, leg, spot, rates)
  {
    hide Select, Totals, MarginOf, Relief;
    SelectSnoc(legs, leg, false, true);
    SelectSnoc(legs, leg, true, true);
    SelectSnoc(legs, leg, false, false);
    SelectSnoc(legs, leg, true, false);
    TotalsSnoc(legs, leg, spot, rates);
    var shorts, longs := Select(legs, false, leg.isCall), Select(legs, true, leg.isCall);
    ReliefsStay(shorts, leg, longs, Pairs(shorts, longs), spot, rates);
  }

  lemma SelectedIsValid(legs: seq<OptionLeg>, leg: OptionLeg, spot: real, rates: Rates)
    requires ValidLegs(legs) && leg.Valid() && !leg.isBuy && spot > 0.0 && rates.Valid()
    ensures Added(legs, leg, spot, rates) >= 0.0
  {
    hide Select, Relief, MarginOf;
    var shorts, longs := Select(legs, false, leg.isCall), Select(legs, true, leg.isCall);
    SelectedLegs(legs, true, leg.isCall);
    FiguresAreNonNegative(leg, spot, rates);
    if |shorts| < |longs| { ReliefWithinShortMargin(leg, longs[|shorts|], spot, rates); }
  }

  function NetRequired(legs: seq<OptionLeg>, spot: real, rates: Rates): real {
    Max(Totals(legs, spot, rates).premium, Hedged(legs, spot, rates))
  }

  function FirstCondor(legs: seq<OptionLeg>, spot: real): real
    requires HasBothWings(legs)
  {
    Condor(Select(legs, false, true)[0], Select(legs, true, true)[0],
           Select(legs, false, false)[0], Select(legs, true, false)[0], spot)
  }

  lemma SoldLegAddsNoPremium(legs: seq<OptionLeg>, leg: OptionLeg, spot: real, rates: Rates)
    requires !leg.isBuy
    ensures Totals(legs + [leg], spot, rates).premium == Totals(legs, spot, rates).premium
  {
    assert (legs + [leg])[..|legs|] == legs;
  }

  lemma WingsStay(legs: seq<OptionLeg>, leg: OptionLeg, spot: real)
    requires HasBothWings(legs) && !leg.isBuy
    ensures HasBothWings(legs + [leg]) && FirstCondor(legs + [leg], spot) == FirstCondor(legs, spot)
  {
    hide Select, Condor;
    SelectSnoc(legs, leg, false, true);
    SelectSnoc(legs, leg, true, true);
    SelectSnoc(legs, leg, false, false);
    SelectSnoc(legs, leg, true, false);
  }

  /**
     To a basket with both wings a further leg is sold, covered or naked.  The net requirement stays what it was exactly
     when the condor of the first legs is already the cheaper figure, or the leg's margin is relieved in full.
     */
  lemma SoldLegIsFreeExactly(legs: seq<OptionLeg>, leg: OptionLeg, spot: real, rates: Rates)
    requires ValidLegs(legs) && leg.Valid() && !leg.isBuy && spot > 0.0 && rates.Valid() && HasBothWings(legs)
    ensures NetRequired(legs + [leg], spot, rates) == NetRequired(legs, spot, rates)
            <==> FirstCondor(legs, spot) <= Spread(legs, spot, rates) || Added(legs, leg, spot, rates) == 0.0
    ensures NetRequired(legs + [leg], spot, rates) >= NetRequired(legs, spot, rates)
  {
    hide Totals, Select, Condor, Spread, Added, FirstCondor, MarginOf;
    MarginIsBounded(legs, spot, rates);
    SpreadWithOneMore(legs, leg, spot, rates);
    SelectedIsValid(legs, leg, spot, rates);
    SoldLegAddsNoPremium(legs, leg, spot, rates);
    WingsStay(legs, leg, spot);
    HedgedWithWings(legs, spot, rates);
    HedgedWithWings(legs + [leg], spot, rates);
    hide Hedged;
  }

  lemma HedgedWithWings(legs: seq<OptionLeg>, spot: real, rates: Rates)
    requires HasBothWings(legs)
    ensures Hedged(legs, spot, rates) == Min(Spread(legs, spot, rates), FirstCondor(legs, spot))
  {
    hide Select, Condor, Spread;
  }

  const EXAMPLE_RATES := Rates(0.1, 0.02)

  /** A call or put of one lot of ten. */
  function OneLot(strike: real, isCall: bool, isBuy: bool, price: real): OptionLeg {
    OptionLeg(strike, isCall, isBuy, 1, 10, price, true)
  }

  /** A call spread above and a put spread below a spot price of a hundred. */
  function IronCondor(): seq<OptionLeg> {
    [OneLot(110.0, true, false, 5.0)] + [OneLot(120.0, true, true, 2.0)]
    + [OneLot(90.0, false, false, 5.0)] + [OneLot(80.0, false, true, 2.0)]
  }

  lemma CondorSides()
    ensures Select(IronCondor(), false, true) == [OneLot(110.0, true, false, 5.0)]
    ensures Select(IronCondor(), true, true) == [OneLot(120.0, true, true, 2.0)]
    ensures Select(IronCondor(), false, false) == [OneLot(90.0, false, false, 5.0)]
    ensures Select(IronCondor(), true, false) == [OneLot(80.0, false, true, 2.0)]
  {
    assert [] + [OneLot(110.0, true, false, 5.0)] == [OneLot(110.0, true, false, 5.0)];
    AllSides([], OneLot(110.0, true, false, 5.0));
    AllSides([OneLot(110.0, true, false, 5.0)], OneLot(120.0, true, true, 2.0));
    AllSides([OneLot(110.0, true, false, 5.0)] + [OneLot(120.0, true, true, 2.0)], OneLot(90.0, false, false, 5.0));
    AllSides([OneLot(110.0, true, false, 5.0)] + [OneLot(120.0, true, true, 2.0)]
             + [OneLot(90.0, false, false, 5.0)], OneLot(80.0, false, true, 2.0));
    assert forall b, c :: Select([], b, c) == [];
    hide Select;
  }

  lemma AllSides(legs: seq<OptionLeg>, leg: OptionLeg)
    ensures forall b, c :: Select(legs + [leg], b, c)
                           == Select(legs, b, c) + if leg.isBuy == b && leg.isCall == c then [leg] else []
  {
    forall b, c ensures Select(legs + [leg], b, c)
                        == Select(legs, b, c) + if leg.isBuy == b && leg.isCall == c then [leg] else []
    {
      SelectSnoc(legs, leg, b, c);
      assert Select(legs, b, c) + [] == Select(legs, b, c);
    }
  }

  lemma CondorTotals()
    ensures Totals(IronCondor(), 100.0, EXAMPLE_RATES) == LegMargin(40.0, 300.0, 40.0)
  {
    var a, b := OneLot(110.0, true, false, 5.0), OneLot(120.0, true, true, 2.0);
    var c, d := OneLot(90.0, false, false, 5.0), OneLot(80.0, false, true, 2.0);
    assert MarginOf(a, 100.0, EXAMPLE_RATES) == MarginOf(c, 100.0, EXAMPLE_RATES) == LegMargin(0.0, 150.0, 20.0);
    assert MarginOf(b, 100.0, EXAMPLE_RATES) == MarginOf(d, 100.0, EXAMPLE_RATES) == LegMargin(20.0, 0.0, 0.0);
    assert ([a] + [b] + [c] + [d])[..3] == [a] + [b] + [c] && ([a] + [b] + [c])[..2] == [a] + [b];
    assert ([a] + [b])[..1] == [a] && [a][..0] == [];
    hide MarginOf;
    assert Totals([], 100.0, EXAMPLE_RATES) == LegMargin(0.0, 0.0, 0.0);
    assert Totals([a], 100.0, EXAMPLE_RATES) == LegMargin(0.0, 150.0, 20.0);
    assert Totals([a] + [b], 100.0, EXAMPLE_RATES) == LegMargin(20.0, 150.0, 20.0);
    assert Totals([a] + [b] + [c], 100.0, EXAMPLE_RATES) == LegMargin(20.0, 300.0, 40.0);
  }

  lemma WingReliefs()
    ensures Relief(OneLot(110.0, true, false, 5.0), OneLot(120.0, true, true, 2.0), 100.0, EXAMPLE_RATES) == 85.0
    ensures Relief(OneLot(90.0, false, false, 5.0), OneLot(80.0, false, true, 2.0), 100.0, EXAMPLE_RATES) == 85.0
  {
    assert Product(10.0, 10.0) == 100.0 && Product(100.0, 10.0) == 1000.0 && Product(1000.0, 0.12) == 120.0;
    assert Product(5.0, 10.0) == 50.0 && Product(2.0, 10.0) == 20.0 && Product(1000.0, 0.005) == 5.0;
    hide Product;
  }

  lemma CondorFigures()
    ensures HasBothWings(IronCondor()) && FirstCondor(IronCondor(), 100.0) == 150.0
    ensures Spread(IronCondor(), 100.0, EXAMPLE_RATES) == 210.0
  {
    CondorSides();
    CondorTotals();
    var sc, lc := OneLot(110.0, true, false, 5.0), OneLot(120.0, true, true, 2.0);
    var sp, lp := OneLot(90.0, false, false, 5.0), OneLot(80.0, false, true, 2.0);
    WingReliefs();
    hide Totals, Select, Relief, IronCondor;
    assert Reliefs([sc], [lc], 0, 100.0, EXAMPLE_RATES) == 0.0 == Reliefs([sp], [lp], 0, 100.0, EXAMPLE_RATES);
  }

  /** A naked call with a margin of 170 of its own adds nothing to a condor that requires 150. */
  lemma NakedCallIsFree()
    ensures var naked := OneLot(110.0, true, false, 5.0);
            && MarginOf(naked, 100.0, EXAMPLE_RATES).Total() == 170.0
            && NetRequired(IronCondor(), 100.0, EXAMPLE_RATES) == 150.0
            && NetRequired(IronCondor() + [naked], 100.0, EXAMPLE_RATES) == 150.0
  {
    var naked := OneLot(110.0, true, false, 5.0);
    assert MarginOf(naked, 100.0, EXAMPLE_RATES) == LegMargin(0.0, 150.0, 20.0);
    assert ValidLegs(IronCondor());
    CondorFigures();
    CondorTotals();
    hide IronCondor, Spread, FirstCondor, Added, MarginOf, Totals, Select, HasBothWings;
    HedgedWithWings(IronCondor(), 100.0, EXAMPLE_RATES);
    SoldLegIsFreeExactly(IronCondor(), naked, 100.0, EXAMPLE_RATES);
    hide Hedged;
  }
}

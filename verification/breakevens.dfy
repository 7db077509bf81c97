/**
 Breakeven prices of an option strategy at expiry (backend/app/analytics/strategy_builder.py): the
 profit is a piecewise-linear function of the settlement price, searched interval by interval between
 the strikes and on the two outer rays.  The source's "close to zero" test is read as equality.
 */
module Breakevens {
  import opened Common
  import opened OptionLegs
  import opened SortedDistinct

  function SignedUnits(leg: OptionLeg): int {
    (if leg.isBuy then 1 else -1) * (leg.quantity * leg.lotSize)
  }

  function Intrinsic(leg: OptionLeg, x: real): real {
    if leg.isCall then Max(0.0, x - leg.strike) else Max(0.0, leg.strike - x)
  }

  function LegPnl(leg: OptionLeg, x: real): real {
    Product(Intrinsic(leg, x) - leg.entryPrice, SignedUnits(leg) as real)
  }

  /** Profit of the whole strategy when the underlying settles at x. */
  function Pnl(legs: seq<OptionLeg>, x: real): real {
    if legs == [] then 0.0 else Pnl(legs[..|legs| - 1], x) + LegPnl(legs[|legs| - 1], x)
  }

  /** A bought leg gains its value at expiry less its price, on every unit; selling it gains the opposite. */
  lemma LegGains(leg: OptionLeg, x: real)
    ensures var worth := if leg.isCall then (if x > leg.strike then x - leg.strike else 0.0)
                         else (if leg.strike > x then leg.strike - x else 0.0);
            LegPnl(leg.(isBuy := true), x) == (worth - leg.entryPrice) * (leg.quantity * leg.lotSize) as real
    ensures LegPnl(leg.(isBuy := false), x) == -LegPnl(leg.(isBuy := true), x)
  {
    var gain, units := Intrinsic(leg, x) - leg.entryPrice, (leg.quantity * leg.lotSize) as real;
    assert gain * -units == -(gain * units);
  }

  // ---------------------------------------------------------------- the profit is piecewise linear

  /** How many units the profit gains per unit of price just above x; a whole number. */
  function LegSlope(leg: OptionLeg, x: real): int {
    if leg.isCall then (if leg.strike <= x then SignedUnits(leg) else 0)
    else (if leg.strike <= x then 0 else -SignedUnits(leg))
  }

  function Slope(legs: seq<OptionLeg>, x: real): int {
    if legs == [] then 0 else Slope(legs[..|legs| - 1], x) + LegSlope(legs[|legs| - 1], x)
  }

  /** No strike lies strictly between x and y. */
  ghost predicate Clear(legs: seq<OptionLeg>, x: real, y: real) {
    forall i :: 0 <= i < |legs| ==> legs[i].strike <= x || legs[i].strike >= y
  }

  /**
     The units bought less the units sold at one strike, calls and puts together: how sharply the profit bends
     there.
     */
  function NetUnits(legs: seq<OptionLeg>, strike: real): int {
    if legs == [] then 0
    else
      NetUnits(legs[..|legs| - 1], strike)
      + if legs[|legs| - 1].strike == strike then SignedUnits(legs[|legs| - 1]) else 0
  }

  /** At every strike strictly between x and y as much is bought as sold. */
  ghost predicate NoKink(legs: seq<OptionLeg>, x: real, y: real) {
    forall k :: x < k < y ==> NetUnits(legs, k) == 0
  }

  lemma {:induction false} ClearHasNoKink(legs: seq<OptionLeg>, x: real, y: real)
    requires Clear(legs, x, y)
    ensures NoKink(legs, x, y)
  {
    if legs != [] { ClearHasNoKink(legs[..|legs| - 1], x, y); }
  }

  /** By how much a leg struck above `from` has left its line from there. */
  function LegBend(leg: OptionLeg, from: real, x: real): real {
    if leg.strike > from then Product(Max(0.0, x - leg.strike), SignedUnits(leg) as real) else 0.0
  }

  function Bend(legs: seq<OptionLeg>, from: real, x: real): real {
    if legs == [] then 0.0 else Bend(legs[..|legs| - 1], from, x) + LegBend(legs[|legs| - 1], from, x)
  }

  lemma LegBends(leg: OptionLeg, from: real, x: real)
    requires from <= x
    ensures LegPnl(leg, x) == LegPnl(leg, from) + Product(LegSlope(leg, from) as real, x - from) + LegBend(leg, from, x)
  {
    var u, k := SignedUnits(leg) as real, leg.strike;
    if leg.isCall && k <= from {
      MulSum(x - k - leg.entryPrice, from - k - leg.entryPrice, x - from, u);
    } else if leg.isCall {
      MulSum(Max(0.0, x - k) - leg.entryPrice, 0.0 - leg.entryPrice, Max(0.0, x - k), u);
    } else if k > from {
      MulSum(k - x - leg.entryPrice, k - from - leg.entryPrice, -(x - from), u);
      MulSum(Max(0.0, k - x) - leg.entryPrice, k - x - leg.entryPrice, Max(0.0, x - k), u);
    }
  }

  /** The profit is its line from any price, plus what the strikes above that price bend it. */
  lemma {:induction false} PnlBends(legs: seq<OptionLeg>, from: real, x: real)
    requires from <= x
    ensures Pnl(legs, x) == Pnl(legs, from) + Product(Slope(legs, from) as real, x - from) + Bend(legs, from, x)
  {
    if legs != [] {
      hide LegPnl, LegSlope, LegBend, Product;
      var init, leg := legs[..|legs| - 1], legs[|legs| - 1];
      PnlBends(init, from, x);
      LegBends(leg, from, x);
      ProductSum(Slope(legs, from) as real, Slope(init, from) as real, LegSlope(leg, from) as real, x - from);
    } else {
      assert Product(0.0, x - from) == 0.0;
    }
  }

  /** The legs struck elsewhere. */
  function Without(legs: seq<OptionLeg>, strike: real): (rest: seq<OptionLeg>)
    ensures |rest| <= |legs|
    ensures (exists i :: 0 <= i < |legs| && legs[i].strike == strike) ==> |rest| < |legs|
  {
    if legs == [] then []
    else
      var rest := Without(legs[..|legs| - 1], strike);
      if legs[|legs| - 1].strike == strike then rest else rest + [legs[|legs| - 1]]
  }

  lemma {:induction false} WithoutKeepsOthers(legs: seq<OptionLeg>, strike: real, other: real)
    ensures NetUnits(Without(legs, strike), other) == if other == strike then 0 else NetUnits(legs, other)
  {
    if legs != [] {
      WithoutKeepsOthers(legs[..|legs| - 1], strike, other);
      var rest, leg := Without(legs[..|legs| - 1], strike), legs[|legs| - 1];
      assert (rest + [leg])[..|rest|] == rest;
    }
  }

  /** The legs of one strike bend the profit by their net units. */
  lemma {:induction false} BendOfStrike(legs: seq<OptionLeg>, from: real, x: real, strike: real)
    requires from < strike <= x
    ensures Bend(legs, from, x) == Bend(Without(legs, strike), from, x)
            + Product(x - strike, NetUnits(legs, strike) as real)
  {
    hide Product;
    if legs != [] {
      var init, leg := legs[..|legs| - 1], legs[|legs| - 1];
      BendOfStrike(init, from, x, strike);
      var rest := Without(init, strike);
      assert (rest + [leg])[..|rest|] == rest;
      ProductSplit(x - strike, NetUnits(init, strike) as real, SignedUnits(leg) as real);
    } else {
      assert Product(x - strike, 0.0) == 0.0 by { NothingTimes(x - strike); }
    }
  }

  lemma NothingTimes(x: real)
    ensures Product(x, 0.0) == 0.0 && Product(0.0, x) == 0.0
  {
  }

  /** Without kinks on the way the bends cancel, strike by strike. */
  lemma {:induction false} BendsCancel(legs: seq<OptionLeg>, from: real, x: real)
    requires NoKink(legs, from, x)
    ensures Bend(legs, from, x) == 0.0
    decreases |legs|
  {
    hide Product, Bend, Without, NetUnits;
    if k :| 0 <= k < |legs| && from < legs[k].strike < x {
      var strike := legs[k].strike;
      BendOfStrike(legs, from, x, strike);
      NothingTimes(x - strike);
      forall other | from < other < x ensures NetUnits(Without(legs, strike), other) == 0 {
        WithoutKeepsOthers(legs, strike, other);
      }
      BendsCancel(Without(legs, strike), from, x);
    } else {
      NothingBends(legs, from, x);
    }
  }

  lemma {:induction false} NothingBends(legs: seq<OptionLeg>, from: real, x: real)
    requires Clear(legs, from, x)
    ensures Bend(legs, from, x) == 0.0
  {
    if legs != [] {
      NothingBends(legs[..|legs| - 1], from, x);
      NothingTimes(SignedUnits(legs[|legs| - 1]) as real);
    }
  }

  /** Where the profit bends it cannot be straight: its second difference around a strike is the net units there. */
  lemma {:induction false} SecondDifference(legs: seq<OptionLeg>, k: real, e: real)
    requires e > 0.0 && forall i :: 0 <= i < |legs| ==> legs[i].strike == k || Abs(legs[i].strike - k) >= e
    ensures Pnl(legs, k + e) + Pnl(legs, k - e) - 2.0 * Pnl(legs, k) == Product(e, NetUnits(legs, k) as real)
  {
    hide Product;
    if legs != [] {
      var init, leg := legs[..|legs| - 1], legs[|legs| - 1];
      SecondDifference(init, k, e);
      LegSecondDifference(leg, k, e);
      ProductSplit(e, NetUnits(init, k) as real, SignedUnits(leg) as real);
    } else {
      NothingTimes(e);
    }
  }

  lemma LegSecondDifference(leg: OptionLeg, k: real, e: real)
    requires e > 0.0 && (leg.strike == k || Abs(leg.strike - k) >= e)
    ensures LegPnl(leg, k + e) + LegPnl(leg, k - e) - 2.0 * LegPnl(leg, k)
            == if leg.strike == k then Product(e, SignedUnits(leg) as real) else 0.0
  {
    hide Product;
    var u := SignedUnits(leg) as real;
    var high, low := Intrinsic(leg, k + e) - leg.entryPrice, Intrinsic(leg, k - e) - leg.entryPrice;
    var mid := Intrinsic(leg, k) - leg.entryPrice;
    ProductSum(high + low, high, low, u);
    ProductSum(2.0 * mid, mid, mid, u);
    ProductSum(high + low, 2.0 * mid, high + low - 2.0 * mid, u);
    NothingTimes(u);
  }

  /** A distance around k free of other strikes. */
  lemma {:induction false} GapAround(legs: seq<OptionLeg>, k: real, limit: real) returns (e: real)
    requires limit > 0.0
    ensures 0.0 < e <= limit && forall i :: 0 <= i < |legs| ==> legs[i].strike == k || Abs(legs[i].strike - k) >= e
  {
    e := limit;
    if legs != [] {
      e := GapAround(legs[..|legs| - 1], k, limit);
      var leg := legs[|legs| - 1];
      if leg.strike != k { e := Min(e, Abs(leg.strike - k)); }
    }
  }

  /** How far to step back from y1's price to the zero of the chord: the secant formula. */
  function Secant(y1: real, y2: real, width: real): real
    requires y1 != y2
  {
    y1 * width / (y2 - y1)
  }

  /** A line through opposite values crosses zero once, where the secant formula says. */
  lemma Crossing(y1: real, y2: real, m: real, width: real)
    requires width > 0.0 && y2 == y1 + Product(m, width)
    requires (y1 < 0.0 && y2 > 0.0) || (y1 > 0.0 && y2 < 0.0)
    ensures var t := -Secant(y1, y2, width);
            0.0 < t < width && y1 + Product(m, t) == 0.0 && forall s :: y1 + Product(m, s) == 0.0 ==> s == t
  {
    var d := y2 - y1;
    var q := y1 * width / d;
    assert q * d == y1 * width;
    assert m * width == d;
    assert m * q == y1 by {
      assert (m * q) * width == q * (m * width);
      assert (m * q - y1) * width == 0.0;
    }
    CrossingInside(y1, d, width, q);
    forall s | y1 + Product(m, s) == 0.0 ensures s == -q {
      assert m * (s + q) == 0.0;
    }
  }

  lemma CrossingInside(y1: real, d: real, width: real, q: real)
    requires width > 0.0 && q * d == y1 * width
    requires (y1 < 0.0 && y1 + d > 0.0) || (y1 > 0.0 && y1 + d < 0.0)
    ensures -width < q < 0.0
  {
    if y1 < 0.0 {
      RisingInside(y1, d, width, q);
    } else {
      RisingInside(-y1, -d, width, q);
    }
  }

  lemma RisingInside(y1: real, d: real, width: real, q: real)
    requires width > 0.0 && q * d == y1 * width && y1 < 0.0 && y1 + d > 0.0
    ensures -width < q < 0.0
  {
    MulMonoStrict(y1, 0.0, width);
    MulMonoStrict(-d, y1, width);
    var p := y1 * width;
    assert (-d) * width == -(width * d);
    Between(q, d, width, p);
  }

  lemma Between(q: real, d: real, width: real, p: real)
    requires d > 0.0 && q * d == p && -(width * d) < p < 0.0
    ensures -width < q < 0.0
  {
    if q >= 0.0 { MulMono(0.0, q, d); }
    if q <= -width { MulMono(q, -width, d); }
  }

  // ---------------------------------------------------------------- one interval

  /** What the search reports for the interval between two neighbouring breakpoints. */
  function IntervalRoot(legs: seq<OptionLeg>, x1: real, x2: real): Option<real> {
    var y1, y2 := Pnl(legs, x1), Pnl(legs, x2);
    if y1 == 0.0 then Some(x1)
    else if (y1 < 0.0 && y2 > 0.0) || (y1 > 0.0 && y2 < 0.0) then Some(x1 - Secant(y1, y2, x2 - x1))
    else None
  }

  /** The profit is zero on the whole of x1..x2. */
  ghost predicate FlatZero(legs: seq<OptionLeg>, x1: real, x2: real) {
    x1 < x2 && forall x :: x1 <= x <= x2 ==> Pnl(legs, x) == 0.0
  }

  /** Without kinks the profit is a straight line. */
  lemma StraightTo(legs: seq<OptionLeg>, x1: real, x2: real, z: real)
    requires x1 <= z <= x2 && NoKink(legs, x1, x2)
    ensures Pnl(legs, z) == Pnl(legs, x1) + Product(Slope(legs, x1) as real, z - x1)
  {
    hide NetUnits;
    PnlBends(legs, x1, z);
    BendsCancel(legs, x1, z);
  }

  /** A zero of a line at two points, or at one point with zero value at its start, is everywhere. */
  lemma FlatFromTwoZeros(legs: seq<OptionLeg>, x1: real, x2: real, z: real)
    requires x1 < z <= x2 && NoKink(legs, x1, x2) && Pnl(legs, x1) == 0.0 == Pnl(legs, z)
    ensures FlatZero(legs, x1, x2)
  {
    hide Pnl, Slope, NoKink;
    StraightTo(legs, x1, x2, z);
    var m := Slope(legs, x1) as real;
    assert m == 0.0;
    forall x | x1 <= x <= x2 ensures Pnl(legs, x) == 0.0 {
      StraightTo(legs, x1, x2, x);
    }
  }

  /** What is reported is a zero of the interval. */
  lemma IntervalSound(legs: seq<OptionLeg>, x1: real, x2: real)
    requires x1 < x2 && Clear(legs, x1, x2) && IntervalRoot(legs, x1, x2).Some?
    ensures var z := IntervalRoot(legs, x1, x2).value; x1 <= z < x2 && Pnl(legs, z) == 0.0
  {
    ClearHasNoKink(legs, x1, x2);
    hide Pnl, Slope, Clear, NoKink, Secant;
    var y1, y2 := Pnl(legs, x1), Pnl(legs, x2);
    StraightTo(legs, x1, x2, x2);
    if y1 != 0.0 {
      Crossing(y1, y2, Slope(legs, x1) as real, x2 - x1);
      StraightTo(legs, x1, x2, IntervalRoot(legs, x1, x2).value);
    }
  }

  /** Every zero of the interval is reported, unless the profit is zero on all of it: then its left end is. */
  lemma IntervalComplete(legs: seq<OptionLeg>, x1: real, x2: real, z: real)
    requires x1 <= z < x2 && Clear(legs, x1, x2) && Pnl(legs, z) == 0.0
    ensures IntervalRoot(legs, x1, x2) == Some(z) || (IntervalRoot(legs, x1, x2) == Some(x1) && FlatZero(legs, x1, x2))
  {
    ClearHasNoKink(legs, x1, x2);
    hide Pnl, Slope, Clear, NoKink, Secant;
    var y1, y2, m := Pnl(legs, x1), Pnl(legs, x2), Slope(legs, x1) as real;
    StraightTo(legs, x1, x2, z);
    StraightTo(legs, x1, x2, x2);
    if y1 == 0.0 && z > x1 {
      FlatFromTwoZeros(legs, x1, x2, z);
    } else if y1 != 0.0 {
      OppositeEnds(y1, y2, m, z - x1, x2 - x1);
      Crossing(y1, y2, m, x2 - x1);
    }
  }

  lemma OppositeEnds(y1: real, y2: real, m: real, t: real, width: real)
    requires 0.0 <= t < width && y1 != 0.0
    requires y1 + Product(m, t) == 0.0 && y2 == y1 + Product(m, width)
    ensures (y1 < 0.0 && y2 > 0.0) || (y1 > 0.0 && y2 < 0.0)
  {
    assert y2 == m * (width - t);
    if m > 0.0 {
      MulMono(0.0, t, m);
      MulMonoStrict(0.0, width - t, m);
    } else {
      MulMono(0.0, t, -m);
      if m < 0.0 { MulMonoStrict(0.0, width - t, -m); }
    }
  }

  // ---------------------------------------------------------------- the rays

  const REACH := 100.0

  /** What the search reports below min, with the whole profit raised by a level: it looks 100 points out. */
  function LeftRootAt(legs: seq<OptionLeg>, min: real, level: real): Option<real> {
    var y1, y0 := Pnl(legs, min) + level, Pnl(legs, min - REACH) + level;
    var slope := (y1 - y0) / REACH;
    if Abs(slope) > 0.0001 then
      var root := min - y1 / slope;
      if root < min && (y0 < 0.0 < y1 || y0 > 0.0 > y1) then Some(root) else None
    else None
  }

  function RightRootAt(legs: seq<OptionLeg>, max: real, level: real): Option<real> {
    var y0, y1 := Pnl(legs, max) + level, Pnl(legs, max + REACH) + level;
    var slope := (y1 - y0) / REACH;
    if Abs(slope) > 0.0001 then
      var root := max - y0 / slope;
      if root > max && (y0 < 0.0 < y1 || y0 > 0.0 > y1) then Some(root) else None
    else None
  }

  function LeftRoot(legs: seq<OptionLeg>, min: real): Option<real> {
    LeftRootAt(legs, min, 0.0)
  }

  function RightRoot(legs: seq<OptionLeg>, max: real): Option<real> {
    RightRootAt(legs, max, 0.0)
  }

  /**
     Without kinks the slope read off two ends is the whole number of units held there: zero, or above the
     source's threshold.
     */
  lemma SlopeFromEnds(legs: seq<OptionLeg>, x: real)
    requires NoKink(legs, x, x + REACH)
    ensures (Pnl(legs, x + REACH) - Pnl(legs, x)) / REACH == Slope(legs, x) as real
  {
    hide Pnl, Slope, NoKink;
    StraightTo(legs, x, x + REACH, x + REACH);
    assert x + REACH - x == REACH;
    TimesReach(Slope(legs, x) as real);
  }

  lemma TimesReach(m: real)
    ensures Product(m, REACH) / REACH == m
  {
  }

  lemma LeftExact(legs: seq<OptionLeg>, min: real, z: real)
    requires NoKink(legs, min - 100.0, min)
    ensures LeftRoot(legs, min) == Some(z) <==>
            min - 100.0 < z < min && Pnl(legs, z) == 0.0 && !FlatZero(legs, min - 100.0, min)
  {
    hide Pnl, Slope, NoKink, Secant;
    var from := min - REACH;
    var y0, y1, m := Pnl(legs, from), Pnl(legs, min), Slope(legs, from) as real;
    assert from + REACH == min;
    SlopeFromEnds(legs, from);
    StraightTo(legs, from, min, min);
    if (y0 < 0.0 < y1) || (y0 > 0.0 > y1) {
      Crossing(y0, y1, m, REACH);
      var t := -Secant(y0, y1, REACH);
      LineRoot(y0, y1, m, t);
      StraightTo(legs, from, min, from + t);
      assert LeftRoot(legs, min) == Some(from + t);
      if from < z < min { StraightTo(legs, from, min, z); }
      assert Pnl(legs, from) != 0.0;
    } else if from < z < min && Pnl(legs, z) == 0.0 {
      StraightTo(legs, from, min, z);
      if y0 == 0.0 {
        FlatFromTwoZeros(legs, from, min, z);
      } else {
        OppositeEnds(y0, y1, m, z - from, REACH);
      }
    }
  }

  lemma LineRoot(y0: real, y1: real, m: real, t: real)
    requires y1 == y0 + Product(m, REACH) && y0 + Product(m, t) == 0.0 && y0 != y1
    ensures m != 0.0 && y1 / m == REACH - t && y0 / m == -t
  {
    assert y1 == m * (REACH - t);
  }

  lemma RightExact(legs: seq<OptionLeg>, max: real, z: real)
    requires NoKink(legs, max, max + 100.0)
    ensures RightRoot(legs, max) == Some(z) <==>
            max < z < max + 100.0 && Pnl(legs, z) == 0.0 && !FlatZero(legs, max, max + 100.0)
  {
    hide Pnl, Slope, NoKink, Secant;
    var to := max + REACH;
    var y0, y1, m := Pnl(legs, max), Pnl(legs, to), Slope(legs, max) as real;
    SlopeFromEnds(legs, max);
    StraightTo(legs, max, to, to);
    if (y0 < 0.0 < y1) || (y0 > 0.0 > y1) {
      Crossing(y0, y1, m, REACH);
      var t := -Secant(y0, y1, REACH);
      LineRoot(y0, y1, m, t);
      StraightTo(legs, max, to, max + t);
      assert RightRoot(legs, max) == Some(max + t);
      if max < z < to { StraightTo(legs, max, to, z); }
    } else if max < z < to && Pnl(legs, z) == 0.0 {
      StraightTo(legs, max, to, z);
      if y0 == 0.0 {
        FlatFromTwoZeros(legs, max, to, z);
      } else {
        OppositeEnds(y0, y1, m, z - max, REACH);
      }
    }
  }

  // ---------------------------------------------------------------- the search

  function Strikes(legs: seq<OptionLeg>): seq<real> {
    seq(|legs|, i requires 0 <= i < |legs| => legs[i].strike)
  }

  /** The two bounds and all strikes, in order and without repetition. */
  function Breakpoints(legs: seq<OptionLeg>, min: real, max: real): seq<real> {
    Sort([min, max] + Strikes(legs))
  }

  lemma BreakpointsAreClear(legs: seq<OptionLeg>, min: real, max: real)
    ensures var bp := Breakpoints(legs, min, max);
            && Increasing(bp) && min in bp && max in bp
            && (forall i :: 0 <= i < |legs| ==> legs[i].strike in bp)
            && (forall i :: 0 <= i < |bp| - 1 ==> Clear(legs, bp[i], bp[i + 1]))
  {
    var all, bp := [min, max] + Strikes(legs), Breakpoints(legs, min, max);
    SortSorts(all);
    hide Sort, Insert;
    assert all[0] == min && all[1] == max;
    forall i | 0 <= i < |legs| ensures legs[i].strike in bp {
      assert all[i + 2] == legs[i].strike;
    }
  }

  /** z is among the answers: from an interval or from a ray. */
  ghost predicate Reported(legs: seq<OptionLeg>, min: real, max: real, z: real) {
    || FromInterval(legs, Breakpoints(legs, min, max), z)
    || LeftRoot(legs, min) == Some(z)
    || RightRoot(legs, max) == Some(z)
  }

  ghost predicate FromInterval(legs: seq<OptionLeg>, bp: seq<real>, z: real) {
    exists i :: 0 <= i < |bp| - 1 && IntervalRoot(legs, bp[i], bp[i + 1]) == Some(z)
  }

  /** The search over the enabled legs of a strategy. */
  method FindBreakevens(strategy: seq<OptionLeg>, min: real, max: real) returns (r: seq<real>)
    ensures Increasing(r)
    ensures if Active(strategy) == [] then r == [] else forall z :: z in r <==> Reported(Active(strategy), min, max, z)
  {
    hide Active, Pnl, Breakpoints, FromInterval, LeftRoot, RightRoot, Sort, Insert, Clear;
    var legs := Active(strategy);
    if legs == [] {
      return [];
    }
    BreakpointsAreClear(legs, min, max);
    var found := SearchIntervals(legs, Breakpoints(legs, min, max));
    var left := LeftRoot(legs, min);
    if left.Some? {
      found := found + [left.value];
    }
    var right := RightRoot(legs, max);
    if right.Some? {
      found := found + [right.value];
    }
    SortSorts(found);
    r := Sort(found);
  }

  method SearchIntervals(legs: seq<OptionLeg>, bp: seq<real>) returns (found: seq<real>)
    requires bp != [] && Increasing(bp)
    ensures forall z :: z in found <==> FromInterval(legs, bp, z)
  {
    hide Pnl;
    found := [];
    for i := 0 to |bp| - 1
      invariant forall z :: z in found <==> exists k :: 0 <= k < i && IntervalRoot(legs, bp[k], bp[k + 1]) == Some(z)
    {
      var root := IntervalRoot(legs, bp[i], bp[i + 1]);
      if root.Some? {
        found := found + [root.value];
      }
    }
  }

  /** The interval that holds a price between the first and the last breakpoint. */
  lemma {:induction false} Locate(bp: seq<real>, z: real) returns (i: nat)
    requires Increasing(bp) && |bp| >= 2 && bp[0] <= z < bp[|bp| - 1]
    ensures i < |bp| - 1 && bp[i] <= z < bp[i + 1]
  {
    i := 0;
    while bp[i + 1] <= z
      invariant i < |bp| - 1 && bp[i] <= z
      decreases |bp| - i
    {
      i := i + 1;
    }
  }

  /** Every answer from the intervals is a true breakeven, wherever the strikes lie. */
  lemma IntervalAnswersAreZeros(legs: seq<OptionLeg>, min: real, max: real, z: real)
    requires FromInterval(legs, Breakpoints(legs, min, max), z)
    ensures var bp := Breakpoints(legs, min, max);
            |bp| >= 2 && bp[0] <= z < bp[|bp| - 1] && Pnl(legs, z) == 0.0
  {
    hide Pnl, IntervalRoot;
    BreakpointsAreClear(legs, min, max);
    var bp := Breakpoints(legs, min, max);
    var i :| 0 <= i < |bp| - 1 && IntervalRoot(legs, bp[i], bp[i + 1]) == Some(z);
    IntervalSound(legs, bp[i], bp[i + 1]);
  }

  /**
     Every breakeven from the first breakpoint up to, not including, the last is an answer or lies on a flat zero
     stretch whose left end is.
     */
  lemma ZerosAreAnswers(legs: seq<OptionLeg>, min: real, max: real, z: real)
    requires var bp := Breakpoints(legs, min, max);
             |bp| >= 2 && bp[0] <= z < bp[|bp| - 1] && Pnl(legs, z) == 0.0
    ensures var bp := Breakpoints(legs, min, max);
            || FromInterval(legs, bp, z)
            || exists x1, x2 :: FromInterval(legs, bp, x1) && FlatZero(legs, x1, x2) && x1 <= z <= x2
  {
    hide Pnl, IntervalRoot, FlatZero;
    BreakpointsAreClear(legs, min, max);
    var bp := Breakpoints(legs, min, max);
    var i := Locate(bp, z);
    IntervalComplete(legs, bp[i], bp[i + 1], z);
  }

  // ---------------------------------------------------------------- the whole answer

  /**
     Where the search looks: between the outermost breakpoints, the last excluded, and 100 points beyond either
     bound.
     */
  ghost predicate Searched(legs: seq<OptionLeg>, min: real, max: real, z: real) {
    var bp := Breakpoints(legs, min, max);
    || (bp != [] && bp[0] <= z < bp[|bp| - 1])
    || min - 100.0 < z < min
    || max < z < max + 100.0
  }

  ghost predicate OnFlat(legs: seq<OptionLeg>, z: real) {
    exists x1, x2 :: FlatZero(legs, x1, x2) && x1 <= z <= x2
  }

  /**
     When the profit has no kink within 100 points outside the price range the answers are exact.  Every answer is a
     breakeven in the searched region; every breakeven of that region that does not lie on a flat zero stretch is an
     answer.
     */
  lemma BreakevensAreExact(legs: seq<OptionLeg>, min: real, max: real, z: real)
    requires min < max && NoKink(legs, min - REACH, min) && NoKink(legs, max, max + REACH)
    ensures Reported(legs, min, max, z) ==> Pnl(legs, z) == 0.0 && Searched(legs, min, max, z)
    ensures !OnFlat(legs, z) ==> (Reported(legs, min, max, z) <==> Pnl(legs, z) == 0.0 && Searched(legs, min, max, z))
  {
    hide Pnl, NoKink, IntervalRoot, FlatZero, LeftRoot, RightRoot, FromInterval, Breakpoints;
    LeftExact(legs, min, z);
    RightExact(legs, max, z);
    var bp := Breakpoints(legs, min, max);
    if FromInterval(legs, bp, z) {
      IntervalAnswersAreZeros(legs, min, max, z);
    }
    if Pnl(legs, z) == 0.0 && bp != [] && bp[0] <= z < bp[|bp| - 1] {
      ZerosAreAnswers(legs, min, max, z);
    }
  }

  /**
     With all strikes inside the price range the searched region is the range and 100 points either side, but not the
     upper bound itself: a breakeven exactly there, or 100 points or more outside, is never reported.
     */
  lemma SearchedWithinRange(legs: seq<OptionLeg>, min: real, max: real, z: real)
    requires min < max && forall i :: 0 <= i < |legs| ==> min <= legs[i].strike <= max
    ensures NoKink(legs, min - 100.0, min) && NoKink(legs, max, max + 100.0)
    ensures Searched(legs, min, max, z) <==> min - 100.0 < z < max + 100.0 && z != max
  {
    hide NoKink;
    ClearHasNoKink(legs, min - REACH, min);
    ClearHasNoKink(legs, max, max + REACH);
    BoundsAreEnds(legs, min, max);
  }

  lemma BoundsAreEnds(legs: seq<OptionLeg>, min: real, max: real)
    requires min < max && forall i :: 0 <= i < |legs| ==> min <= legs[i].strike <= max
    ensures var bp := Breakpoints(legs, min, max); |bp| >= 2 && bp[0] == min && bp[|bp| - 1] == max
  {
    var all, bp := [min, max] + Strikes(legs), Breakpoints(legs, min, max);
    SortSorts(all);
    BreakpointsAreClear(legs, min, max);
    hide Sort, Clear;
    forall i | 0 <= i < |bp| ensures min <= bp[i] <= max {
      assert bp[i] in all;
      var k :| 0 <= k < |all| && all[k] == bp[i];
    }
    var i, j :| 0 <= i < |bp| && bp[i] == min && 0 <= j < |bp| && bp[j] == max;
    hide Breakpoints, Strikes;
  }

  // ---------------------------------------------------------------- exactly when a ray can be trusted

  /** The same contracts at other premiums, none of them negative. */
  ghost predicate Reprices(legs: seq<OptionLeg>, other: seq<OptionLeg>) {
    && |other| == |legs|
    && forall i :: 0 <= i < |legs| ==>
         other[i].entryPrice >= 0.0 && other[i] == legs[i].(entryPrice := other[i].entryPrice)
  }

  /** What was paid for the legs, less what was received. */
  function Cost(legs: seq<OptionLeg>): real {
    if legs == [] then 0.0
    else
      var leg := legs[|legs| - 1];
      Cost(legs[..|legs| - 1]) + Product(leg.entryPrice, SignedUnits(leg) as real)
  }

  /** Premiums raise or lower the profit everywhere alike. */
  lemma {:induction false} RepricingSetsLevel(legs: seq<OptionLeg>, other: seq<OptionLeg>, x: real)
    requires Reprices(legs, other)
    ensures Pnl(other, x) == Pnl(legs, x) + Cost(legs) - Cost(other)
  {
    if legs != [] {
      var last := |legs| - 1;
      var leg, repriced := legs[last], other[last];
      RepricingSetsLevel(legs[..last], other[..last], x);
      assert SignedUnits(repriced) == SignedUnits(leg) && Intrinsic(repriced, x) == Intrinsic(leg, x);
      hide SignedUnits, Intrinsic, Product;
      var u := SignedUnits(leg) as real;
      ProductSum(Intrinsic(leg, x), Intrinsic(leg, x) - leg.entryPrice, leg.entryPrice, u);
      ProductSum(Intrinsic(leg, x), Intrinsic(leg, x) - repriced.entryPrice, repriced.entryPrice, u);
    }
  }

  ghost predicate Holds(legs: seq<OptionLeg>, bought: bool) {
    exists i :: 0 <= i < |legs| && (if bought then SignedUnits(legs[i]) > 0 else SignedUnits(legs[i]) < 0)
  }

  /** Every cost can be had that the legs have the sign for. */
  lemma {:induction false} PremiumsFor(legs: seq<OptionLeg>, cost: real) returns (other: seq<OptionLeg>)
    requires (cost > 0.0 ==> Holds(legs, true)) && (cost < 0.0 ==> Holds(legs, false))
    ensures Reprices(legs, other) && Cost(other) == cost
  {
    if legs == [] {
      other := [];
    } else {
      var last := |legs| - 1;
      var leg := legs[last];
      var u := SignedUnits(leg) as real;
      var here := (cost > 0.0 && u > 0.0) || (cost < 0.0 && u < 0.0);
      if !here && cost != 0.0 { HoldsBefore(legs, cost > 0.0); }
      var rest := PremiumsFor(legs[..last], if here then 0.0 else cost);
      var premium := if here then cost / u else 0.0;
      Share(cost, u);
      other := rest + [leg.(entryPrice := premium)];
      assert other[..last] == rest;
      assert SignedUnits(other[last]) == SignedUnits(leg);
      hide SignedUnits, Product;
    }
  }

  lemma Share(cost: real, u: real)
    ensures (cost > 0.0 && u > 0.0) || (cost < 0.0 && u < 0.0) ==> cost / u >= 0.0 && Product(cost / u, u) == cost
    ensures Product(0.0, u) == 0.0
  {
    if cost > 0.0 && u > 0.0 { DivMono(0.0, cost, u); }
    if cost < 0.0 && u < 0.0 {
      DivMono(0.0, -cost, -u);
      assert cost / u * u == cost && -cost / -u * -u == -cost;
      assert (cost / u - -cost / -u) * u == 0.0;
    }
  }

  lemma HoldsBefore(legs: seq<OptionLeg>, bought: bool)
    requires legs != [] && Holds(legs, bought)
    requires var units := SignedUnits(legs[|legs| - 1]); if bought then units <= 0 else units >= 0
    ensures Holds(legs[..|legs| - 1], bought)
  {
    var i :| 0 <= i < |legs| && (if bought then SignedUnits(legs[i]) > 0 else SignedUnits(legs[i]) < 0);
    assert legs[..|legs| - 1][i] == legs[i];
  }

  /** What the legs pay has the sign of some leg. */
  lemma {:induction false} PayoffHasSign(legs: seq<OptionLeg>, x: real)
    ensures Pnl(legs, x) + Cost(legs) > 0.0 ==> Holds(legs, true)
    ensures Pnl(legs, x) + Cost(legs) < 0.0 ==> Holds(legs, false)
  {
    if legs != [] {
      var last := |legs| - 1;
      var leg := legs[last];
      PayoffHasSign(legs[..last], x);
      HoldsMore(legs, true);
      HoldsMore(legs, false);
      var u := SignedUnits(leg) as real;
      ProductSum(Intrinsic(leg, x), Intrinsic(leg, x) - leg.entryPrice, leg.entryPrice, u);
      PayoffSign(Intrinsic(leg, x), u);
      hide Product, Intrinsic, SignedUnits, Holds;
    }
  }

  lemma PayoffSign(payoff: real, u: real)
    requires payoff >= 0.0
    ensures (Product(payoff, u) > 0.0 ==> u > 0.0) && (Product(payoff, u) < 0.0 ==> u < 0.0)
  {
    if u > 0.0 { MulMono(0.0, payoff, u); } else { MulMono(0.0, payoff, -u); }
  }

  lemma HoldsMore(legs: seq<OptionLeg>, bought: bool)
    requires legs != []
    ensures Holds(legs[..|legs| - 1], bought) ==> Holds(legs, bought)
    ensures var units := SignedUnits(legs[|legs| - 1]);
            (if bought then units > 0 else units < 0) ==> Holds(legs, bought)
  {
    var rest := legs[..|legs| - 1];
    if Holds(rest, bought) {
      var i :| 0 <= i < |rest| && (if bought then SignedUnits(rest[i]) > 0 else SignedUnits(rest[i]) < 0);
      assert legs[i] == rest[i];
    }
  }

  /** Between two points the payoff's chord has the sign of some leg, so some premiums bring its zero there. */
  lemma PremiumsForChord(legs: seq<OptionLeg>, from: real, to: real, m: real, t: real) returns (other: seq<OptionLeg>)
    requires Pnl(legs, to) == Pnl(legs, from) + Product(m, REACH) && 0.0 <= t <= REACH
    ensures Reprices(legs, other) && Cost(legs) - Cost(other) == -(Pnl(legs, from) + Product(m, t))
  {
    PayoffHasSign(legs, from);
    PayoffHasSign(legs, to);
    ProductSplit(m, t, REACH - t);
    assert t + (REACH - t) == REACH;
    PayoffSign(t, m);
    PayoffSign(REACH - t, m);
    hide Pnl, Product, Holds;
    other := PremiumsFor(legs, Pnl(legs, from) + Product(m, t) + Cost(legs));
  }

  function ChordSlope(legs: seq<OptionLeg>, from: real): real {
    (Pnl(legs, from + REACH) - Pnl(legs, from)) / REACH
  }

  /** Whatever the premiums, the price the left ray reports is a breakeven. */
  ghost predicate LeftRayIsRight(legs: seq<OptionLeg>, min: real) {
    forall other, z :: Reprices(legs, other) && LeftRoot(other, min) == Some(z) ==> Pnl(other, z) == 0.0
  }

  ghost predicate RightRayIsRight(legs: seq<OptionLeg>, max: real) {
    forall other, z :: Reprices(legs, other) && RightRoot(other, max) == Some(z) ==> Pnl(other, z) == 0.0
  }

  lemma RepricedRoots(legs: seq<OptionLeg>, other: seq<OptionLeg>, x: real)
    requires Reprices(legs, other)
    ensures LeftRoot(other, x) == LeftRootAt(legs, x, Cost(legs) - Cost(other))
    ensures RightRoot(other, x) == RightRootAt(legs, x, Cost(legs) - Cost(other))
  {
    hide Pnl, Cost, Reprices;
    RepricingSetsLevel(legs, other, x);
    RepricingSetsLevel(legs, other, x - REACH);
    RepricingSetsLevel(legs, other, x + REACH);
  }

  /** Raised to the right level the chord crosses zero wherever one likes, and the ray reports that price. */
  lemma LeftRayReportsChord(legs: seq<OptionLeg>, min: real, z: real)
    requires min - REACH < z < min && Abs(ChordSlope(legs, min - REACH)) > 0.0001
    ensures LeftRootAt(legs, min, Product(ChordSlope(legs, min - REACH), min - z) - Pnl(legs, min)) == Some(z)
  {
    hide Pnl;
    var m := ChordSlope(legs, min - REACH);
    var level := Product(m, min - z) - Pnl(legs, min);
    assert min - REACH + REACH == min;
    ChordEnds(Pnl(legs, min - REACH), Pnl(legs, min), m);
    ProductSplit(m, min - z, -REACH);
    BackFromChord(m, min - z, REACH - (min - z));
    assert (Pnl(legs, min) + level - (Pnl(legs, min - REACH) + level)) / REACH == m;
  }

  lemma RightRayReportsChord(legs: seq<OptionLeg>, max: real, z: real)
    requires max < z < max + REACH && Abs(ChordSlope(legs, max)) > 0.0001
    ensures RightRootAt(legs, max, -Product(ChordSlope(legs, max), z - max) - Pnl(legs, max)) == Some(z)
  {
    hide Pnl;
    var m := ChordSlope(legs, max);
    var level := -Product(m, z - max) - Pnl(legs, max);
    ChordEnds(Pnl(legs, max), Pnl(legs, max + REACH), m);
    ProductSplit(m, z - max, REACH - (z - max));
    BackFromChord(m, z - max, REACH - (z - max));
    assert (Pnl(legs, max + REACH) + level - (Pnl(legs, max) + level)) / REACH == m;
  }

  lemma ChordEnds(y0: real, y1: real, m: real)
    requires m == (y1 - y0) / REACH
    ensures y1 == y0 + Product(m, REACH) && Product(m, -REACH) == -Product(m, REACH)
  {
  }

  lemma BackFromChord(m: real, a: real, b: real)
    requires m != 0.0 && a > 0.0 && b > 0.0
    ensures Product(m, a) / m == a && (-Product(m, a)) / m == -a
    ensures m > 0.0 ==> Product(m, a) > 0.0 && Product(m, b) > 0.0 && Product(m, -b) < 0.0
    ensures m < 0.0 ==> Product(m, a) < 0.0 && Product(m, b) < 0.0 && Product(m, -b) > 0.0
  {
    OnlyQuotient(m * a, a, m);
    OnlyQuotient(-(m * a), -a, m);
    ProductSigns(m, a);
    ProductSigns(m, b);
  }

  lemma OnlyQuotient(x: real, q: real, m: real)
    requires m != 0.0 && q * m == x
    ensures x / m == q
  {
    assert x / m * m == x;
    assert (x / m - q) * m == 0.0;
  }

  lemma ProductSigns(m: real, a: real)
    requires a > 0.0
    ensures m > 0.0 ==> Product(m, a) > 0.0 && Product(m, -a) < 0.0
    ensures m < 0.0 ==> Product(m, a) < 0.0 && Product(m, -a) > 0.0
  {
    OppositeProducts(m, a);
    if m > 0.0 { MulMonoStrict(0.0, m, a); }
    if m < 0.0 { MulMonoStrict(m, 0.0, a); }
  }

  /** Where the profit agrees with a chord it has no kink. */
  lemma ChordHasNoKink(legs: seq<OptionLeg>, x1: real, x2: real, y: real, m: real)
    requires forall z :: x1 < z < x2 ==> Pnl(legs, z) == y + Product(m, z - x1)
    ensures NoKink(legs, x1, x2)
  {
    hide Pnl, NetUnits;
    forall k | x1 < k < x2 ensures NetUnits(legs, k) == 0 {
      var e := GapAround(legs, k, Min(k - x1, x2 - k) / 2.0);
      SecondDifference(legs, k, e);
      ProductSplit(m, k - x1, e);
      ProductSplit(m, k - x1, -e);
      OppositeProducts(m, e);
      NonZeroUnits(e, NetUnits(legs, k));
    }
  }

  lemma OppositeProducts(m: real, e: real)
    ensures Product(m, e) + Product(m, -e) == 0.0
  {
  }

  lemma NonZeroUnits(e: real, units: int)
    requires e > 0.0
    ensures Product(e, units as real) == 0.0 ==> units == 0
  {
  }

  /**
     The left ray can be trusted whatever the premiums exactly when as much is bought as sold at every strike within
     the 100 points it looks over.
     */
  lemma LeftRayIsRightExactly(legs: seq<OptionLeg>, min: real)
    requires Abs(ChordSlope(legs, min - REACH)) > 0.0001
    ensures LeftRayIsRight(legs, min) <==> NoKink(legs, min - 100.0, min)
  {
    hide Pnl, NoKink, LeftRootAt, LeftRoot, Slope, Cost, Reprices;
    var from, m := min - REACH, ChordSlope(legs, min - REACH);
    assert from + REACH == min;
    ChordEnds(Pnl(legs, from), Pnl(legs, min), m);
    if LeftRayIsRight(legs, min) {
      forall z | from < z < min ensures Pnl(legs, z) == Pnl(legs, from) + Product(m, z - from) {
        var other := PremiumsForChord(legs, from, min, m, z - from);
        ProductSplit(m, z - from, min - z);
        assert z - from + (min - z) == REACH;
        LeftRayReportsChord(legs, min, z);
        RepricedRoots(legs, other, min);
        RepricingSetsLevel(legs, other, z);
      }
      ChordHasNoKink(legs, from, min, Pnl(legs, from), m);
    }
    if NoKink(legs, from, min) {
      forall other, z | Reprices(legs, other) && LeftRoot(other, min) == Some(z) ensures Pnl(other, z) == 0.0 {
        RepricedRoots(legs, other, min);
        RepricingSetsLevel(legs, other, z);
        LeftRootOnChord(legs, min, Cost(legs) - Cost(other), z);
        StraightTo(legs, from, min, z);
        SlopeFromEnds(legs, from);
        assert Slope(legs, from) as real == m;
      }
    }
  }

  /** What the left ray reports is where the chord, raised by the level, crosses zero. */
  lemma LeftRootOnChord(legs: seq<OptionLeg>, min: real, level: real, z: real)
    requires LeftRootAt(legs, min, level) == Some(z)
    ensures min - REACH < z < min
    ensures Pnl(legs, min - REACH) + level + Product(ChordSlope(legs, min - REACH), z - (min - REACH)) == 0.0
  {
    hide Pnl;
    var from := min - REACH;
    var y0, y1 := Pnl(legs, from) + level, Pnl(legs, min) + level;
    assert from + REACH == min;
    var m := (y1 - y0) / REACH;
    assert m == ChordSlope(legs, from);
    RootOfChord(y0, y1, m, y1 / m);
  }

  lemma RootOfChord(y0: real, y1: real, m: real, back: real)
    requires m == (y1 - y0) / REACH && m != 0.0 && back == y1 / m && (y0 < 0.0 < y1 || y0 > 0.0 > y1)
    ensures 0.0 < back < REACH && y0 + Product(m, REACH - back) == 0.0
  {
    assert back * m == y1;
    if m > 0.0 {
      DivAtLeast(y1, 0.0, m);
      if back <= 0.0 { MulMono(back, 0.0, m); }
      if back >= REACH { MulMono(REACH, back, m); }
    } else {
      if back <= 0.0 { MulMono(back, 0.0, -m); }
      if back >= REACH { MulMono(REACH, back, -m); }
    }
  }

  lemma RightRayIsRightExactly(legs: seq<OptionLeg>, max: real)
    requires Abs(ChordSlope(legs, max)) > 0.0001
    ensures RightRayIsRight(legs, max) <==> NoKink(legs, max, max + 100.0)
  {
    hide Pnl, NoKink, RightRootAt, RightRoot, Slope, Cost, Reprices;
    var to, m := max + REACH, ChordSlope(legs, max);
    ChordEnds(Pnl(legs, max), Pnl(legs, to), m);
    if RightRayIsRight(legs, max) {
      forall z | max < z < to ensures Pnl(legs, z) == Pnl(legs, max) + Product(m, z - max) {
        var other := PremiumsForChord(legs, max, to, m, z - max);
        RightRayReportsChord(legs, max, z);
        RepricedRoots(legs, other, max);
        RepricingSetsLevel(legs, other, z);
      }
      ChordHasNoKink(legs, max, to, Pnl(legs, max), m);
    }
    if NoKink(legs, max, to) {
      forall other, z | Reprices(legs, other) && RightRoot(other, max) == Some(z) ensures Pnl(other, z) == 0.0 {
        RepricedRoots(legs, other, max);
        RepricingSetsLevel(legs, other, z);
        RightRootOnChord(legs, max, Cost(legs) - Cost(other), z);
        StraightTo(legs, max, to, z);
        SlopeFromEnds(legs, max);
        assert Slope(legs, max) as real == m;
      }
    }
  }

  lemma RightRootOnChord(legs: seq<OptionLeg>, max: real, level: real, z: real)
    requires RightRootAt(legs, max, level) == Some(z)
    ensures max < z < max + REACH
    ensures Pnl(legs, max) + level + Product(ChordSlope(legs, max), z - max) == 0.0
  {
    hide Pnl;
    var y0, y1 := Pnl(legs, max) + level, Pnl(legs, max + REACH) + level;
    var m := (y1 - y0) / REACH;
    assert m == ChordSlope(legs, max);
    RootAhead(y0, y1, m, y0 / m);
  }

  lemma RootAhead(y0: real, y1: real, m: real, behind: real)
    requires m == (y1 - y0) / REACH && m != 0.0 && behind == y0 / m && (y0 < 0.0 < y1 || y0 > 0.0 > y1)
    ensures -REACH < behind < 0.0 && y0 + Product(m, -behind) == 0.0
  {
    assert behind * m == y0;
    if m > 0.0 {
      if behind >= 0.0 { MulMono(0.0, behind, m); }
      if behind <= -REACH { MulMono(behind, -REACH, m); }
    } else {
      if behind >= 0.0 { MulMono(0.0, behind, -m); }
      if behind <= -REACH { MulMono(behind, -REACH, -m); }
    }
  }

  /** A strike half way out bends the ray: the reported price then need not break even. */
  lemma KinkedRayMisreports()
    ensures var legs := [OptionLeg(160.0, true, true, 1, 1, 10.0, true)];
            Reported(legs, 90.0, 110.0, 130.0) && Pnl(legs, 130.0) == -10.0
  {
    var legs := [OptionLeg(160.0, true, true, 1, 1, 10.0, true)];
    assert legs[..0] == [];
    assert Pnl(legs, 110.0) == -10.0 && Pnl(legs, 210.0) == 40.0;
    assert RightRoot(legs, 110.0) == Some(130.0);
  }
}

/**
 Max pain (backend/app/analytics/options_analytics.py): the listed strike at which option buyers
 together are paid least.  The search tries only listed strikes; its answer is best over every price.
 */
module MaxPain {
  import opened Common

  /** One row of the chain: a strike with the open interest of its call and of its put. */
  datatype Row = Row(strike: real, callOi: int, putOi: int)

  /** What the buyers of one row are paid at settlement price x. */
  function RowPayoff(row: Row, x: real): real {
    Max(0.0, x - row.strike) * row.callOi as real + Max(0.0, row.strike - x) * row.putOi as real
  }

  function TotalPayoff(rows: seq<Row>, x: real): real {
    if rows == [] then 0.0 else TotalPayoff(rows[..|rows| - 1], x) + RowPayoff(rows[|rows| - 1], x)
  }

  /** The three lists side by side, as long as the shortest. */
  function Zip(strikes: seq<real>, callOis: seq<int>, putOis: seq<int>): (rows: seq<Row>)
    ensures |rows| <= |strikes|
    ensures forall i :: 0 <= i < |rows| ==> rows[i].strike == strikes[i]
  {
    var n := if |strikes| <= |callOis| then |strikes| else |callOis|;
    var m := if n <= |putOis| then n else |putOis|;
    seq(m, i requires 0 <= i < m => Row(strikes[i], callOis[i], putOis[i]))
  }

  /** How many strikes have an open interest of both kinds. */
  function Quoted(strikes: seq<real>, callOis: seq<int>, putOis: seq<int>): (n: nat)
    ensures n <= |strikes| && n <= |callOis| && n <= |putOis|
    ensures n == |strikes| || n == |callOis| || n == |putOis|
  {
    if |strikes| <= |callOis| && |strikes| <= |putOis| then |strikes|
    else if |callOis| <= |putOis| then |callOis| else |putOis|
  }

  /** What calls struck below x and puts struck above it pay, over the first n strikes of the three lists. */
  function Payout(strikes: seq<real>, callOis: seq<int>, putOis: seq<int>, n: nat, x: real): real
    requires n <= |strikes| && n <= |callOis| && n <= |putOis|
  {
    if n == 0 then 0.0
    else
      var rest, k := Payout(strikes, callOis, putOis, n - 1, x), strikes[n - 1];
      if x > k then rest + (x - k) * callOis[n - 1] as real else rest + (k - x) * putOis[n - 1] as real
  }

  lemma {:induction false} RowsPayOut(rows: seq<Row>, strikes: seq<real>, callOis: seq<int>, putOis: seq<int>,
                                      n: nat, x: real)
    requires n <= |rows| && |rows| <= |strikes| && |rows| <= |callOis| && |rows| <= |putOis|
    requires forall i :: 0 <= i < |rows| ==> rows[i] == Row(strikes[i], callOis[i], putOis[i])
    ensures TotalPayoff(rows[..n], x) == Payout(strikes, callOis, putOis, n, x)
  {
    if n > 0 {
      RowsPayOut(rows, strikes, callOis, putOis, n - 1, x);
      assert rows[..n][..n - 1] == rows[..n - 1];
    }
  }

  /** The rows pay what the three lists pay. */
  lemma ZipPaysOut(strikes: seq<real>, callOis: seq<int>, putOis: seq<int>, x: real)
    ensures TotalPayoff(Zip(strikes, callOis, putOis), x)
            == Payout(strikes, callOis, putOis, Quoted(strikes, callOis, putOis), x)
  {
    var rows := Zip(strikes, callOis, putOis);
    assert rows[..|rows|] == rows;
    RowsPayOut(rows, strikes, callOis, putOis, |rows|, x);
  }

  lemma RowsPayAsLists(strikes: seq<real>, callOis: seq<int>, putOis: seq<int>)
    ensures var rows, n := Zip(strikes, callOis, putOis), Quoted(strikes, callOis, putOis);
            forall x :: TotalPayoff(rows, x) == Payout(strikes, callOis, putOis, n, x)
  {
    hide TotalPayoff, Payout, Zip, Quoted;
    forall x ensures TotalPayoff(Zip(strikes, callOis, putOis), x)
                     == Payout(strikes, callOis, putOis, Quoted(strikes, callOis, putOis), x)
    {
      ZipPaysOut(strikes, callOis, putOis, x);
    }
  }

  ghost predicate NonNegative(rows: seq<Row>) {
    forall i :: 0 <= i < |rows| ==> rows[i].callOi >= 0 && rows[i].putOi >= 0
  }

  // ---------------------------------------------------------------- why listed strikes suffice

  /** The slope of the total payoff just above x: calls below or at x push up, puts above x push down. */
  function Slope(rows: seq<Row>, x: real): real {
    if rows == [] then 0.0
    else
      var row := rows[|rows| - 1];
      Slope(rows[..|rows| - 1], x) + RowSlope(row, x)
  }

  /** No strike lies strictly between x and y. */
  ghost predicate Clear(rows: seq<Row>, x: real, y: real) {
    forall i :: 0 <= i < |rows| ==> rows[i].strike <= x || rows[i].strike >= y
  }

  function RowSlope(row: Row, x: real): real {
    if row.strike <= x then row.callOi as real else -(row.putOi as real)
  }

  lemma RowIsStraight(row: Row, x: real, h: real)
    requires h >= 0.0 && (row.strike <= x || row.strike >= x + h)
    ensures RowPayoff(row, x + h) == RowPayoff(row, x) + Product(RowSlope(row, x), h)
  {
    var c, p := row.callOi as real, row.putOi as real;
    if row.strike <= x {
      MulSum(x + h - row.strike, x - row.strike, h, c);
    } else {
      MulSum(row.strike - (x + h), row.strike - x, -h, p);
    }
  }

  /** Between neighbouring strikes the total payoff is a straight line. */
  lemma {:induction false} StraightBetweenStrikes(rows: seq<Row>, x: real, h: real)
    requires h >= 0.0 && Clear(rows, x, x + h)
    ensures TotalPayoff(rows, x + h) == TotalPayoff(rows, x) + Product(Slope(rows, x), h)
  {
    if rows != [] {
      hide RowPayoff, RowSlope, Product;
      StraightBetweenStrikes(rows[..|rows| - 1], x, h);
      RowIsStraight(rows[|rows| - 1], x, h);
      ProductSum(Slope(rows, x), Slope(rows[..|rows| - 1], x), RowSlope(rows[|rows| - 1], x), h);
    }
  }

  lemma {:induction false} SlopeSigns(rows: seq<Row>, x: real)
    requires NonNegative(rows)
    ensures (forall i :: 0 <= i < |rows| ==> rows[i].strike <= x) ==> Slope(rows, x) >= 0.0
    ensures (forall i :: 0 <= i < |rows| ==> rows[i].strike > x) ==> Slope(rows, x) <= 0.0
  {
    if rows != [] {
      SlopeSigns(rows[..|rows| - 1], x);
    }
  }

  /** The nearest strike above x, or the nearest one at or below it. */
  lemma {:induction false} NearestAbove(rows: seq<Row>, x: real) returns (k: nat)
    requires exists i :: 0 <= i < |rows| && rows[i].strike > x
    ensures k < |rows| && rows[k].strike > x && Clear(rows, x, rows[k].strike)
  {
    var last := |rows| - 1;
    if exists i :: 0 <= i < last && rows[i].strike > x {
      var i :| 0 <= i < last && rows[i].strike > x;
      assert rows[..last][i].strike > x;
      k := NearestAbove(rows[..last], x);
      assert forall j :: 0 <= j < last ==> rows[..last][j] == rows[j];
      if x < rows[last].strike < rows[k].strike { k := last; }
    } else {
      k := last;
    }
  }

  lemma {:induction false} NearestBelow(rows: seq<Row>, x: real) returns (k: nat)
    requires exists i :: 0 <= i < |rows| && rows[i].strike <= x
    ensures k < |rows| && rows[k].strike <= x && Clear(rows, rows[k].strike, x)
    ensures forall i :: 0 <= i < |rows| ==> rows[i].strike <= rows[k].strike || rows[i].strike > x
  {
    var last := |rows| - 1;
    if exists i :: 0 <= i < last && rows[i].strike <= x {
      var i :| 0 <= i < last && rows[i].strike <= x;
      assert rows[..last][i].strike <= x;
      k := NearestBelow(rows[..last], x);
      assert forall j :: 0 <= j < last ==> rows[..last][j] == rows[j];
      if rows[k].strike < rows[last].strike <= x { k := last; }
    } else {
      k := last;
    }
  }

  /** Two prices with the same strikes at or below them have the same slope. */
  lemma {:induction false} SameSlope(rows: seq<Row>, x: real, y: real)
    requires forall i :: 0 <= i < |rows| ==> (rows[i].strike <= x <==> rows[i].strike <= y)
    ensures Slope(rows, x) == Slope(rows, y)
  {
    if rows != [] {
      SameSlope(rows[..|rows| - 1], x, y);
    }
  }

  /** From any price one can go downhill to some strike. */
  lemma SomeStrikeIsNoWorse(rows: seq<Row>, x: real) returns (k: nat)
    requires NonNegative(rows) && rows != []
    ensures k < |rows| && TotalPayoff(rows, rows[k].strike) <= TotalPayoff(rows, x)
  {
    hide TotalPayoff, Slope, Product;
    SlopeSigns(rows, x);
    var first := rows[0].strike;
    if Slope(rows, x) >= 0.0 && exists i :: 0 <= i < |rows| && rows[i].strike <= x {
      k := NearestBelow(rows, x);
      SameSlope(rows, rows[k].strike, x);
      StraightBetweenStrikes(rows, rows[k].strike, x - rows[k].strike);
      ProductSign(Slope(rows, x), x - rows[k].strike);
    } else {
      k := NearestAbove(rows, x);
      StraightBetweenStrikes(rows, x, rows[k].strike - x);
      ProductSign(Slope(rows, x), rows[k].strike - x);
    }
  }

  // ---------------------------------------------------------------- the search

  datatype MaxPainResult = MaxPainResult(strike: real, distance: real, distancePct: real,
                                         loss: real, curve: seq<(real, real)>)

  function DistancePct(distance: real, spot: real): real {
    if spot > 0.0 then distance / spot * 100.0 else 0.0
  }

  /** The percentage of the spot price that a distance is; none where there is no price. */
  predicate IsPercent(percent: real, distance: real, spot: real) {
    if spot > 0.0 then percent * spot == 100.0 * distance else percent == 0.0
  }

  lemma PercentOfSpot(distance: real, spot: real)
    ensures IsPercent(DistancePct(distance, spot), distance, spot)
  {
    if spot > 0.0 {
      assert distance / spot * spot == distance;
      assert distance / spot * 100.0 * spot == 100.0 * (distance / spot * spot);
    }
  }

  /** The total payoff at one price, row by row. */
  method PayoffAt(rows: seq<Row>, price: real) returns (total: real)
    ensures total == TotalPayoff(rows, price)
  {
    total := 0.0;
    for k := 0 to |rows|
      invariant total == TotalPayoff(rows[..k], price)
    {
      assert rows[..k + 1][..k] == rows[..k];
      total := total + RowPayoff(rows[k], price);
    }
    assert rows[..|rows|] == rows;
  }

  /** Strike number `at` is the first among the first n with the least total payoff. */
  ghost predicate FirstLeast(rows: seq<Row>, strikes: seq<real>, n: nat, at: nat)
    requires n <= |strikes|
  {
    && at < n
    && (forall i :: 0 <= i < n ==> TotalPayoff(rows, strikes[at]) <= TotalPayoff(rows, strikes[i]))
    && (forall i :: 0 <= i < at ==> TotalPayoff(rows, strikes[i]) > TotalPayoff(rows, strikes[at]))
  }

  /** The best listed strike is the best price of all. */
  lemma ListedBestIsBest(rows: seq<Row>, strikes: seq<real>, at: nat)
    requires NonNegative(rows) && |rows| <= |strikes| && FirstLeast(rows, strikes, |strikes|, at)
    requires forall i :: 0 <= i < |rows| ==> rows[i].strike == strikes[i]
    ensures forall x :: TotalPayoff(rows, strikes[at]) <= TotalPayoff(rows, x)
    ensures forall i :: 0 <= i < at ==> TotalPayoff(rows, strikes[i]) > TotalPayoff(rows, strikes[at])
  {
    forall x ensures TotalPayoff(rows, strikes[at]) <= TotalPayoff(rows, x) {
      if rows != [] {
        var k := SomeStrikeIsNoWorse(rows, x);
        assert rows[k].strike == strikes[k];
      }
    }
  }

  /** Tries every listed strike in turn and keeps the first one with the least total payoff. */
  method SearchStrikes(rows: seq<Row>, strikes: seq<real>)
    returns (bestStrike: real, least: real, curve: seq<(real, real)>, ghost at: nat)
    requires strikes != []
    ensures FirstLeast(rows, strikes, |strikes|, at)
    ensures bestStrike == strikes[at] && least == TotalPayoff(rows, bestStrike)
    ensures |curve| == |strikes|
    ensures forall i :: 0 <= i < |strikes| ==> curve[i] == (strikes[i], TotalPayoff(rows, strikes[i]))
  {
    hide TotalPayoff;
    at := 0;
    var minLoss: Option<real> := None;
    bestStrike, curve := strikes[0], [];
    for n := 0 to |strikes|
      invariant |curve| == n
      invariant forall i :: 0 <= i < n ==> curve[i] == (strikes[i], TotalPayoff(rows, strikes[i]))
      invariant minLoss.Some? <==> n > 0
      invariant n > 0 ==>
                  && FirstLeast(rows, strikes, n, at) && bestStrike == strikes[at]
                  && minLoss.value == TotalPayoff(rows, bestStrike)
    {
      var total := PayoffAt(rows, strikes[n]);
      curve := curve + [(strikes[n], total)];
      if minLoss.None? || total < minLoss.value {
        minLoss, bestStrike, at := Some(total), strikes[n], n;
      }
    }
    least := minLoss.value;
  }

  /**
     The result strike is listed, no settlement price whatever pays the buyers less in total, and among
     equally good listed strikes it is the first listed.  The payoffs are those of the three lists.
     */
  method CalculateMaxPain(strikes: seq<real>, callOis: seq<int>, putOis: seq<int>, spot: real)
    returns (r: MaxPainResult, ghost at: nat)
    requires NonNegative(Zip(strikes, callOis, putOis))
    ensures strikes == [] ==> r == MaxPainResult(spot, 0.0, 0.0, 0.0, [])
    ensures strikes != [] ==>
              var n := Quoted(strikes, callOis, putOis);
              && at < |strikes|
              && r.strike == strikes[at] && r.loss == Payout(strikes, callOis, putOis, n, r.strike)
              && (forall x :: r.loss <= Payout(strikes, callOis, putOis, n, x))
              && |r.curve| == |strikes|
              && (forall i :: 0 <= i < |strikes| ==>
                    r.curve[i] == (strikes[i], Payout(strikes, callOis, putOis, n, strikes[i])))
              && (forall i :: 0 <= i < at ==> r.curve[i].1 > r.loss)
              && r.distance == r.strike - spot
              && IsPercent(r.distancePct, r.distance, spot)
  {
    at := 0;
    if strikes == [] {
      r := MaxPainResult(spot, 0.0, 0.0, 0.0, []);
      return;
    }
    hide TotalPayoff, NonNegative, DistancePct, Payout, Quoted, FirstLeast, Zip, IsPercent;
    var rows := Zip(strikes, callOis, putOis);
    var bestStrike, least, curve, first := SearchStrikes(rows, strikes);
    at := first;
    ListedBestIsBest(rows, strikes, at);
    var distance := bestStrike - spot;
    r := MaxPainResult(bestStrike, distance, DistancePct(distance, spot), least, curve);
    RowsPayAsLists(strikes, callOis, putOis);
    PercentOfSpot(distance, spot);
  }
}

/**
 Futures backtest with automatic contract rolls (backend/app/backtest/futures_runner.py).  Transaction costs are an
 arbitrary function; performance metrics, identifiers and the recorded commit are left out.
 */
module FuturesRunner {
  import opened Common
  import opened PortfolioAccounting
  import SortedDistinct
  import StableSort

  datatype Contract = Contract(symbol: string, expiry: real)

  datatype Bar = Bar(time: real, open: real, close: real)

  /** The bars of one contract; a list of series is a dictionary in insertion order. */
  datatype Series = Series(symbol: string, bars: seq<Bar>)

  datatype Strategy = Strategy(side: Side, lotSize: nat, lots: nat, rollDays: nat, marginRate: real)

  datatype Roll = Roll(time: real, from: string, to: string, oldPrice: real, newPrice: real, spread: real, cost: real)

  datatype Result = Result(rolls: seq<Roll>, margins: seq<real>, trades: seq<Fill>, curve: seq<EquityPoint>)

  /** The day number of a point in time in seconds. */
  function DayOf(time: real): int {
    (time / 86400.0).Floor
  }

  function Opposite(side: Side): Side {
    if side.Buy? then Sell else Buy
  }

  // ---------------------------------------------------------------- inputs

  const EXPIRY: Contract -> real := (c: Contract) => c.expiry

  /** Contracts in order of expiry, equals in their given order. */
  function ByExpiry(contracts: seq<Contract>): (s: seq<Contract>)
    ensures |s| == |contracts|
  {
    StableSort.Sort(contracts, EXPIRY)
  }

  /** A sorted arrangement of the same contracts, those of one expiry in their given order. */
  lemma ByExpirySorts(contracts: seq<Contract>)
    ensures forall i, j :: 0 <= i < j < |contracts| ==> ByExpiry(contracts)[i].expiry <= ByExpiry(contracts)[j].expiry
    ensures multiset(ByExpiry(contracts)) == multiset(contracts)
    ensures forall day :: StableSort.WithKey(ByExpiry(contracts), EXPIRY, day)
                          == StableSort.WithKey(contracts, EXPIRY, day)
  {
    StableSort.SortSorts(contracts, EXPIRY);
    forall day ensures StableSort.WithKey(ByExpiry(contracts), EXPIRY, day)
                       == StableSort.WithKey(contracts, EXPIRY, day)
    {
      StableSort.SortIsStable(contracts, EXPIRY, day);
    }
    var s := ByExpiry(contracts);
    forall i, j | 0 <= i < j < |s| ensures s[i].expiry <= s[j].expiry {
      assert EXPIRY(s[i]) <= EXPIRY(s[j]);
    }
  }

  /** The bar of a time stamp, the last one listed if there are several. */
  function BarIn(bars: seq<Bar>, time: real): Option<Bar> {
    if bars == [] then None
    else if bars[|bars| - 1].time == time then Some(bars[|bars| - 1])
    else BarIn(bars[..|bars| - 1], time)
  }

  function BarAt(series: seq<Series>, symbol: string, time: real): Option<Bar> {
    if series == [] then None
    else if series[|series| - 1].symbol == symbol then BarIn(series[|series| - 1].bars, time)
    else BarAt(series[..|series| - 1], symbol, time)
  }

  function TimesIn(bars: seq<Bar>, start: real, end: real): seq<real> {
    if bars == [] then []
    else
      var b := bars[|bars| - 1];
      TimesIn(bars[..|bars| - 1], start, end) + if start <= b.time <= end then [b.time] else []
  }

  function TimesOf(series: seq<Series>, start: real, end: real): seq<real> {
    if series == [] then []
    else TimesOf(series[..|series| - 1], start, end) + TimesIn(series[|series| - 1].bars, start, end)
  }

  /** A bar is looked up by its time stamp; of several the last one is found. */
  lemma {:induction false} LastBarIsFound(bars: seq<Bar>, time: real)
    ensures BarIn(bars, time).None? <==> forall i :: 0 <= i < |bars| ==> bars[i].time != time
    ensures BarIn(bars, time).Some? ==>
              exists i :: 0 <= i < |bars| && bars[i] == BarIn(bars, time).value && bars[i].time == time
                          && forall j :: i < j < |bars| ==> bars[j].time != time
  {
    if bars != [] {
      var last := |bars| - 1;
      LastBarIsFound(bars[..last], time);
      assert forall i :: 0 <= i < last ==> bars[..last][i] == bars[i];
      if bars[last].time == time { assert bars[last] == BarIn(bars, time).value; }
    }
  }

  /** Bars are those of the contract asked for, listed last under its name. */
  lemma {:induction false} OwnBarsAreFound(series: seq<Series>, i: nat, time: real)
    requires i < |series| && forall j :: i < j < |series| ==> series[j].symbol != series[i].symbol
    ensures BarAt(series, series[i].symbol, time) == BarIn(series[i].bars, time)
  {
    hide BarIn;
    var last := |series| - 1;
    if i < last {
      assert series[last].symbol != series[i].symbol && series[..last][i] == series[i];
      OwnBarsAreFound(series[..last], i, time);
    }
  }

  lemma {:induction false} NoOtherBarsAreFound(series: seq<Series>, symbol: string, time: real)
    requires forall i :: 0 <= i < |series| ==> series[i].symbol != symbol
    ensures BarAt(series, symbol, time) == None
  {
    hide BarIn;
    if series != [] { NoOtherBarsAreFound(series[..|series| - 1], symbol, time); }
  }

  /** Some bar has this time stamp. */
  ghost predicate HasTime(bars: seq<Bar>, t: real) {
    exists j :: 0 <= j < |bars| && bars[j].time == t
  }

  /** Some contract has such a bar. */
  ghost predicate AnyHasTime(series: seq<Series>, t: real) {
    exists i :: 0 <= i < |series| && HasTime(series[i].bars, t)
  }

  lemma LastHasTime(bars: seq<Bar>, t: real)
    requires bars != []
    ensures HasTime(bars, t) <==> HasTime(bars[..|bars| - 1], t) || bars[|bars| - 1].time == t
  {
    var rest := bars[..|bars| - 1];
    if HasTime(rest, t) {
      var j :| 0 <= j < |rest| && rest[j].time == t;
      assert bars[j].time == t;
    }
    if HasTime(bars, t) {
      var j :| 0 <= j < |bars| && bars[j].time == t;
      if j < |rest| { assert rest[j].time == t; }
    }
  }

  lemma LastSeriesHasTime(series: seq<Series>, t: real)
    requires series != []
    ensures AnyHasTime(series, t) <==> AnyHasTime(series[..|series| - 1], t) || HasTime(series[|series| - 1].bars, t)
  {
    hide HasTime;
    var rest := series[..|series| - 1];
    if AnyHasTime(rest, t) {
      var i :| 0 <= i < |rest| && HasTime(rest[i].bars, t);
      assert HasTime(series[i].bars, t);
    }
    if AnyHasTime(series, t) {
      var i :| 0 <= i < |series| && HasTime(series[i].bars, t);
      if i < |rest| { assert HasTime(rest[i].bars, t); }
    }
  }

  lemma {:induction false} BarTimesInRange(bars: seq<Bar>, start: real, end: real, t: real)
    ensures t in TimesIn(bars, start, end) <==> start <= t <= end && HasTime(bars, t)
  {
    if bars != [] {
      BarTimesInRange(bars[..|bars| - 1], start, end, t);
      LastHasTime(bars, t);
      hide HasTime;
    }
  }

  lemma {:induction false} AllTimesInRange(series: seq<Series>, start: real, end: real, t: real)
    ensures t in TimesOf(series, start, end) <==> start <= t <= end && AnyHasTime(series, t)
  {
    if series != [] {
      var last := |series| - 1;
      AllTimesInRange(series[..last], start, end, t);
      BarTimesInRange(series[last].bars, start, end, t);
      LastSeriesHasTime(series, t);
      hide TimesIn, HasTime, AnyHasTime;
    }
  }

  /** A run steps, in order, through every time inside its dates at which any contract has a bar. */
  lemma StepsAreBarTimes(series: seq<Series>, start: real, end: real)
    ensures var times := SortedDistinct.Sort(TimesOf(series, start, end));
            && SortedDistinct.Increasing(times)
            && forall t :: t in times <==> start <= t <= end && AnyHasTime(series, t)
  {
    SortedDistinct.SortSorts(TimesOf(series, start, end));
    hide TimesOf, AnyHasTime;
    forall t ensures t in TimesOf(series, start, end) <==> start <= t <= end && AnyHasTime(series, t) {
      AllTimesInRange(series, start, end, t);
    }
  }

  /** What a run is given: contracts in order of expiry, bars, the strategy and the cost of a fill. */
  datatype Setup = Setup(
    contracts: seq<Contract>,
    series: seq<Series>,
    strategy: Strategy,
    fee: (Side, int, real, real) -> real)
  {
    function Quantity(): int {
      strategy.lotSize * strategy.lots
    }

    /** The position held, with its direction. */
    function Exposure(): int {
      Signed(strategy.side, Quantity())
    }

    function Trade(symbol: string, side: Side, price: real, time: real): Fill {
      Fill(symbol, side, Quantity(), price, time, fee(side, Quantity(), price, time), 0.0)
    }
  }

  // ---------------------------------------------------------------- the schedule of rolls

  /** The active contract can be rolled: its roll date has come and the next contract trades. */
  predicate Rolls(u: Setup, active: nat, time: real)
    requires active < |u.contracts|
  {
    && DayOf(time) >= DayOf(u.contracts[active].expiry) - u.strategy.rollDays
    && active + 1 < |u.contracts|
    && BarAt(u.series, u.contracts[active + 1].symbol, time).Some?
  }

  /** Which contract is active after the given time steps. */
  function Active(u: Setup, times: seq<real>): (active: nat)
    requires u.contracts != []
    ensures active < |u.contracts|
  {
    if times == [] then 0
    else
      var before := Active(u, times[..|times| - 1]);
      if Rolls(u, before, times[|times| - 1]) then before + 1 else before
  }

  /** What the run opens at: the first bar of the first contract, or 100. */
  function EntryPrice(u: Setup, first: real): real
    requires u.contracts != []
  {
    var bar := BarAt(u.series, u.contracts[0].symbol, first);
    if bar.Some? then bar.value.open else 100.0
  }

  /** The price of the active contract at a time step; without a bar it is the price of the first entry. */
  function ActivePrice(u: Setup, active: nat, entry: real, time: real): real
    requires active < |u.contracts|
  {
    var bar := BarAt(u.series, u.contracts[active].symbol, time);
    if bar.Some? then bar.value.close else entry
  }

  function NextPrice(u: Setup, active: nat, time: real): real
    requires active < |u.contracts| && Rolls(u, active, time)
  {
    BarAt(u.series, u.contracts[active + 1].symbol, time).value.close
  }

  /** The price a step is marked at. */
  function MarkPrice(u: Setup, active: nat, entry: real, time: real): real
    requires active < |u.contracts|
  {
    if Rolls(u, active, time) then NextPrice(u, active, time) else ActivePrice(u, active, entry, time)
  }

  /** Close the active contract, open the next one. */
  function RollTrades(u: Setup, active: nat, entry: real, time: real): seq<Fill>
    requires active < |u.contracts| && Rolls(u, active, time)
  {
    [ u.Trade(u.contracts[active].symbol, Opposite(u.strategy.side), ActivePrice(u, active, entry, time), time),
      u.Trade(u.contracts[active + 1].symbol, u.strategy.side, NextPrice(u, active, time), time)]
  }

  function RollRecord(u: Setup, active: nat, entry: real, time: real): Roll
    requires active < |u.contracts| && Rolls(u, active, time)
  {
    var left, joined := ActivePrice(u, active, entry, time), NextPrice(u, active, time);
    Roll(time, u.contracts[active].symbol, u.contracts[active + 1].symbol, left, joined, joined - left,
         u.fee(Opposite(u.strategy.side), u.Quantity(), left, time)
         + u.fee(u.strategy.side, u.Quantity(), joined, time))
  }

  /** A roll leaves the old contract at its close, or else at the entry price, and joins the next one at its close. */
  lemma RollsAtTheClose(u: Setup, active: nat, entry: real, time: real)
    requires active < |u.contracts| && Rolls(u, active, time)
    ensures var trades, record := RollTrades(u, active, entry, time), RollRecord(u, active, entry, time);
            var own := BarAt(u.series, u.contracts[active].symbol, time);
            var next := BarAt(u.series, u.contracts[active + 1].symbol, time);
            && next.Some? && |trades| == 2
            && trades[0].price == record.oldPrice == (if own.Some? then own.value.close else entry)
            && trades[1].price == record.newPrice == next.value.close == MarkPrice(u, active, entry, time)
            && record.spread == record.newPrice - record.oldPrice
            && record.cost == trades[0].Cost() + trades[1].Cost()
            && trades[0].security == record.from == u.contracts[active].symbol
            && trades[1].security == record.to == u.contracts[active + 1].symbol
            && trades[0].side != u.strategy.side == trades[1].side
            && trades[0].quantity == trades[1].quantity == u.Quantity()
  {
    hide BarAt;
  }

  /** All trades after the given time steps; the entry happens at `first`. */
  function Trades(u: Setup, first: real, times: seq<real>): seq<Fill>
    requires u.contracts != []
  {
    var entry := EntryPrice(u, first);
    if times == [] then [u.Trade(u.contracts[0].symbol, u.strategy.side, entry, first)]
    else
      var active, time := Active(u, times[..|times| - 1]), times[|times| - 1];
      var earlier := Trades(u, first, times[..|times| - 1]);
      if Rolls(u, active, time) then earlier + RollTrades(u, active, entry, time) else earlier
  }

  /** A run enters the first contract at its opening price, or at a hundred, with all its lots. */
  lemma EntersAtTheOpen(u: Setup, first: real)
    requires u.contracts != []
    ensures var bar := BarAt(u.series, u.contracts[0].symbol, first);
            var trades := Trades(u, first, []);
            && |trades| == 1
            && trades[0].price == EntryPrice(u, first) == (if bar.Some? then bar.value.open else 100.0)
            && trades[0].security == u.contracts[0].symbol && trades[0].side == u.strategy.side
            && trades[0].quantity == u.strategy.lotSize * u.strategy.lots && trades[0].time == first
            && u.Exposure() == if u.strategy.side.Buy? then trades[0].quantity else -trades[0].quantity
  {
    hide BarAt;
  }

  /** Between rolls a step is marked at the contract's close, or at the price of the entry. */
  lemma MarksAtTheClose(u: Setup, active: nat, entry: real, time: real)
    requires active < |u.contracts| && !Rolls(u, active, time)
    ensures var bar := BarAt(u.series, u.contracts[active].symbol, time);
            MarkPrice(u, active, entry, time) == if bar.Some? then bar.value.close else entry
  {
    hide BarAt, Rolls;
  }

  function RollRecords(u: Setup, first: real, times: seq<real>): seq<Roll>
    requires u.contracts != []
  {
    if times == [] then []
    else
      var active, time := Active(u, times[..|times| - 1]), times[|times| - 1];
      var earlier := RollRecords(u, first, times[..|times| - 1]);
      if Rolls(u, active, time) then earlier + [RollRecord(u, active, EntryPrice(u, first), time)] else earlier
  }

  function Spreads(rolls: seq<Roll>): real {
    if rolls == [] then 0.0 else Spreads(rolls[..|rolls| - 1]) + rolls[|rolls| - 1].spread
  }

  function Costs(rolls: seq<Roll>): real {
    if rolls == [] then 0.0 else Costs(rolls[..|rolls| - 1]) + rolls[|rolls| - 1].cost
  }

  // ---------------------------------------------------------------- what every run keeps

  /** Fills net to zero in every contract but the active one, which holds the exposure; whatever the symbols. */
  lemma {:induction false} OnlyActiveIsHeld(u: Setup, first: real, times: seq<real>, symbol: string)
    requires u.contracts != []
    ensures NetQuantity(Trades(u, first, times), symbol)
            == if symbol == u.contracts[Active(u, times)].symbol then u.Exposure() else 0
  {
    hide Setup.Quantity, Rolls, ActivePrice, NextPrice, EntryPrice, Paid, PaidInAll, Fees;
    if times == [] {
      OneFill(Trades(u, first, times), symbol);
    } else {
      var earlier := times[..|times| - 1];
      var active, time := Active(u, earlier), times[|times| - 1];
      OnlyActiveIsHeld(u, first, earlier, symbol);
      if Rolls(u, active, time) {
        TwoFills(Trades(u, first, earlier), RollTrades(u, active, EntryPrice(u, first), time), symbol);
      }
    }
  }

  lemma OneFill(fills: seq<Fill>, symbol: string)
    requires |fills| == 1
    ensures NetQuantity(fills, symbol)
            == if fills[0].security == symbol then Signed(fills[0].side, fills[0].quantity) else 0
    ensures Fees(fills) == fills[0].Cost()
    ensures PaidInAll(fills) == Consideration(fills[0].price, fills[0].side, fills[0].quantity)
  {
  }

  lemma TwoFills(fills: seq<Fill>, pair: seq<Fill>, symbol: string)
    requires |pair| == 2
    ensures NetQuantity(fills + pair, symbol)
            == NetQuantity(fills, symbol)
               + (if pair[0].security == symbol then Signed(pair[0].side, pair[0].quantity) else 0)
               + (if pair[1].security == symbol then Signed(pair[1].side, pair[1].quantity) else 0)
    ensures Fees(fills + pair) == Fees(fills) + pair[0].Cost() + pair[1].Cost()
    ensures PaidInAll(fills + pair) == PaidInAll(fills)
            + Consideration(pair[0].price, pair[0].side, pair[0].quantity)
            + Consideration(pair[1].price, pair[1].side, pair[1].quantity)
  {
    hide Consideration;
    FillsSnoc(fills, pair[0]);
    FillsSnoc(fills + [pair[0]], pair[1]);
    assert fills + pair == (fills + [pair[0]]) + [pair[1]];
  }

  /** One record per roll, two trades per roll and one for the entry. */
  lemma {:induction false} RollsAreCounted(u: Setup, first: real, times: seq<real>)
    requires u.contracts != []
    ensures |RollRecords(u, first, times)| == Active(u, times)
    ensures |Trades(u, first, times)| == 1 + 2 * |RollRecords(u, first, times)|
  {
    hide Setup.Quantity, Rolls, EntryPrice, ActivePrice, NextPrice;
    if times != [] { RollsAreCounted(u, first, times[..|times| - 1]); }
  }

  lemma HeldOnlyWhenNotRollable(u: Setup, times: seq<real>, k: nat)
    requires u.contracts != [] && k < |times|
    ensures var active := Active(u, times[..k]);
            && (Active(u, times[..k + 1]) == active <==> !Rolls(u, active, times[k]))
            && active <= Active(u, times[..k + 1]) <= active + 1
  {
    assert times[..k + 1][..k] == times[..k];
  }

  lemma {:induction false} ActiveGrows(u: Setup, times: seq<real>, j: nat, k: nat)
    requires u.contracts != [] && j <= k <= |times|
    ensures Active(u, times[..j]) <= Active(u, times[..k])
  {
    hide Active;
    if j < k {
      ActiveGrows(u, times, j, k - 1);
      HeldOnlyWhenNotRollable(u, times, k - 1);
    }
  }

  /** A contract that is active at two steps could not be rolled at the first. */
  lemma NotRollableWhileActive(u: Setup, times: seq<real>, j: nat, k: nat)
    requires u.contracts != [] && j < k <= |times| && Active(u, times[..j]) == Active(u, times[..k])
    ensures !Rolls(u, Active(u, times[..j]), times[j])
  {
    hide Active, Rolls;
    HeldOnlyWhenNotRollable(u, times, j);
    ActiveGrows(u, times, j + 1, k);
  }

  /** Contract i is active at step k, can be rolled then, and could not be at any earlier step of its own. */
  ghost predicate FirstChance(u: Setup, i: nat, times: seq<real>, k: nat)
    requires i < |u.contracts| && k < |times|
  {
    && Active(u, times[..k]) == i && Rolls(u, i, times[k])
    && forall j :: 0 <= j < k && Active(u, times[..j]) == i ==> !Rolls(u, i, times[j])
  }

  /**
     The i-th roll leads from contract i to contract i + 1, at the first step after contract i became active that
     allows it.
     */
  ghost predicate Links(u: Setup, i: nat, roll: Roll, times: seq<real>) {
    && i + 1 < |u.contracts|
    && roll.from == u.contracts[i].symbol && roll.to == u.contracts[i + 1].symbol
    && exists k :: 0 <= k < |times| && times[k] == roll.time && FirstChance(u, i, times, k)
  }

  lemma NextExists(u: Setup, active: nat, time: real)
    requires active < |u.contracts| && Rolls(u, active, time)
    ensures active + 1 < |u.contracts|
  {
  }

  lemma ChanceIsFirst(u: Setup, times: seq<real>, k: nat)
    requires u.contracts != [] && k < |times| && Rolls(u, Active(u, times[..k]), times[k])
    ensures FirstChance(u, Active(u, times[..k]), times, k)
  {
    hide Active, Rolls;
    forall j | 0 <= j < k && Active(u, times[..j]) == Active(u, times[..k])
      ensures !Rolls(u, Active(u, times[..k]), times[j])
    {
      NotRollableWhileActive(u, times, j, k);
    }
  }

  lemma ChanceStaysFirst(u: Setup, i: nat, times: seq<real>, later: seq<real>, k: nat)
    requires i < |u.contracts| && k < |times| && times <= later && FirstChance(u, i, times, k)
    ensures FirstChance(u, i, later, k)
  {
    hide Active, Rolls;
    assert forall j :: 0 <= j <= k ==> later[..j] == times[..j];
  }

  /** Rolls lead from contract to contract without a skip, each at its first chance. */
  lemma {:induction false} RollsChain(u: Setup, first: real, times: seq<real>)
    requires u.contracts != []
    ensures forall i :: 0 <= i < |RollRecords(u, first, times)| ==> Links(u, i, RollRecords(u, first, times)[i], times)
  {
    hide Rolls, EntryPrice, ActivePrice, NextPrice, Trades, FirstChance, Active;
    if times != [] {
      var earlier, last := times[..|times| - 1], |times| - 1;
      RollsChain(u, first, earlier);
      RollsAreCounted(u, first, earlier);
      var before, rolls := RollRecords(u, first, earlier), RollRecords(u, first, times);
      forall i | 0 <= i < |rolls| ensures Links(u, i, rolls[i], times) {
        if i < |before| {
          assert Links(u, i, before[i], earlier);
          var k :| 0 <= k < |earlier| && earlier[k] == before[i].time && FirstChance(u, i, earlier, k);
          ChanceStaysFirst(u, i, earlier, times, k);
          assert times[k] == before[i].time;
        } else {
          NextExists(u, i, times[last]);
          ChanceIsFirst(u, times, last);
          assert times[last] == rolls[i].time;
        }
      }
    }
  }

  /** The roll date of the contract has come and the next one trades. */
  ghost predicate Due(u: Setup, i: nat, time: real)
    requires i + 1 < |u.contracts|
  {
    && DayOf(u.contracts[i].expiry) - DayOf(time) <= u.strategy.rollDays
    && exists b :: BarAt(u.series, u.contracts[i + 1].symbol, time) == Some(b)
  }

  /** A contract can be rolled if and only if there is a next one and the roll is due. */
  lemma RollsWhenDue(u: Setup, i: nat, time: real)
    requires i < |u.contracts|
    ensures Rolls(u, i, time) <==> i + 1 < |u.contracts| && Due(u, i, time)
  {
    hide BarAt, DayOf;
    if i + 1 < |u.contracts| && BarAt(u.series, u.contracts[i + 1].symbol, time).Some? {
      var b := BarAt(u.series, u.contracts[i + 1].symbol, time).value;
      assert BarAt(u.series, u.contracts[i + 1].symbol, time) == Some(b);
    }
  }

  /** Over a whole run no contract is rolled before it is due. */
  lemma RollsAreDue(u: Setup, first: real, times: seq<real>, i: nat)
    requires u.contracts != [] && i < |RollRecords(u, first, times)|
    ensures i + 1 < |u.contracts| && Due(u, i, RollRecords(u, first, times)[i].time)
  {
    RollsChain(u, first, times);
    hide RollRecords, Rolls, Due, Active;
    assert Links(u, i, RollRecords(u, first, times)[i], times);
    RollsWhenDue(u, i, RollRecords(u, first, times)[i].time);
  }

  /** No roll is missed: the contract active at the end could not be rolled at any of its steps. */
  lemma LastContractHadNoChance(u: Setup, times: seq<real>, j: nat)
    requires u.contracts != [] && j < |times| && Active(u, times[..j]) == Active(u, times)
    ensures !Rolls(u, Active(u, times), times[j])
  {
    assert times[..|times|] == times;
    NotRollableWhileActive(u, times, j, |times|);
  }

  /** At most one roll at a time step: the roll times increase. */
  lemma {:induction false} RollTimesIncrease(u: Setup, first: real, times: seq<real>)
    requires u.contracts != [] && SortedDistinct.Increasing(times)
    ensures var rolls := RollRecords(u, first, times);
            forall i, j :: 0 <= i < j < |rolls| ==> rolls[i].time < rolls[j].time
  {
    hide Rolls, EntryPrice, ActivePrice, NextPrice, Links, Trades;
    if times != [] {
      var earlier, last := times[..|times| - 1], times[|times| - 1];
      RollTimesIncrease(u, first, earlier);
      var before, rolls := RollRecords(u, first, earlier), RollRecords(u, first, times);
      forall i, j | 0 <= i < j < |rolls| ensures rolls[i].time < rolls[j].time {
        RollHappensAtStep(u, first, earlier, i);
      }
    }
  }

  lemma RollHappensAtStep(u: Setup, first: real, times: seq<real>, i: nat)
    requires u.contracts != [] && i < |RollRecords(u, first, times)|
    ensures exists k :: 0 <= k < |times| && times[k] == RollRecords(u, first, times)[i].time
  {
    hide Rolls, RollRecords;
    RollsChain(u, first, times);
    assert Links(u, i, RollRecords(u, first, times)[i], times);
  }

  /** Fees are those of the entry and of the rolls. */
  lemma {:induction false} FeesAreRecorded(u: Setup, first: real, times: seq<real>)
    requires u.contracts != []
    ensures Fees(Trades(u, first, times))
            == u.fee(u.strategy.side, u.Quantity(), EntryPrice(u, first), first) + Costs(RollRecords(u, first, times))
  {
    hide Setup.Quantity, Rolls, ActivePrice, NextPrice, EntryPrice, Paid, PaidInAll, NetQuantity;
    if times == [] {
      OneFill(Trades(u, first, times), "");
    } else {
      var earlier := times[..|times| - 1];
      var active, time := Active(u, earlier), times[|times| - 1];
      FeesAreRecorded(u, first, earlier);
      if Rolls(u, active, time) {
        TwoFills(Trades(u, first, earlier), RollTrades(u, active, EntryPrice(u, first), time), "");
        var rolls, record := RollRecords(u, first, earlier), RollRecord(u, active, EntryPrice(u, first), time);
        assert (rolls + [record])[..|rolls|] == rolls;
      }
    }
  }

  lemma EntryPays(u: Setup, first: real)
    requires u.contracts != []
    ensures var fill := Trades(u, first, [])[0];
            Consideration(fill.price, fill.side, fill.quantity) == Product(EntryPrice(u, first), u.Exposure() as real)
  {
  }

  /** A roll costs the exposure at the spread. */
  lemma RollPaysSpread(u: Setup, active: nat, entry: real, time: real)
    requires active < |u.contracts| && Rolls(u, active, time)
    ensures var pair := RollTrades(u, active, entry, time);
            Consideration(pair[0].price, pair[0].side, pair[0].quantity)
            + Consideration(pair[1].price, pair[1].side, pair[1].quantity)
            == Product(RollRecord(u, active, entry, time).spread, u.Exposure() as real)
  {
    hide Setup.Quantity, Product, ActivePrice, NextPrice, Rolls;
    var record, q := RollRecord(u, active, entry, time), u.Exposure() as real;
    NegatedProduct(record.oldPrice, q);
    ProductSum(record.newPrice, record.oldPrice, record.spread, q);
  }

  lemma StepPaysSpread(u: Setup, first: real, times: seq<real>)
    requires u.contracts != [] && times != []
    ensures var earlier := times[..|times| - 1];
            PaidInAll(Trades(u, first, times)) == PaidInAll(Trades(u, first, earlier))
            + Product(Spreads(RollRecords(u, first, times)) - Spreads(RollRecords(u, first, earlier)),
                      u.Exposure() as real)
  {
    hide Setup.Quantity, Setup.Exposure, Consideration, Product, EntryPrice, ActivePrice, NextPrice, Rolls, NetQuantity;
    var earlier, entry, time := times[..|times| - 1], EntryPrice(u, first), times[|times| - 1];
    var active := Active(u, earlier);
    if Rolls(u, active, time) {
      var rolls, record := RollRecords(u, first, earlier), RollRecord(u, active, entry, time);
      assert (rolls + [record])[..|rolls|] == rolls;
      TwoFills(Trades(u, first, earlier), RollTrades(u, active, entry, time), "");
      RollPaysSpread(u, active, entry, time);
    } else {
      NegatedProduct(0.0, u.Exposure() as real);
      ProductSum(0.0, 0.0, 0.0, u.Exposure() as real);
    }
  }

  /** All the money paid is the exposure at the entry price moved by every roll spread. */
  lemma {:induction false} PaidIsBackAdjusted(u: Setup, first: real, times: seq<real>)
    requires u.contracts != []
    ensures PaidInAll(Trades(u, first, times))
            == Product(EntryPrice(u, first) + Spreads(RollRecords(u, first, times)), u.Exposure() as real)
  {
    hide Setup.Quantity, Setup.Exposure, Consideration, Product, EntryPrice;
    if times == [] {
      OneFill(Trades(u, first, times), "");
      EntryPays(u, first);
    } else {
      hide Trades, RollRecords, PaidInAll, Spreads;
      var earlier := times[..|times| - 1];
      PaidIsBackAdjusted(u, first, earlier);
      StepPaysSpread(u, first, times);
      var before, after := Spreads(RollRecords(u, first, earlier)), Spreads(RollRecords(u, first, times));
      ProductSum(EntryPrice(u, first) + after, EntryPrice(u, first) + before, after - before, u.Exposure() as real);
    }
  }

  /**
     The equity a step records at a price: capital less fees, and the exposure at the price less the entry and
     every recorded spread.
     */
  function BackAdjustedEquity(u: Setup, initialCash: real, first: real, times: seq<real>, price: real): real
    requires u.contracts != []
  {
    initialCash - Fees(Trades(u, first, times))
    + Product(price - EntryPrice(u, first) - Spreads(RollRecords(u, first, times)), u.Exposure() as real)
  }

  lemma EquityIsBackAdjusted(u: Setup, initialCash: real, first: real, times: seq<real>, price: real,
                             order: seq<string>, book: map<string, Holding>)
    requires u.contracts != [] && Keys(order, book) && Reconciled(book, Trades(u, first, times))
    requires var symbol := u.contracts[Active(u, times)].symbol;
             symbol in book && book[symbol].current == price
    ensures (initialCash - PaidInAll(Trades(u, first, times)) - Fees(Trades(u, first, times)))
            + Total(order, book, Value)
            == BackAdjustedEquity(u, initialCash, first, times, price)
  {
    hide Trades, Active, EntryPrice, RollRecords, Paid, Fees, Marked, Brought;
    var symbol, q := u.contracts[Active(u, times)].symbol, u.Exposure() as real;
    forall s | s in book && s != symbol ensures book[s].quantity == 0 {
      OnlyActiveIsHeld(u, first, times, s);
    }
    OnlyActiveIsHeld(u, first, times, symbol);
    assert forall i :: 0 <= i < |order| ==> order[i] in order;
    OnlyOneHasValue(order, book, symbol);
    PaidIsBackAdjusted(u, first, times);
    var paid := EntryPrice(u, first) + Spreads(RollRecords(u, first, times));
    ProductSum(price, paid, price - paid, q);
  }

  // ---------------------------------------------------------------- when a roll is free, and when it is not

  lemma EquityDiffers(u: Setup, cash: real, first: real, times: seq<real>, one: real, other: real)
    requires u.contracts != [] && u.Quantity() > 0
    ensures BackAdjustedEquity(u, cash, first, times, one)
            == BackAdjustedEquity(u, cash, first, times, other) + Product(one - other, u.Exposure() as real)
    ensures Product(one - other, u.Exposure() as real) == 0.0 <==> one == other
  {
    hide Setup.Quantity, Trades, Fees, RollRecords, EntryPrice;
    var paid, q := EntryPrice(u, first) + Spreads(RollRecords(u, first, times)), u.Exposure() as real;
    ProductSum(one - paid, other - paid, one - other, q);
    NonZeroProduct(one - other, q);
  }

  lemma NonZeroProduct(x: real, q: real)
    requires q != 0.0
    ensures Product(x, q) == 0.0 <==> x == 0.0
  {
  }

  /** A price of a contract at a time: its close when it has a bar then, and otherwise any price it may have had. */
  predicate Priced(u: Setup, contract: nat, time: real, own: real)
    requires contract < |u.contracts|
  {
    var bar := BarAt(u.series, u.contracts[contract].symbol, time);
    bar.Some? ==> own == bar.value.close
  }

  predicate HasBar(u: Setup, contract: nat, time: real)
    requires contract < |u.contracts|
  {
    BarAt(u.series, u.contracts[contract].symbol, time).Some?
  }

  /**
     What a step without a roll records is the true equity exactly when the contract has a bar, or stands at the
     entry price again.
     */
  lemma MarkIsTrueExactly(u: Setup, cash: real, first: real, times: seq<real>, time: real, own: real)
    requires u.contracts != [] && u.Quantity() > 0 && !Rolls(u, Active(u, times), time)
             && Priced(u, Active(u, times), time, own)
    ensures BackAdjustedEquity(u, cash, first, times + [time],
                               MarkPrice(u, Active(u, times), EntryPrice(u, first), time))
            == BackAdjustedEquity(u, cash, first, times + [time], own)
            <==> HasBar(u, Active(u, times), time) || own == EntryPrice(u, first)
  {
    hide Setup.Quantity, Rolls, BarAt, EntryPrice, BackAdjustedEquity;
    EquityDiffers(u, cash, first, times + [time], MarkPrice(u, Active(u, times), EntryPrice(u, first), time), own);
  }

  /**
     A roll costs its two fees and nothing else exactly when the outgoing contract has a bar, or stands at the
     entry price again.
     */
  lemma RollIsFreeExactly(u: Setup, cash: real, first: real, times: seq<real>, time: real, own: real)
    requires u.contracts != [] && u.Quantity() > 0 && Rolls(u, Active(u, times), time)
             && Priced(u, Active(u, times), time, own)
    ensures var active, entry := Active(u, times), EntryPrice(u, first);
            BackAdjustedEquity(u, cash, first, times + [time], MarkPrice(u, active, entry, time))
            == BackAdjustedEquity(u, cash, first, times, own) - RollRecord(u, active, entry, time).cost
            <==> HasBar(u, active, time) || own == entry
  {
    var active, entry := Active(u, times), EntryPrice(u, first);
    RollRecordsActivePrice(u, cash, first, times, time);
    hide Setup.Quantity, Rolls, BarAt, EntryPrice, BackAdjustedEquity, RollRecord;
    EquityDiffers(u, cash, first, times, ActivePrice(u, active, entry, time), own);
  }

  /** After a roll the books show the old position sold at the price assumed for the outgoing contract. */
  lemma RollRecordsActivePrice(u: Setup, cash: real, first: real, times: seq<real>, time: real)
    requires u.contracts != [] && Rolls(u, Active(u, times), time)
    ensures var active, entry := Active(u, times), EntryPrice(u, first);
            BackAdjustedEquity(u, cash, first, times + [time], MarkPrice(u, active, entry, time))
            == BackAdjustedEquity(u, cash, first, times, ActivePrice(u, active, entry, time))
                - RollRecord(u, active, entry, time).cost
  {
    hide Setup.Quantity, Setup.Exposure, Rolls, EntryPrice, ActivePrice, NextPrice, Product, Trades, RollRecords,
        Active;
    var active, entry := Active(u, times), EntryPrice(u, first);
    TimesSnoc(u, first, times, time);
    var rolls, record := RollRecords(u, first, times), RollRecord(u, active, entry, time);
    assert (rolls + [record])[..|rolls|] == rolls;
    TwoFills(Trades(u, first, times), RollTrades(u, active, entry, time), "");
  }

  /** The record of a first roll without a bar of the outgoing contract: the spread is taken from the entry price. */
  lemma FirstRecord(u: Setup, first: real, times: seq<real>, time: real)
    requires u.contracts != [] && Active(u, times) == 0 && Rolls(u, 0, time) && !HasBar(u, 0, time)
    ensures EntryPrice(u, first) + Spreads(RollRecords(u, first, times + [time]))
            == MarkPrice(u, 0, EntryPrice(u, first), time)
  {
    var entry := EntryPrice(u, first);
    RollsAreCounted(u, first, times);
    TimesSnoc(u, first, times, time);
    hide Setup.Quantity, Rolls, EntryPrice, BarAt, Trades, Active;
    assert RollRecords(u, first, times) == [];
    assert RollRecords(u, first, times + [time]) == [RollRecord(u, 0, entry, time)];
    assert [RollRecord(u, 0, entry, time)][..0] == [];
    hide RollRecords;
    assert Spreads([]) == 0.0 && Spreads([RollRecord(u, 0, entry, time)]) == NextPrice(u, 0, time) - entry;
  }

  /** Marked at the entry price moved by every recorded spread, the books show no profit at all. */
  lemma NothingGained(u: Setup, cash: real, first: real, times: seq<real>, price: real)
    requires u.contracts != [] && EntryPrice(u, first) + Spreads(RollRecords(u, first, times)) == price
    ensures BackAdjustedEquity(u, cash, first, times, price) == cash - Fees(Trades(u, first, times))
  {
    NoProduct(u.Exposure() as real);
    hide Setup.Exposure, EntryPrice, RollRecords, Spreads, Trades, Fees, Product;
    assert price - EntryPrice(u, first) - Spreads(RollRecords(u, first, times)) == 0.0;
  }

  /** A first roll without a bar of the outgoing contract wipes out all profit and loss so far: only the fees remain. */
  lemma FirstRollWithoutBarForgetsProfit(u: Setup, cash: real, first: real, times: seq<real>, time: real)
    requires u.contracts != [] && Active(u, times) == 0 && Rolls(u, 0, time) && !HasBar(u, 0, time)
    ensures BackAdjustedEquity(u, cash, first, times + [time], MarkPrice(u, 0, EntryPrice(u, first), time))
            == cash - Fees(Trades(u, first, times + [time]))
  {
    hide *;
    FirstRecord(u, first, times, time);
    NothingGained(u, cash, first, times + [time], MarkPrice(u, 0, EntryPrice(u, first), time));
  }

  lemma NoProduct(q: real)
    ensures Product(0.0, q) == 0.0
  {
  }

  /** Two contracts; the first has no bar on the day it is rolled. */
  function GappyRun(): Setup {
    Setup([Contract("A", 864000.0), Contract("B", 3456000.0)],
          [Series("A", [Bar(0.0, 100.0, 100.0), Bar(86400.0, 150.0, 150.0)]),
           Series("B", [Bar(86400.0, 152.0, 153.0), Bar(777600.0, 155.0, 160.0)])],
          Strategy(Buy, 1, 1, 1, 0.12), NO_FEES)
  }

  const NO_FEES: (Side, int, real, real) -> real := (side, quantity, price, time) => 0.0

  /**
     On the second day the position is worth 50 more than it cost; a week later the roll records the starting
     capital.
     */
  lemma ProfitVanishesAtARoll()
    ensures var u := GappyRun();
            && BackAdjustedEquity(u, 1000.0, 0.0, [0.0, 86400.0],
                                  MarkPrice(u, Active(u, [0.0]), EntryPrice(u, 0.0), 86400.0)) == 1050.0
            && BackAdjustedEquity(u, 1000.0, 0.0, [0.0, 86400.0, 777600.0],
                                  MarkPrice(u, Active(u, [0.0, 86400.0]), EntryPrice(u, 0.0), 777600.0)) == 1000.0
  {
    hide *;
    GappySchedule();
    SecondDayProfit();
    FirstRollWithoutBarForgetsProfit(GappyRun(), 1000.0, 0.0, [0.0, 86400.0], 777600.0);
    assert [0.0, 86400.0] + [777600.0] == [0.0, 86400.0, 777600.0];
    NothingCosts([0.0, 86400.0, 777600.0]);
  }

  lemma SecondDayProfit()
    ensures GappyRun().contracts != []
    ensures BackAdjustedEquity(GappyRun(), 1000.0, 0.0, [0.0, 86400.0], 150.0) == 1050.0
  {
    var u, times := GappyRun(), [0.0, 86400.0];
    GappySchedule();
    RollsAreCounted(u, 0.0, times);
    NothingCosts(times);
    assert u.Exposure() == 1 && Product(50.0, 1.0) == 50.0;
    hide GappyRun, BarAt, Rolls, Trades, RollRecords, Active, EntryPrice, Fees, Product, Setup.Exposure;
    assert RollRecords(u, 0.0, times) == [] && Spreads([]) == 0.0;
  }

  lemma GappySchedule()
    ensures var u := GappyRun();
            && u.contracts != []
            && Active(u, [0.0]) == 0 && Active(u, [0.0, 86400.0]) == 0 && EntryPrice(u, 0.0) == 100.0
            && !Rolls(u, 0, 86400.0) && MarkPrice(u, 0, 100.0, 86400.0) == 150.0
            && Rolls(u, 0, 777600.0) && !HasBar(u, 0, 777600.0)
  {
    var u := GappyRun();
    GappyBars();
    hide BarAt;
    assert [0.0][..0] == [] && [0.0, 86400.0][..1] == [0.0];
    assert DayOf(0.0) == 0 && DayOf(86400.0) == 1 && DayOf(777600.0) == 9 && DayOf(864000.0) == 10;
  }

  lemma {:induction false} NothingCosts(times: seq<real>)
    ensures Fees(Trades(GappyRun(), 0.0, times)) == 0.0
  {
    var u := GappyRun();
    FeesAreRecorded(u, 0.0, times);
    RollsCostNothing(times);
    hide Trades, RollRecords, EntryPrice;
  }

  lemma {:induction false} RollsCostNothing(times: seq<real>)
    ensures Costs(RollRecords(GappyRun(), 0.0, times)) == 0.0
  {
    hide BarAt, Rolls, EntryPrice, ActivePrice, NextPrice;
    if times != [] {
      var earlier := times[..|times| - 1];
      RollsCostNothing(earlier);
      var before := RollRecords(GappyRun(), 0.0, earlier);
      assert forall r: Roll :: (before + [r])[..|before|] == before;
    }
  }

  lemma GappyBars()
    ensures var s := GappyRun().series;
            && BarAt(s, "A", 0.0) == Some(Bar(0.0, 100.0, 100.0))
            && BarAt(s, "A", 86400.0) == Some(Bar(86400.0, 150.0, 150.0))
            && BarAt(s, "A", 777600.0) == None && BarAt(s, "B", 777600.0) == Some(Bar(777600.0, 155.0, 160.0))
            && BarAt(s, "B", 0.0) == None && BarAt(s, "B", 86400.0) == Some(Bar(86400.0, 152.0, 153.0))
  {
    var s := GappyRun().series;
    assert "A"[0] != "B"[0];
    assert s[..1] == [s[0]];
    assert s[0].bars[..1] == [s[0].bars[0]] && [s[0].bars[0]][..0] == [];
    assert BarIn([s[0].bars[0]], 777600.0) == None && BarIn(s[0].bars, 777600.0) == None;
    assert s[1].bars[..1] == [s[1].bars[0]] && [s[1].bars[0]][..0] == [];
    assert BarIn([s[1].bars[0]], 0.0) == None && BarIn([s[1].bars[0]], 86400.0) == Some(s[1].bars[0]);
  }

  // ---------------------------------------------------------------- the runner

  lemma TimesSnoc(u: Setup, first: real, times: seq<real>, time: real)
    requires u.contracts != []
    ensures var active := Active(u, times);
            && Active(u, times + [time]) == (if Rolls(u, active, time) then active + 1 else active)
            && Trades(u, first, times + [time])
               == Trades(u, first, times)
                  + (if Rolls(u, active, time) then RollTrades(u, active, EntryPrice(u, first), time) else [])
            && RollRecords(u, first, times + [time])
               == RollRecords(u, first, times)
                  + (if Rolls(u, active, time) then [RollRecord(u, active, EntryPrice(u, first), time)] else [])
  {
    hide Rolls, RollTrades, EntryPrice, RollRecord;
    assert (times + [time])[..|times|] == times;
  }

  /** Close the position in the active contract and open it in the next one. */
  method RollPosition(u: Setup, portfolio: Portfolio, active: nat, closePrice: real, openPrice: real, time: real)
    returns (pair: seq<Fill>, record: Roll)
    requires active + 1 < |u.contracts| && u.Quantity() > 0 && portfolio.Valid()
    modifies portfolio, portfolio.positions.Values
    ensures portfolio.Valid() && portfolio.fills == old(portfolio.fills) + pair
            && portfolio.curve == old(portfolio.curve)
    ensures pair == [ u.Trade(u.contracts[active].symbol, Opposite(u.strategy.side), closePrice, time),
                      u.Trade(u.contracts[active + 1].symbol, u.strategy.side, openPrice, time)]
    ensures record == Roll(time, u.contracts[active].symbol, u.contracts[active + 1].symbol, closePrice, openPrice,
                           openPrice - closePrice, pair[0].Cost() + pair[1].Cost())
    ensures u.contracts[active + 1].symbol in portfolio.positions
    ensures fresh(portfolio.positions.Values - old(portfolio.positions.Values))
  {
    hide Setup.Quantity, FilledBy, Portfolio.Valid, Portfolio.Book;
    var closing := u.Trade(u.contracts[active].symbol, Opposite(u.strategy.side), closePrice, time);
    portfolio.ApplyFill(closing);
    var opening := u.Trade(u.contracts[active + 1].symbol, u.strategy.side, openPrice, time);
    portfolio.ApplyFill(opening);
    pair := [closing, opening];
    record := Roll(time, u.contracts[active].symbol, u.contracts[active + 1].symbol, closePrice, openPrice,
                   openPrice - closePrice, closing.Cost() + opening.Cost());
  }

  /** Where a run stands between two time steps. */
  ghost predicate Underway(u: Setup, portfolio: Portfolio, first: real, times: seq<real>, active: nat)
    reads portfolio, portfolio.positions.Values
  {
    && u.contracts != [] && portfolio.Valid()
    && active == Active(u, times)
    && portfolio.fills == Trades(u, first, times)
    && u.contracts[active].symbol in portfolio.positions
  }

  /** One time step before marking: look up the price, roll if the active contract can be rolled. */
  method Advance(u: Setup, portfolio: Portfolio, first: real, ghost times: seq<real>, active: nat, entry: real,
                 time: real)
    returns (next: nat, price: real, rolled: seq<Roll>, traded: seq<Fill>)
    requires Underway(u, portfolio, first, times, active) && u.Quantity() > 0 && entry == EntryPrice(u, first)
    modifies portfolio, portfolio.positions.Values
    ensures Underway(u, portfolio, first, times + [time], next) && portfolio.curve == old(portfolio.curve)
    ensures price == MarkPrice(u, active, entry, time)
    ensures Trades(u, first, times + [time]) == Trades(u, first, times) + traded
    ensures RollRecords(u, first, times + [time]) == RollRecords(u, first, times) + rolled
    ensures fresh(portfolio.positions.Values - old(portfolio.positions.Values))
  {
    hide Trades, RollRecords, Active, Setup.Quantity, DayOf, BarAt, Portfolio.Valid;
    TimesSnoc(u, first, times, time);
    next, rolled, traded := active, [], [];
    var bar := BarAt(u.series, u.contracts[active].symbol, time);
    price := if bar.Some? then bar.value.close else entry;
    if DayOf(time) >= DayOf(u.contracts[active].expiry) - u.strategy.rollDays && active + 1 < |u.contracts| {
      var nextBar := BarAt(u.series, u.contracts[active + 1].symbol, time);
      if nextBar.Some? {
        var openPrice := nextBar.value.close;
        var pair, record := RollPosition(u, portfolio, active, price, openPrice, time);
        rolled, traded := [record], pair;
        next, price := active + 1, openPrice;
      }
    }
  }

  /** Mark the active contract and record the equity. */
  method MarkStep(u: Setup, portfolio: Portfolio, ghost first: real, ghost times: seq<real>, active: nat, price: real,
                  time: real)
    requires Underway(u, portfolio, first, times, active)
    modifies portfolio, portfolio.positions.Values
    ensures Underway(u, portfolio, first, times, active) && portfolio.positions == old(portfolio.positions)
    ensures |portfolio.curve| == |old(portfolio.curve)| + 1
            && portfolio.curve[..|old(portfolio.curve)|] == old(portfolio.curve)
    ensures var point := portfolio.curve[|old(portfolio.curve)|];
            point.time == time && point.equity == BackAdjustedEquity(u, portfolio.initialCash, first, times, price)
  {
    hide Trades, Active, Setup.Quantity, PaidInAll, Fees, Keys, Reconciled, BackAdjustedEquity, Total;
    ghost var before := portfolio.Book();
    var symbol := u.contracts[active].symbol;
    var marks := [Mark(symbol, price)];
    assert LatestPrice(marks, symbol, before[symbol].current) == price;
    var equity := portfolio.MarkToMarket(marks, time);
    EquityIsBackAdjusted(u, portfolio.initialCash, first, times, price, portfolio.order, portfolio.Book());
  }

  datatype Config = Config(strategy: Strategy, start: real, end: real, initialCash: real)

  /** The margin a step requires. */
  function MarginAt(u: Setup, price: real): real {
    u.Quantity() as real * price * u.strategy.marginRate
  }

  /** At a price that is not negative it is the strategy's share of the position's market value, long or short. */
  lemma MarginIsShareOfValue(u: Setup, price: real)
    requires price >= 0.0
    ensures MarginAt(u, price) == Abs(u.Exposure() as real * price) * u.strategy.marginRate
  {
    var q := (u.strategy.lotSize * u.strategy.lots) as real;
    assert u.strategy.lotSize * u.strategy.lots >= 0;
    MulMono(0.0, q, price);
    assert (-q) * price == -(q * price);
  }

  /** The price path of a run: what step k is marked at. */
  function PriceAt(u: Setup, times: seq<real>, k: nat): real
    requires u.contracts != [] && k < |times|
  {
    MarkPrice(u, Active(u, times[..k]), EntryPrice(u, times[0]), times[k])
  }

  method Run(config: Config, contracts: seq<Contract>, series: seq<Series>, fee: (Side, int, real, real) -> real)
    returns (result: Result)
    requires config.strategy.lotSize >= 1 && config.strategy.lots >= 1
    ensures var u := Setup(ByExpiry(contracts), series, config.strategy, fee);
            var times := SortedDistinct.Sort(TimesOf(series, config.start, config.end));
            if contracts == [] || series == [] || times == [] then result == Result([], [], [], [])
            else
              && result.trades == Trades(u, times[0], times)
              && result.rolls == RollRecords(u, times[0], times)
              && |result.margins| == |result.curve| == |times|
              && forall k :: 0 <= k < |times| ==>
                   && result.margins[k] == MarginAt(u, PriceAt(u, times, k))
                   && result.curve[k].time == times[k]
                   && result.curve[k].equity
                      == BackAdjustedEquity(u, config.initialCash, times[0], times[..k + 1], PriceAt(u, times, k))
  {
    var u := Setup(ByExpiry(contracts), series, config.strategy, fee);
    var times := SortedDistinct.Sort(TimesOf(series, config.start, config.end));
    if contracts == [] || series == [] || times == [] {
      return Result([], [], [], []);
    }
    result := RunSteps(u, config.initialCash, times);
  }

  method Enter(u: Setup, portfolio: Portfolio, first: real) returns (entry: real, fill: Fill)
    requires u.contracts != [] && u.Quantity() > 0 && portfolio.Valid() && portfolio.fills == []
    modifies portfolio, portfolio.positions.Values
    ensures entry == EntryPrice(u, first) && Trades(u, first, []) == [fill] && RollRecords(u, first, []) == []
    ensures Underway(u, portfolio, first, [], 0) && portfolio.curve == old(portfolio.curve)
    ensures fresh(portfolio.positions.Values - old(portfolio.positions.Values))
  {
    hide Setup.Quantity, Portfolio.Valid, FilledBy;
    var bar := BarAt(u.series, u.contracts[0].symbol, first);
    entry := if bar.Some? then bar.value.open else 100.0;
    fill := u.Trade(u.contracts[0].symbol, u.strategy.side, entry, first);
    portfolio.ApplyFill(fill);
  }

  method RunSteps(u: Setup, initialCash: real, times: seq<real>) returns (result: Result)
    requires u.contracts != [] && times != [] && u.strategy.lotSize >= 1 && u.strategy.lots >= 1
    ensures result.trades == Trades(u, times[0], times)
    ensures result.rolls == RollRecords(u, times[0], times)
    ensures |result.margins| == |result.curve| == |times|
    ensures forall k :: 0 <= k < |times| ==>
              && result.margins[k] == MarginAt(u, PriceAt(u, times, k))
              && result.curve[k].time == times[k]
              && result.curve[k].equity
                 == BackAdjustedEquity(u, initialCash, times[0], times[..k + 1], PriceAt(u, times, k))
  {
    hide Trades, RollRecords, Active, MarginAt, BackAdjustedEquity, Portfolio.Valid;
    var portfolio := new Portfolio(initialCash);
    var first := times[0];
    assert u.Quantity() > 0;
    hide Setup.Quantity;
    var entry, fill := Enter(u, portfolio, first);
    var active, trades, rolls, margins := 0, [fill], [], [];
    for k := 0 to |times|
      invariant fresh(portfolio) && fresh(portfolio.positions.Values)
      invariant Underway(u, portfolio, first, times[..k], active)
      invariant trades == Trades(u, first, times[..k]) && rolls == RollRecords(u, first, times[..k])
      invariant |margins| == |portfolio.curve| == k
      invariant forall i :: 0 <= i < k ==>
                  && margins[i] == MarginAt(u, PriceAt(u, times, i))
                  && portfolio.curve[i].time == times[i]
                  && portfolio.curve[i].equity
                     == BackAdjustedEquity(u, initialCash, first, times[..i + 1], PriceAt(u, times, i))
    {
      assert times[..k + 1] == times[..k] + [times[k]];
      var price, rolled, traded;
      ghost var before := active;
      active, price, rolled, traded := Advance(u, portfolio, first, times[..k], active, entry, times[k]);
      rolls, trades := rolls + rolled, trades + traded;
      MarkStep(u, portfolio, first, times[..k + 1], active, price, times[k]);
      margins := margins + [MarginAt(u, price)];
    }
    assert times[..|times|] == times;
    result := Result(rolls, margins, trades, portfolio.curve);
  }
}

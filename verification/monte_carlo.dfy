/**
 Monte Carlo resampling of trade results (backend/app/backtest/monte_carlo.py).  The random generator is an input:
 any permutation for a shuffle, any stream of draws in range for the bootstraps.
 */
module MonteCarlo {
  import opened Common
  import opened Drawdown
  import PortfolioAccounting
  import StableSort

  // ---------------------------------------------------------------- percentiles

  function Interpolate(low: real, high: real, d: real): real {
    low + d * (high - low)
  }

  lemma InterpolateBetween(low: real, high: real, d: real)
    requires low <= high && 0.0 <= d <= 1.0
    ensures low <= Interpolate(low, high, d) <= high
  {
    MulMono(0.0, d, high - low);
    MulMono(d, 1.0, high - low);
  }

  lemma InterpolateMonotone(low: real, high: real, d1: real, d2: real)
    requires low <= high && d1 <= d2
    ensures Interpolate(low, high, d1) <= Interpolate(low, high, d2)
  {
    MulMono(d1, d2, high - low);
  }

  /** The real-valued rank of a percentile among n values. */
  function RankOf(n: nat, p: real): (k: real)
    requires n >= 1 && 0.0 <= p <= 1.0
    ensures 0.0 <= k <= (n - 1) as real
  {
    ShareOf((n - 1) as real, p);
    Fraction((n - 1) as real, p)
  }

  function Fraction(whole: real, p: real): real {
    whole * p
  }

  lemma ShareOf(whole: real, p: real)
    requires whole >= 0.0 && 0.0 <= p <= 1.0
    ensures 0.0 <= whole * p <= whole
  {
    MulMono(0.0, p, whole);
    MulMono(p, 1.0, whole);
  }

  function Next(f: nat, n: nat): nat
    requires f < n
  {
    if f + 1 <= n - 1 then f + 1 else n - 1
  }

  /** The value at a real-valued rank, interpolated between its two neighbours. */
  function AtRank(values: seq<real>, k: real): real
    requires 0.0 <= k <= (|values| - 1) as real
  {
    var f := k.Floor;
    Interpolate(values[f], values[Next(f, |values|)], k - f as real)
  }

  function Percentile(values: seq<real>, p: real): real
    requires 0.0 <= p <= 1.0
  {
    if values == [] then 0.0
    else if |values| == 1 then values[0]
    else AtRank(values, RankOf(|values|, p))
  }

  lemma AtRankBetween(values: seq<real>, k: real)
    requires 0.0 <= k <= (|values| - 1) as real && Sorted(values)
    ensures values[k.Floor] <= AtRank(values, k) <= values[Next(k.Floor, |values|)]
  {
    InterpolateBetween(values[k.Floor], values[Next(k.Floor, |values|)], k - k.Floor as real);
  }

  lemma AtRankMonotone(values: seq<real>, k1: real, k2: real)
    requires 0.0 <= k1 <= k2 <= (|values| - 1) as real && Sorted(values)
    ensures AtRank(values, k1) <= AtRank(values, k2)
  {
    hide Interpolate;
    var f1, f2 := k1.Floor, k2.Floor;
    if f1 == f2 {
      InterpolateMonotone(values[f1], values[Next(f1, |values|)], k1 - f1 as real, k2 - f1 as real);
    } else {
      AtRankBetween(values, k1);
      AtRankBetween(values, k2);
      assert values[Next(f1, |values|)] <= values[f2];
    }
  }

  /** Percentiles of a sorted sample never fall as the rank rises, and stay between the least and the largest value. */
  lemma PercentileMonotone(values: seq<real>, p: real, q: real)
    requires Sorted(values) && values != [] && 0.0 <= p <= q <= 1.0
    ensures values[0] <= Percentile(values, p) <= Percentile(values, q) <= values[|values| - 1]
  {
    hide AtRank;
    if |values| >= 2 {
      RankMonotone(|values|, p, q);
      hide RankOf;
      AtRankMonotone(values, RankOf(|values|, p), RankOf(|values|, q));
      AtRankBetween(values, RankOf(|values|, p));
      AtRankBetween(values, RankOf(|values|, q));
    }
  }

  lemma RankMonotone(n: nat, p: real, q: real)
    requires n >= 1 && 0.0 <= p <= q <= 1.0
    ensures RankOf(n, p) <= RankOf(n, q)
  {
    hide Fraction;
    FractionMonotone((n - 1) as real, p, q);
  }

  lemma FractionMonotone(whole: real, p: real, q: real)
    requires whole >= 0.0 && p <= q
    ensures Fraction(whole, p) <= Fraction(whole, q)
  {
    MulMono(p, q, whole);
  }

  /** The percentile at k/(n-1) is the value of rank k itself. */
  lemma PercentileAtRank(values: seq<real>, k: nat)
    requires |values| >= 2 && k < |values|
    ensures 0.0 <= k as real / (|values| - 1) as real <= 1.0
    ensures Percentile(values, k as real / (|values| - 1) as real) == values[k]
  {
    hide AtRank, RankOf;
    RankOfShare(|values|, k);
    AtWholeRank(values, k);
  }

  lemma RankOfShare(n: nat, k: nat)
    requires n >= 2 && k < n
    ensures 0.0 <= k as real / (n - 1) as real <= 1.0
    ensures RankOf(n, k as real / (n - 1) as real) == k as real
  {
    DivMono(0.0, k as real, (n - 1) as real);
    DivMono(k as real, (n - 1) as real, (n - 1) as real);
    DivAtLeast(k as real, 0.0, (n - 1) as real);
  }

  lemma AtWholeRank(values: seq<real>, k: nat)
    requires k < |values|
    ensures AtRank(values, k as real) == values[k]
  {
    InterpolateAtZero(values[k], values[Next(k, |values|)]);
  }

  lemma InterpolateAtZero(low: real, high: real)
    ensures Interpolate(low, high, 0.0) == low
  {
  }

  /** Between ranks the percentile is linear: on evenly spaced values it is exactly proportional to the rank. */
  lemma PercentileOfEvenSpacing(values: seq<real>, first: real, step: real, p: real)
    requires |values| >= 2 && 0.0 <= p <= 1.0
    requires forall k :: 0 <= k < |values| ==> values[k] == first + Product(k as real, step)
    ensures Percentile(values, p) == first + Product(RankOf(|values|, p), step)
  {
    hide RankOf;
    var k := RankOf(|values|, p);
    var f := k.Floor;
    EvenStep(first, step, f as real, Next(f, |values|) as real, k);
  }

  lemma EvenStep(first: real, step: real, f: real, next: real, k: real)
    requires next == f + 1.0 || k == f
    ensures Interpolate(first + Product(f, step), first + Product(next, step), k - f) == first + Product(k, step)
  {
    ProductSum(next, f, next - f, step);
    ProductSum(k, f, k - f, step);
  }

  // ---------------------------------------------------------------- summaries

  const ITSELF: real -> real := x => x

  /** The sample in ascending order. */
  function Ordered(values: seq<real>): (s: seq<real>) {
    StableSort.Sort(values, ITSELF)
  }

  /** A sorted arrangement of the same values. */
  lemma OrderedIsSorted(values: seq<real>)
    ensures Sorted(Ordered(values)) && multiset(Ordered(values)) == multiset(values)
  {
    StableSort.SortSorts(values, ITSELF);
    var s := Ordered(values);
    forall i, j | 0 <= i < j < |s| ensures s[i] <= s[j] {
      assert ITSELF(s[i]) <= ITSELF(s[j]);
    }
  }

  datatype Summary = Summary(p5: real, p25: real, p50: real, p75: real, p95: real, p99: real)

  function Summarize(values: seq<real>): Summary {
    var s := Ordered(values);
    Summary(Percentile(s, 0.05), Percentile(s, 0.25), Percentile(s, 0.5),
            Percentile(s, 0.75), Percentile(s, 0.95), Percentile(s, 0.99))
  }

  /** The six figures are in order, and lie between any bounds on the sample. */
  lemma SummaryIsOrdered(values: seq<real>, low: real, high: real)
    requires values != [] && forall x :: x in values ==> low <= x <= high
    ensures var s := Summarize(values);
            low <= s.p5 <= s.p25 <= s.p50 <= s.p75 <= s.p95 <= s.p99 <= high
  {
    hide Percentile, Ordered;
    var s := Ordered(values);
    OrderedIsSorted(values);
    assert |multiset(s)| == |multiset(values)|;
    assert s[0] in multiset(s) && s[|s| - 1] in multiset(s);
    assert s[0] in values && s[|s| - 1] in values;
    PercentileMonotone(s, 0.05, 0.25);
    PercentileMonotone(s, 0.25, 0.5);
    PercentileMonotone(s, 0.5, 0.75);
    PercentileMonotone(s, 0.75, 0.95);
    PercentileMonotone(s, 0.95, 0.99);
  }

  /** Values in order are already sorted. */
  lemma {:induction false} OrderedStays(values: seq<real>)
    requires Sorted(values)
    ensures Ordered(values) == values
  {
    if values != [] {
      var init, last := values[..|values| - 1], values[|values| - 1];
      OrderedStays(init);
      assert init == [] || ITSELF(init[|init| - 1]) <= ITSELF(last);
      assert init + [last] == values;
    }
  }

  /** The summary of a hundred and one evenly spaced values is the 5th, 25th, 50th, 75th, 95th and 99th of them. */
  lemma SummaryOfEvenSpacing(values: seq<real>, first: real, step: real)
    requires |values| == 101 && step >= 0.0
    requires forall k :: 0 <= k < |values| ==> values[k] == first + Product(k as real, step)
    ensures Summarize(values) == Summary(values[5], values[25], values[50], values[75], values[95], values[99])
  {
    forall i, j | 0 <= i < j < |values| ensures values[i] <= values[j] {
      ProductMonoLeft(i as real, j as real, step);
    }
    OrderedStays(values);
    hide Ordered, Percentile, Product;
    AtHundredth(values, 5);
    AtHundredth(values, 25);
    AtHundredth(values, 50);
    AtHundredth(values, 75);
    AtHundredth(values, 95);
    AtHundredth(values, 99);
  }

  lemma AtHundredth(values: seq<real>, k: nat)
    requires |values| == 101 && k <= 100
    ensures 0.0 <= k as real / 100.0 <= 1.0 && Percentile(values, k as real / 100.0) == values[k]
  {
    assert (|values| - 1) as real == 100.0;
    PercentileAtRank(values, k);
    hide Percentile;
  }

  // ---------------------------------------------------------------- the profits of the trades

  type Fill = PortfolioAccounting.Fill

  /** The trades given: fills in pairs of entry and exit, or their profits. */
  datatype TradeList = Fills(fills: seq<Fill>) | Amounts(amounts: seq<real>)

  /**
     The profit of a pair, for the quantity of the entry and before slippage; anything but a buy and a sell is
     read as a short trade.
     */
  function PairProfit(entry: Fill, exit: Fill): real {
    (if entry.side.Buy? && exit.side.Sell? then (exit.price - entry.price) * entry.quantity as real
     else (entry.price - exit.price) * entry.quantity as real)
    - entry.fees - exit.fees
  }

  /** The profits of consecutive pairs; a last fill without a partner is ignored. */
  function PairProfits(fills: seq<Fill>): seq<real> {
    if |fills| < 2 then [] else [PairProfit(fills[0], fills[1])] + PairProfits(fills[2..])
  }

  function Profits(trades: TradeList): seq<real> {
    match trades
    case Fills(fills) => PairProfits(fills)
    case Amounts(amounts) => amounts
  }

  /** What a pair gained on the entry's quantity if it was bought and then sold, and otherwise what it lost. */
  lemma PairGains(entry: Fill, exit: Fill)
    ensures var gain := (exit.price - entry.price) * entry.quantity as real;
            PairProfit(entry, exit)
            == (if entry.side == PortfolioAccounting.Buy && exit.side == PortfolioAccounting.Sell then gain else -gain)
               - entry.fees - exit.fees
  {
    var q := entry.quantity as real;
    assert (entry.price - exit.price) * q == -((exit.price - entry.price) * q);
  }

  /** The i-th profit is that of fills 2i and 2i + 1; a last fill without a partner has none. */
  lemma {:induction false} PairsExactly(fills: seq<Fill>, i: nat)
    requires 2 * i + 1 < |fills|
    ensures |PairProfits(fills)| == |fills| / 2
    ensures PairProfits(fills)[i] == PairProfit(fills[2 * i], fills[2 * i + 1])
  {
    hide PairProfit;
    PairsAreCounted(fills);
    if i > 0 {
      PairsExactly(fills[2..], i - 1);
      assert fills[2..][2 * (i - 1)] == fills[2 * i] && fills[2..][2 * (i - 1) + 1] == fills[2 * i + 1];
    }
  }

  lemma {:induction false} PairsAreCounted(fills: seq<Fill>)
    ensures |PairProfits(fills)| == |fills| / 2
  {
    hide PairProfit;
    if |fills| >= 2 { PairsAreCounted(fills[2..]); }
  }

  method TradeProfits(trades: TradeList) returns (pnls: seq<real>)
    ensures pnls == Profits(trades)
  {
    match trades {
      case Amounts(amounts) => pnls := amounts;
      case Fills(fills) =>
        pnls := [];
        var i := 0;
        while i < |fills| - 1
          invariant 0 <= i <= |fills|
          invariant pnls + PairProfits(fills[i..]) == PairProfits(fills)
        {
          assert fills[i..][2..] == fills[i + 2..];
          pnls := pnls + [PairProfit(fills[i], fills[i + 1])];
          i := i + 2;
        }
    }
  }

  /** Each pair opens and closes the same quantity. */
  ghost predicate RoundTrips(fills: seq<Fill>) {
    fills == [] || (|fills| >= 2 && fills[0].side != fills[1].side && fills[0].quantity == fills[1].quantity
                    && RoundTrips(fills[2..]))
  }

  function Slippages(fills: seq<Fill>): real {
    if fills == [] then 0.0 else fills[0].slippage + Slippages(fills[1..])
  }

  /** The money a fill brings in, all costs paid. */
  function Receipt(f: Fill): real {
    -PortfolioAccounting.Consideration(f.price, f.side, f.quantity) - f.Cost()
  }

  function Receipts(fills: seq<Fill>): real {
    if fills == [] then 0.0 else Receipt(fills[0]) + Receipts(fills[1..])
  }

  lemma PairProfitIsReceipts(entry: Fill, exit: Fill)
    requires entry.side != exit.side && entry.quantity == exit.quantity
    ensures PairProfit(entry, exit) == Receipt(entry) + Receipt(exit) + entry.slippage + exit.slippage
  {
    var q := entry.quantity as real;
    PortfolioAccounting.NegatedProduct(entry.price, q);
    PortfolioAccounting.NegatedProduct(exit.price, q);
    PortfolioAccounting.ProfitIsDifference(q, exit.price, entry.price);
    PortfolioAccounting.ProfitIsDifference(q, entry.price, exit.price);
  }

  lemma {:induction false} SumHead(s: seq<real>)
    requires s != []
    ensures Sum(s) == s[0] + Sum(s[1..])
  {
    if |s| > 1 {
      SumHead(s[..|s| - 1]);
      assert s[1..][..|s| - 2] == s[..|s| - 1][1..];
    } else {
      assert s[..0] == [] && s[1..] == [];
    }
  }

  /** For round trips the profits add up to the money the fills brought in, before slippage. */
  lemma {:induction false} RoundTripsAddUp(fills: seq<Fill>)
    requires RoundTrips(fills)
    ensures Sum(PairProfits(fills)) == Receipts(fills) + Slippages(fills)
  {
    hide Sum, PairProfit, Receipt;
    if fills == [] {
      NothingSums();
    } else {
      var rest := fills[2..];
      RoundTripsAddUp(rest);
      PairProfitIsReceipts(fills[0], fills[1]);
      SumHead(PairProfits(fills));
      assert fills[1..][1..] == rest;
    }
  }

  lemma NothingSums()
    ensures Sum([]) == 0.0
  {
  }

  // ---------------------------------------------------------------- resampling

  /** How a path is drawn: `draw(iteration, k)` is the k-th number taken from the generator. */
  datatype Resampling =
    | TradeShuffle(shuffled: nat -> seq<real>)
    | Bootstrap(draw: (nat, nat) -> nat)
    | BlockBootstrap(draw: (nat, nat) -> nat, blockSize: nat)

  function BlockLength(blockSize: nat, n: nat): (size: nat)
    ensures size <= blockSize && size <= n && (size == blockSize || size == n)
  {
    if blockSize <= n then blockSize else n
  }

  /** What the generator promises for a list of n trades. */
  ghost predicate Legal(r: Resampling, pnls: seq<real>) {
    match r
    case TradeShuffle(shuffled) => forall it: nat :: multiset(shuffled(it)) == multiset(pnls)
    case Bootstrap(draw) => forall it: nat, k: nat :: draw(it, k) < |pnls|
    case BlockBootstrap(draw, blockSize) =>
      blockSize >= 1 && forall it: nat, k: nat :: draw(it, k) <= |pnls| - BlockLength(blockSize, |pnls|)
  }

  /** The first `count` blocks, end to end. */
  function Blocks(r: Resampling, pnls: seq<real>, it: nat, count: nat): seq<real>
    requires r.BlockBootstrap? && Legal(r, pnls)
  {
    if count == 0 then []
    else
      var start := r.draw(it, count - 1);
      Blocks(r, pnls, it, count - 1) + pnls[start..start + BlockLength(r.blockSize, |pnls|)]
  }

  lemma {:induction false} BlocksGrow(r: Resampling, pnls: seq<real>, it: nat, count: nat, more: nat)
    requires r.BlockBootstrap? && Legal(r, pnls) && count <= more
    ensures Blocks(r, pnls, it, count) <= Blocks(r, pnls, it, more)
    ensures pnls != [] ==> |Blocks(r, pnls, it, more)| >= |Blocks(r, pnls, it, count)| + (more - count)
    decreases more - count
  {
    if count < more { BlocksGrow(r, pnls, it, count, more - 1); }
  }

  /** The trades of one iteration. */
  function Sampled(r: Resampling, pnls: seq<real>, it: nat): (s: seq<real>)
    requires Legal(r, pnls)
    ensures |s| == |pnls|
  {
    match r
    case TradeShuffle(shuffled) =>
      assert |multiset(shuffled(it))| == |multiset(pnls)|;
      shuffled(it)
    case Bootstrap(draw) =>
      seq(|pnls|, k requires 0 <= k < |pnls| => pnls[draw(it, k)])
    case BlockBootstrap(draw, blockSize) =>
      BlocksGrow(r, pnls, it, 0, |pnls|);
      Blocks(r, pnls, it, |pnls|)[..|pnls|]
  }

  method Resample(r: Resampling, pnls: seq<real>, it: nat) returns (sampled: seq<real>)
    requires Legal(r, pnls) && pnls != []
    ensures sampled == Sampled(r, pnls, it)
  {
    match r {
      case TradeShuffle(shuffled) =>
        sampled := shuffled(it);
      case Bootstrap(draw) =>
        sampled := [];
        for k := 0 to |pnls|
          invariant |sampled| == k && forall i :: 0 <= i < k ==> sampled[i] == pnls[draw(it, i)]
        {
          sampled := sampled + [pnls[draw(it, k)]];
        }
      case BlockBootstrap(draw, blockSize) =>
        sampled := DrawBlocks(r, pnls, it);
        sampled := sampled[..|pnls|];
    }
  }

  /** Whole blocks of consecutive trades until there are enough. */
  method DrawBlocks(r: Resampling, pnls: seq<real>, it: nat) returns (sampled: seq<real>)
    requires r.BlockBootstrap? && Legal(r, pnls) && pnls != []
    ensures |sampled| >= |pnls| && sampled[..|pnls|] == Sampled(r, pnls, it)
  {
    sampled := [];
    var k := 0;
    while |sampled| < |pnls|
      invariant sampled == Blocks(r, pnls, it, k) && k <= |sampled| && k <= |pnls|
      decreases |pnls| - k
    {
      var start := r.draw(it, k);
      sampled := sampled + pnls[start..start + BlockLength(r.blockSize, |pnls|)];
      k := k + 1;
    }
    BlocksGrow(r, pnls, it, k, |pnls|);
  }

  /** Trade k of a block bootstrap is in block k / L, at place k % L after the start that was drawn for the block. */
  lemma {:induction false} BlocksAreConsecutive(r: Resampling, pnls: seq<real>, it: nat, count: nat)
    requires r.BlockBootstrap? && Legal(r, pnls) && pnls != []
    ensures var size, blocks := BlockLength(r.blockSize, |pnls|), Blocks(r, pnls, it, count);
            && |blocks| == count * size
            && forall b: nat, o: nat :: b < count && o < size ==>
                                          && PlaceOf(b, o, size) < |blocks|
                                          && blocks[PlaceOf(b, o, size)] == pnls[r.draw(it, b) + o]
  {
    var size, blocks := BlockLength(r.blockSize, |pnls|), Blocks(r, pnls, it, count);
    if count > 0 {
      BlocksAreConsecutive(r, pnls, it, count - 1);
      var before := Blocks(r, pnls, it, count - 1);
      assert count * size == (count - 1) * size + size;
      forall b: nat, o: nat | b < count && o < size
        ensures PlaceOf(b, o, size) < |blocks| && blocks[PlaceOf(b, o, size)] == pnls[r.draw(it, b) + o]
      {
        BeforeEnd(b, o, size, count - 1);
        if b < count - 1 { assert blocks[PlaceOf(b, o, size)] == before[PlaceOf(b, o, size)]; }
      }
    }
  }

  function PlaceOf(block: nat, offset: nat, size: nat): nat {
    block * size + offset
  }

  lemma BeforeEnd(b: nat, o: nat, size: nat, last: nat)
    requires b <= last && o < size
    ensures b < last ==> PlaceOf(b, o, size) < last * size
    ensures b == last ==> PlaceOf(b, o, size) == last * size + o
  {
    if b < last { BlockEndsBefore(b, size, last); }
  }

  lemma {:induction false} BlockEndsBefore(b: nat, size: nat, last: nat)
    requires b < last
    ensures b * size + size <= last * size
  {
    if b < last - 1 { BlockEndsBefore(b, size, last - 1); }
    assert last * size == (last - 1) * size + size;
  }

  /** Which block the k-th trade of a path is in: how many whole blocks come before it. */
  function BlockOf(k: nat, size: nat): nat
    requires size >= 1
  {
    if k < size then 0 else 1 + BlockOf(k - size, size)
  }

  /** Its place there. */
  function OffsetOf(k: nat, size: nat): nat
    requires size >= 1
  {
    if k < size then k else OffsetOf(k - size, size)
  }

  lemma {:induction false} BlockAndOffset(k: nat, size: nat)
    requires size >= 1
    ensures BlockOf(k, size) <= k && OffsetOf(k, size) < size && PlaceOf(BlockOf(k, size), OffsetOf(k, size), size) == k
  {
    if k >= size {
      BlockAndOffset(k - size, size);
      NextBlock(BlockOf(k - size, size), OffsetOf(k - size, size), size);
    }
  }

  lemma NextBlock(block: nat, offset: nat, size: nat)
    ensures PlaceOf(1 + block, offset, size) == PlaceOf(block, offset, size) + size
  {
  }

  /** What each method takes from the trades, number by number drawn. */
  lemma SampledExactly(r: Resampling, pnls: seq<real>, it: nat, k: nat)
    requires Legal(r, pnls) && k < |pnls|
    ensures r.TradeShuffle? ==> Sampled(r, pnls, it) == r.shuffled(it)
    ensures r.Bootstrap? ==> Sampled(r, pnls, it)[k] == pnls[r.draw(it, k)]
    ensures r.BlockBootstrap? ==>
              var size := if r.blockSize <= |pnls| then r.blockSize else |pnls|;
              var at := r.draw(it, BlockOf(k, size)) + OffsetOf(k, size);
              at < |pnls| && Sampled(r, pnls, it)[k] == pnls[at]
  {
    if r.BlockBootstrap? {
      hide BlockOf, OffsetOf, PlaceOf, Blocks;
      var size := BlockLength(r.blockSize, |pnls|);
      BlocksAreConsecutive(r, pnls, it, |pnls|);
      BlocksGrow(r, pnls, it, 0, |pnls|);
      BlockAndOffset(k, size);
      assert BlockOf(k, size) < |pnls| && OffsetOf(k, size) < size;
    }
  }

  // ---------------------------------------------------------------- the simulation

  function PathOf(r: Resampling, pnls: seq<real>, initialCapital: real, it: nat): seq<real>
    requires Legal(r, pnls)
  {
    Curve(initialCapital, Sampled(r, pnls, it))
  }

  function TerminalOf(r: Resampling, pnls: seq<real>, initialCapital: real, it: nat): real
    requires Legal(r, pnls)
  {
    hide Legal;
    initialCapital + Sum(Sampled(r, pnls, it))
  }

  function Terminals(r: Resampling, pnls: seq<real>, initialCapital: real, iterations: nat): (s: seq<real>)
    requires Legal(r, pnls)
    ensures |s| == iterations
    ensures forall it :: 0 <= it < iterations ==> s[it] == TerminalOf(r, pnls, initialCapital, it)
  {
    hide *;
    if iterations == 0 then []
    else Terminals(r, pnls, initialCapital, iterations - 1) + [TerminalOf(r, pnls, initialCapital, iterations - 1)]
  }

  function DrawdownOf(r: Resampling, pnls: seq<real>, initialCapital: real, it: nat): real
    requires Legal(r, pnls)
  {
    hide Legal;
    LargestPercent(PathOf(r, pnls, initialCapital, it))
  }

  function Drawdowns(r: Resampling, pnls: seq<real>, initialCapital: real, iterations: nat): (s: seq<real>)
    requires Legal(r, pnls)
    ensures |s| == iterations
    ensures forall it :: 0 <= it < iterations ==> s[it] == DrawdownOf(r, pnls, initialCapital, it)
  {
    hide *;
    if iterations == 0 then []
    else
      Drawdowns(r, pnls, initialCapital, iterations - 1) + [DrawdownOf(r, pnls, initialCapital, iterations - 1)]
  }

  /** The iterations that ran into ruin. */
  ghost function RuinedRuns(r: Resampling, pnls: seq<real>, initialCapital: real, level: real,
                            iterations: nat): set<int>
    requires Legal(r, pnls)
  {
    set it | 0 <= it < iterations && Ruined(PathOf(r, pnls, initialCapital, it), level)
  }

  datatype Result = Result(terminal: Summary, drawdown: Summary, riskOfRuin: real, samplePaths: seq<seq<real>>)

  function Flat(x: real): Summary {
    Summary(x, x, x, x, x, x)
  }

  /** What the simulation of a list of trade profits returns. */
  ghost predicate Simulated(result: Result, pnls: seq<real>, initialCapital: real, r: Resampling,
                            iterations: nat, ruinThreshold: real, samples: nat)
    requires iterations > 0 && (pnls != [] ==> Legal(r, pnls))
  {
    if pnls == [] then result == Result(Flat(initialCapital), Flat(0.0), 0.0, [[initialCapital]])
    else
      var level := initialCapital * (1.0 - ruinThreshold);
      && result.terminal == Summarize(Terminals(r, pnls, initialCapital, iterations))
      && result.drawdown == Summarize(Drawdowns(r, pnls, initialCapital, iterations))
      && result.riskOfRuin
         == |RuinedRuns(r, pnls, initialCapital, level, iterations)| as real / iterations as real * 100.0
      && |result.samplePaths| == (if samples <= iterations then samples else iterations)
      && forall it :: 0 <= it < |result.samplePaths| ==> result.samplePaths[it] == PathOf(r, pnls, initialCapital, it)
  }

  method RunMonteCarlo(trades: TradeList, initialCapital: real, r: Resampling, iterations: nat, ruinThreshold: real,
                       samples: nat)
    returns (result: Result)
    requires iterations >= 10 && (Profits(trades) != [] ==> Legal(r, Profits(trades)))
    ensures Simulated(result, Profits(trades), initialCapital, r, iterations, ruinThreshold, samples)
  {
    hide Simulated, Legal;
    var pnls := TradeProfits(trades);
    result := Simulate(pnls, initialCapital, r, iterations, ruinThreshold, samples);
  }

  method Simulate(pnls: seq<real>, initialCapital: real, r: Resampling, iterations: nat, ruinThreshold: real,
                  samples: nat)
    returns (result: Result)
    requires iterations >= 10 && (pnls != [] ==> Legal(r, pnls))
    ensures Simulated(result, pnls, initialCapital, r, iterations, ruinThreshold, samples)
  {
    hide Summarize, Ruined, LargestPercent, Sampled, RuinedRuns, Legal, PathOf, Sum;
    if pnls == [] {
      return Result(Flat(initialCapital), Flat(0.0), 0.0, [[initialCapital]]);
    }
    var level := initialCapital * (1.0 - ruinThreshold);
    var ruinCount := 0;
    NoRuns(r, pnls, initialCapital, level);
    var terminals, drawdowns: seq<real>, paths: seq<seq<real>> := [], [], [];
    for it := 0 to iterations
      invariant terminals == Terminals(r, pnls, initialCapital, it)
      invariant drawdowns == Drawdowns(r, pnls, initialCapital, it)
      invariant ruinCount == |RuinedRuns(r, pnls, initialCapital, level, it)|
      invariant |paths| == (if samples <= it then samples else it)
      invariant forall i :: 0 <= i < |paths| ==> paths[i] == PathOf(r, pnls, initialCapital, i)
    {
      var path := PlayOne(r, pnls, initialCapital, it, level);
      OneMoreRun(r, pnls, initialCapital, level, it);
      if path.ruined {
        ruinCount := ruinCount + 1;
      }
      terminals := terminals + [path.terminal];
      drawdowns := drawdowns + [path.maxPercent];
      if it < samples {
        paths := paths + [path.curve];
      }
    }
    result := Result(Summarize(terminals), Summarize(drawdowns), ruinCount as real / iterations as real * 100.0, paths);
  }

  /** One iteration: draw the trades and play them. */
  method PlayOne(r: Resampling, pnls: seq<real>, initialCapital: real, it: nat, ruinLevel: real) returns (path: Path)
    requires Legal(r, pnls) && pnls != []
    ensures path.curve == PathOf(r, pnls, initialCapital, it)
    ensures path.terminal == initialCapital + Sum(Sampled(r, pnls, it))
    ensures path.maxPercent == LargestPercent(path.curve)
    ensures path.ruined <==> Ruined(path.curve, ruinLevel)
  {
    hide Curve, LargestPercent, Ruined, Sampled, Legal;
    var sampled := Resample(r, pnls, it);
    path := SimulatePath(initialCapital, sampled, ruinLevel);
  }

  lemma NoRuns(r: Resampling, pnls: seq<real>, initialCapital: real, level: real)
    requires Legal(r, pnls)
    ensures RuinedRuns(r, pnls, initialCapital, level, 0) == {}
  {
  }

  lemma OneMoreRun(r: Resampling, pnls: seq<real>, initialCapital: real, level: real, it: nat)
    requires Legal(r, pnls)
    ensures |RuinedRuns(r, pnls, initialCapital, level, it + 1)|
            == |RuinedRuns(r, pnls, initialCapital, level, it)|
               + if Ruined(PathOf(r, pnls, initialCapital, it), level) then 1 else 0
  {
    hide Ruined, PathOf, Legal;
    var before, after := RuinedRuns(r, pnls, initialCapital, level, it),
        RuinedRuns(r, pnls, initialCapital, level, it + 1);
    if Ruined(PathOf(r, pnls, initialCapital, it), level) {
      assert after == before + {it};
    } else {
      assert after == before;
    }
  }

  // ---------------------------------------------------------------- what the simulation guarantees

  lemma {:induction false} SumWithout(s: seq<real>, i: nat)
    requires i < |s|
    ensures Sum(s) == Sum(s[..i] + s[i + 1..]) + s[i]
  {
    var last := |s| - 1;
    if i == last {
      assert s[..i] + s[i + 1..] == s[..last];
    } else {
      SumWithout(s[..last], i);
      var rest := s[..i] + s[i + 1..];
      assert rest[..|rest| - 1] == s[..last][..i] + s[..last][i + 1..];
    }
  }

  /** A total does not depend on the order. */
  lemma {:induction false} SumOfPermutation(s: seq<real>, t: seq<real>)
    requires multiset(s) == multiset(t)
    ensures Sum(s) == Sum(t)
    decreases |s|
  {
    assert |multiset(s)| == |multiset(t)|;
    if s != [] {
      var x := s[|s| - 1];
      assert x in multiset(s);
      var i :| 0 <= i < |t| && t[i] == x;
      var rest := t[..i] + t[i + 1..];
      assert t == t[..i] + [x] + t[i + 1..];
      assert s == s[..|s| - 1] + [x];
      assert multiset(rest) == multiset(t) - multiset{x};
      SumOfPermutation(s[..|s| - 1], rest);
      SumWithout(t, i);
    }
  }

  /** Under a shuffle every path ends at the same equity, so all terminal percentiles coincide. */
  lemma ShuffleHasOneTerminal(r: Resampling, pnls: seq<real>, initialCapital: real, iterations: nat)
    requires r.TradeShuffle? && Legal(r, pnls) && iterations > 0
    ensures Summarize(Terminals(r, pnls, initialCapital, iterations)) == Flat(initialCapital + Sum(pnls))
  {
    hide Summarize, Sum;
    var terminal := initialCapital + Sum(pnls);
    var t := Terminals(r, pnls, initialCapital, iterations);
    forall it | 0 <= it < iterations ensures t[it] == terminal {
      ShuffleKeepsTrades(r, pnls, it);
      SumOfPermutation(Sampled(r, pnls, it), pnls);
    }
    SummaryIsOrdered(t, terminal, terminal);
  }

  lemma ShuffleKeepsTrades(r: Resampling, pnls: seq<real>, it: nat)
    requires r.TradeShuffle? && Legal(r, pnls)
    ensures multiset(Sampled(r, pnls, it)) == multiset(pnls)
  {
  }

  lemma {:induction false} SumWithinBounds(s: seq<real>, low: real, high: real)
    requires forall i :: 0 <= i < |s| ==> low <= s[i] <= high
    ensures Times(|s|, low) <= Sum(s) <= Times(|s|, high)
  {
    if s != [] { SumWithinBounds(s[..|s| - 1], low, high); }
  }

  lemma {:induction false} BlocksAreTrades(r: Resampling, pnls: seq<real>, it: nat, count: nat)
    requires r.BlockBootstrap? && Legal(r, pnls)
    ensures forall k :: 0 <= k < |Blocks(r, pnls, it, count)| ==> Blocks(r, pnls, it, count)[k] in pnls
  {
    if count > 0 { BlocksAreTrades(r, pnls, it, count - 1); }
  }

  /** Every resampled trade is one of the historical trades. */
  lemma SampledAreTrades(r: Resampling, pnls: seq<real>, it: nat)
    requires Legal(r, pnls)
    ensures forall k :: 0 <= k < |pnls| ==> Sampled(r, pnls, it)[k] in pnls
  {
    match r
    case TradeShuffle(shuffled) =>
      forall k | 0 <= k < |pnls| ensures Sampled(r, pnls, it)[k] in pnls {
        assert Sampled(r, pnls, it)[k] in multiset(shuffled(it));
      }
    case Bootstrap(draw) =>
    case BlockBootstrap(draw, blockSize) =>
      BlocksGrow(r, pnls, it, 0, |pnls|);
      BlocksAreTrades(r, pnls, it, |pnls|);
      hide Blocks;
  }

  /** Whatever the method and the draws, all terminal figures lie between n worst and n best trades. */
  lemma TerminalsWithinTrades(r: Resampling, pnls: seq<real>, initialCapital: real, iterations: nat, low: real,
                              high: real)
    requires Legal(r, pnls) && iterations > 0 && forall x :: x in pnls ==> low <= x <= high
    ensures var s := Summarize(Terminals(r, pnls, initialCapital, iterations));
            initialCapital + Times(|pnls|, low) <= s.p5 <= s.p25 <= s.p50 <= s.p75 <= s.p95 <= s.p99
            <= initialCapital + Times(|pnls|, high)
  {
    hide Summarize, Sum, Times;
    var t := Terminals(r, pnls, initialCapital, iterations);
    forall it | 0 <= it < iterations
      ensures initialCapital + Times(|pnls|, low) <= t[it] <= initialCapital + Times(|pnls|, high)
    {
      SampledAreTrades(r, pnls, it);
      SumWithinBounds(Sampled(r, pnls, it), low, high);
    }
    SummaryIsOrdered(t, initialCapital + Times(|pnls|, low), initialCapital + Times(|pnls|, high));
  }

  /** The risk of ruin is a percentage. */
  lemma RiskIsPercentage(r: Resampling, pnls: seq<real>, initialCapital: real, level: real, iterations: nat)
    requires Legal(r, pnls) && iterations > 0
    ensures var ruined := |RuinedRuns(r, pnls, initialCapital, level, iterations)| as real;
            0.0 <= ruined / iterations as real * 100.0 <= 100.0
  {
    var runs := RuinedRuns(r, pnls, initialCapital, level, iterations);
    SubsetSize(runs, Range(0, iterations));
    DivMono(0.0, |runs| as real, iterations as real);
    DivMono(|runs| as real, iterations as real, iterations as real);
  }

  /** The runs that at some trade had lost the given share of the capital, or more. */
  ghost function LosingRuns(r: Resampling, pnls: seq<real>, initialCapital: real, share: real,
                            iterations: nat): set<int>
    requires Legal(r, pnls)
  {
    set it | 0 <= it < iterations && LosesShare(Sampled(r, pnls, it), initialCapital, share)
  }

  ghost predicate LosesShare(pnls: seq<real>, initialCapital: real, share: real) {
    exists k :: 1 <= k <= |pnls| && -Sum(pnls[..k]) >= initialCapital * share
  }

  /** The risk of ruin is the percentage of runs that lose the threshold's share of the capital. */
  lemma RiskCountsLosses(result: Result, r: Resampling, pnls: seq<real>, initialCapital: real, iterations: nat,
                         ruinThreshold: real, samples: nat)
    requires pnls != [] && Legal(r, pnls) && iterations > 0
    requires Simulated(result, pnls, initialCapital, r, iterations, ruinThreshold, samples)
    ensures result.riskOfRuin * iterations as real
            == 100.0 * |LosingRuns(r, pnls, initialCapital, ruinThreshold, iterations)| as real
  {
    hide Summarize, Terminals, Drawdowns, PathOf, LosingRuns, RuinedRuns, Legal;
    RuinedAreLosing(r, pnls, initialCapital, ruinThreshold, iterations);
    PercentTimes(|LosingRuns(r, pnls, initialCapital, ruinThreshold, iterations)| as real, iterations as real);
  }

  lemma RuinedAreLosing(r: Resampling, pnls: seq<real>, initialCapital: real, share: real, iterations: nat)
    requires Legal(r, pnls)
    ensures RuinedRuns(r, pnls, initialCapital, initialCapital * (1.0 - share), iterations)
            == LosingRuns(r, pnls, initialCapital, share, iterations)
  {
    hide Sum, Curve, Ruined, LosesShare, Sampled, Legal;
    forall it | 0 <= it < iterations
      ensures Ruined(PathOf(r, pnls, initialCapital, it), initialCapital * (1.0 - share))
              <==> LosesShare(Sampled(r, pnls, it), initialCapital, share)
    {
      RuinIsLoss(initialCapital, Sampled(r, pnls, it), share);
    }
    hide PathOf;
  }

  lemma PercentTimes(x: real, d: real)
    requires d > 0.0
    ensures x / d * 100.0 * d == 100.0 * x
  {
    assert x / d * d == x;
    assert x / d * 100.0 * d == 100.0 * (x / d * d);
  }

  lemma RuinIsLoss(initialCapital: real, pnls: seq<real>, share: real)
    ensures Ruined(Curve(initialCapital, pnls), initialCapital * (1.0 - share))
            <==> LosesShare(pnls, initialCapital, share)
  {
    hide Sum;
    var curve, level := Curve(initialCapital, pnls), initialCapital * (1.0 - share);
    assert level == initialCapital - initialCapital * share;
    forall k | 1 <= k <= |pnls| ensures curve[k] <= level <==> -Sum(pnls[..k]) >= initialCapital * share {
      CurveIsRunningTotal(initialCapital, pnls, k);
    }
    hide Curve;
  }

  /** A lower ruin level can only lower the risk. */
  lemma RiskFallsWithLevel(r: Resampling, pnls: seq<real>, initialCapital: real, lower: real, higher: real,
                           iterations: nat)
    requires Legal(r, pnls) && lower <= higher
    ensures RuinedRuns(r, pnls, initialCapital, lower, iterations)
            <= RuinedRuns(r, pnls, initialCapital, higher, iterations)
  {
    forall it | it in RuinedRuns(r, pnls, initialCapital, lower, iterations)
      ensures it in RuinedRuns(r, pnls, initialCapital, higher, iterations)
    {
      var curve := PathOf(r, pnls, initialCapital, it);
      var k :| 1 <= k < |curve| && curve[k] <= lower;
      assert curve[k] <= higher;
    }
  }
}

/**
 Probability of backtest overfitting by combinatorially symmetric cross-validation
 (backend/app/backtest/overfitting.py, `calculate_pbo`).  The logarithm of the logits is an input.
 */
module Overfitting {
  import opened Common

  /** One row per bar, one column per strategy. */
  type Matrix = seq<seq<real>>

  /** Every row has a column for each strategy of the first row. */
  ghost predicate Rectangular(m: Matrix) {
    m != [] && forall r :: 0 <= r < |m| ==> |m[r]| >= |m[0]|
  }

  // ---------------------------------------------------------------- slices

  /** The even number of slices used for t rows; below two there is no analysis. */
  function SliceCount(t: nat, numSlices: int): int {
    var s := if numSlices <= t then numSlices else t;
    if s % 2 != 0 then s - 1 else s
  }

  /** The largest even number that is neither above the number asked for nor above the number of rows. */
  lemma SliceCountIsLargest(t: nat, numSlices: int)
    ensures var s := SliceCount(t, numSlices);
            s % 2 == 0 && s <= numSlices && s <= t && (s + 2 > numSlices || s + 2 > t)
  {
  }

  /** Where slice i begins; the last slice takes the remaining rows. */
  function Boundary(t: nat, s: nat, i: nat): (b: nat)
    requires 1 <= s <= t && i <= s
    ensures b <= t
  {
    if i == s then t
    else
      BoundaryInside(t, s, i);
      i * (t / s)
  }

  lemma BoundaryInside(t: nat, s: nat, i: nat)
    requires 1 <= s <= t && i <= s
    ensures 0 <= i * (t / s) <= s * (t / s) <= t && t / s >= 1
    ensures i < s ==> i * (t / s) + 1 <= (i + 1) * (t / s) <= t
  {
    assert s * (t / s) <= t;
    IntMono(i, s, t / s);
    if i < s { IntMono(i + 1, s, t / s); }
  }

  lemma IntMono(i: nat, j: nat, k: nat)
    requires i <= j
    ensures i * k <= j * k && (i + 1) * k == i * k + k
  {
  }

  lemma BoundariesIncrease(t: nat, s: nat, i: nat)
    requires 1 <= s <= t && i < s
    ensures Boundary(t, s, i) < Boundary(t, s, i + 1) && Boundary(t, s, 0) == 0
  {
    BoundaryInside(t, s, i);
    BoundaryInside(t, s, s);
    if i + 1 == s { BoundaryInside(t, s, s); }
  }

  function Slice(m: Matrix, s: nat, i: nat): Matrix
    requires 1 <= s <= |m| && i < s
  {
    BoundariesIncrease(|m|, s, i);
    m[Boundary(|m|, s, i)..Boundary(|m|, s, i + 1)]
  }

  // ---------------------------------------------------------------- sums

  /** The cumulative return of one strategy over some rows. */
  function ColumnSum(rows: Matrix, k: nat): real
    requires forall r :: 0 <= r < |rows| ==> k < |rows[r]|
  {
    if rows == [] then 0.0 else ColumnSum(rows[..|rows| - 1], k) + rows[|rows| - 1][k]
  }

  /** The same over the slices of a set among the first `upto`. */
  function SlicesSum(m: Matrix, s: nat, members: set<int>, k: nat, upto: nat): real
    requires Rectangular(m) && k < |m[0]| && 1 <= s <= |m| && upto <= s
  {
    if upto == 0 then 0.0
    else
      SlicesSum(m, s, members, k, upto - 1)
      + if upto - 1 in members then ColumnSum(Slice(m, s, upto - 1), k) else 0.0
  }

  lemma {:induction false} ColumnSumAppend(a: Matrix, b: Matrix, k: nat)
    requires forall r :: 0 <= r < |a| ==> k < |a[r]|
    requires forall r :: 0 <= r < |b| ==> k < |b[r]|
    ensures ColumnSum(a + b, k) == ColumnSum(a, k) + ColumnSum(b, k)
  {
    if b == [] {
      assert a + b == a;
    } else {
      ColumnSumAppend(a, b[..|b| - 1], k);
      assert (a + b)[..|a + b| - 1] == a + b[..|b| - 1];
    }
  }

  /** The slices partition the rows: an in-sample and its out-of-sample set together give the full sum. */
  lemma {:induction false} SlicesPartition(m: Matrix, s: nat, train: set<int>, k: nat, upto: nat)
    requires Rectangular(m) && k < |m[0]| && 1 <= s <= |m| && upto <= s
    ensures SlicesSum(m, s, train, k, upto) + SlicesSum(m, s, Range(0, s) - train, k, upto)
            == ColumnSum(m[..Boundary(|m|, s, upto)], k)
  {
    hide Boundary;
    if upto == 0 {
      BoundariesIncrease(|m|, s, 0);
    } else {
      SlicesPartition(m, s, train, k, upto - 1);
      BoundariesIncrease(|m|, s, upto - 1);
      var from, to := Boundary(|m|, s, upto - 1), Boundary(|m|, s, upto);
      ColumnSumAppend(m[..from], m[from..to], k);
      assert m[..from] + m[from..to] == m[..to];
      hide ColumnSum, Rectangular;
    }
  }

  lemma SampleSumsAddUp(m: Matrix, s: nat, train: set<int>, k: nat)
    requires Rectangular(m) && k < |m[0]| && 1 <= s <= |m|
    ensures SlicesSum(m, s, train, k, s) + SlicesSum(m, s, Range(0, s) - train, k, s) == ColumnSum(m, k)
  {
    SlicesPartition(m, s, train, k, s);
    assert m[..|m|] == m;
  }

  // ---------------------------------------------------------------- combinations

  function AddAll(x: int, sets: seq<set<int>>): seq<set<int>> {
    seq(|sets|, i requires 0 <= i < |sets| => sets[i] + {x})
  }

  /** The r-element subsets of lo..n in the library's lexicographic order. */
  function Combinations(lo: int, n: int, r: nat): seq<set<int>>
    decreases n - lo
  {
    if r == 0 then [{}]
    else if lo >= n then []
    else AddAll(lo, Combinations(lo + 1, n, r - 1)) + Combinations(lo + 1, n, r)
  }

  /** An r-element subset of lo..n. */
  ghost predicate Choice(c: set<int>, lo: int, n: int, r: nat) {
    c <= Range(lo, n) && |c| == r
  }

  /** Each listed set is an r-element subset, and each such subset is listed exactly once. */
  lemma {:induction false} CombinationsAreSubsets(lo: int, n: int, r: nat)
    ensures forall c :: c in Combinations(lo, n, r) ==> Choice(c, lo, n, r)
    decreases n - lo
  {
    if r > 0 && lo < n {
      hide Choice;
      CombinationsAreSubsets(lo + 1, n, r - 1);
      CombinationsAreSubsets(lo + 1, n, r);
      var with, without := Combinations(lo + 1, n, r - 1), Combinations(lo + 1, n, r);
      forall c | c in Combinations(lo, n, r) ensures Choice(c, lo, n, r) {
        if c in without {
          ChoiceWidens(c, lo, n, r);
        } else {
          var rest := WithoutAdded(lo, with, c);
          ChoiceWidens(rest, lo, n, r - 1);
        }
      }
    }
  }

  lemma ChoiceWidens(c: set<int>, lo: int, n: int, r: nat)
    requires Choice(c, lo + 1, n, r) && lo < n
    ensures lo !in c && Choice(c, lo, n, r) && Choice(c + {lo}, lo, n, r + 1)
  {
  }

  lemma WithoutAdded(x: int, sets: seq<set<int>>, c: set<int>) returns (without: set<int>)
    requires c in AddAll(x, sets)
    ensures without in sets && c == without + {x}
  {
    var i :| 0 <= i < |sets| && AddAll(x, sets)[i] == c;
    without := sets[i];
  }

  ghost predicate Distinct(sets: seq<set<int>>) {
    forall i, j :: 0 <= i < j < |sets| ==> sets[i] != sets[j]
  }

  lemma DistinctWithAndWithout(x: int, with: seq<set<int>>, without: seq<set<int>>)
    requires Distinct(with) && Distinct(without)
    requires forall c :: c in with || c in without ==> x !in c
    ensures Distinct(AddAll(x, with) + without)
  {
    var c := AddAll(x, with) + without;
    forall i, j | 0 <= i < j < |c| ensures c[i] != c[j] {
      if j < |with| {
        assert with[i] in with && with[j] in with;
        assert c[i] - {x} == with[i] && c[j] - {x} == with[j];
      } else {
        assert c[j] == without[j - |with|] && c[j] in without;
        if i < |with| { assert x in c[i]; }
      }
    }
  }

  lemma {:induction false} CombinationsAreDistinct(lo: int, n: int, r: nat)
    ensures Distinct(Combinations(lo, n, r))
    decreases n - lo
  {
    if r > 0 && lo < n {
      CombinationsAreDistinct(lo + 1, n, r - 1);
      CombinationsAreDistinct(lo + 1, n, r);
      CombinationsAreSubsets(lo + 1, n, r - 1);
      CombinationsAreSubsets(lo + 1, n, r);
      assert forall c :: Choice(c, lo + 1, n, r - 1) || Choice(c, lo + 1, n, r) ==> lo !in c;
      DistinctWithAndWithout(lo, Combinations(lo + 1, n, r - 1), Combinations(lo + 1, n, r));
    }
  }

  lemma {:induction false} CombinationsAreComplete(lo: int, n: int, r: nat, members: set<int>)
    requires Choice(members, lo, n, r)
    ensures members in Combinations(lo, n, r)
    decreases n - lo
  {
    if r == 0 {
      assert members == {};
    } else {
      assert Pick(members) in Range(lo, n);
      if lo in members {
        CombinationsAreComplete(lo + 1, n, r - 1, members - {lo});
        AddedIsListed(lo, Combinations(lo + 1, n, r - 1), members);
      } else {
        CombinationsAreComplete(lo + 1, n, r, members);
      }
    }
  }

  lemma AddedIsListed(x: int, sets: seq<set<int>>, c: set<int>)
    requires c - {x} in sets && x in c
    ensures c in AddAll(x, sets)
  {
    var i :| 0 <= i < |sets| && sets[i] == c - {x};
    assert AddAll(x, sets)[i] == c;
  }

  /** The design is symmetric: every out-of-sample set is the in-sample set of another combination. */
  lemma ComplementsAreListed(s: nat, train: set<int>)
    requires s % 2 == 0 && train in Combinations(0, s, s / 2)
    ensures Range(0, s) - train in Combinations(0, s, s / 2)
  {
    CombinationsAreSubsets(0, s, s / 2);
    CardinalityOfRest(train, Range(0, s));
    CombinationsAreComplete(0, s, s / 2, Range(0, s) - train);
  }

  lemma CardinalityOfRest(a: set<int>, b: set<int>)
    requires a <= b
    ensures |b - a| == |b| - |a|
  {
    assert b == a + (b - a);
  }

  // ---------------------------------------------------------------- ranks

  /** Order of the descending, stable sort: the better first, equals in index order. */
  predicate Before(sums: seq<real>, a: nat, b: nat)
    requires a < |sums| && b < |sums|
  {
    sums[a] > sums[b] || (sums[a] == sums[b] && a < b)
  }

  /** The first strategy with the largest sum. */
  function Best(sums: seq<real>): (best: nat)
    requires sums != []
    ensures best < |sums|
  {
    if |sums| == 1 then 0
    else
      var best := Best(sums[..|sums| - 1]);
      if sums[|sums| - 1] > sums[best] then |sums| - 1 else best
  }

  lemma {:induction false} BestIsFirstLargest(sums: seq<real>)
    requires sums != []
    ensures forall k :: 0 <= k < |sums| && k != Best(sums) ==> Before(sums, Best(sums), k)
    ensures forall k :: 0 <= k < |sums| ==> sums[k] <= sums[Best(sums)]
  {
    if |sums| > 1 {
      var rest := sums[..|sums| - 1];
      BestIsFirstLargest(rest);
      forall k | 0 <= k < |sums| && k != Best(sums) ensures Before(sums, Best(sums), k) {
        if k < |rest| && k != Best(rest) { assert Before(rest, Best(rest), k); }
      }
    }
  }

  /** Rank 1 is best: one more than the number of strategies placed before this one. */
  ghost function Rank(sums: seq<real>, k: nat): nat
    requires k < |sums|
  {
    1 + |set j | 0 <= j < |sums| && Before(sums, j, k)|
  }

  lemma RankInRange(sums: seq<real>, k: nat)
    requires k < |sums|
    ensures 1 <= Rank(sums, k) <= |sums|
  {
    var before := set j | 0 <= j < |sums| && Before(sums, j, k);
    SubsetSize(before, Range(0, |sums|) - {k});
  }

  lemma StrictlyBestRanksFirst(sums: seq<real>, k: nat)
    requires k < |sums| && forall j :: 0 <= j < |sums| && j != k ==> sums[j] < sums[k]
    ensures Rank(sums, k) == 1
  {
    assert (set j | 0 <= j < |sums| && Before(sums, j, k)) == {};
  }

  method BestStrategy(sums: seq<real>) returns (best: nat)
    requires sums != []
    ensures best == Best(sums)
  {
    best := 0;
    for k := 1 to |sums|
      invariant best == Best(sums[..k])
    {
      assert sums[..k + 1][..k] == sums[..k];
      if sums[k] > sums[best] {
        best := k;
      }
    }
    assert sums[..|sums|] == sums;
  }

  /** Strategies listed in sorting order, without repetition. */
  ghost predicate Placed(sums: seq<real>, order: seq<nat>) {
    && (forall i :: 0 <= i < |order| ==> order[i] < |sums|)
    && (forall i, j :: 0 <= i < j < |order| ==> Before(sums, order[i], order[j]))
  }

  /** Every strategy below n is listed. */
  ghost predicate Covers(order: seq<nat>, n: nat) {
    forall k: nat :: k < n ==> k in order
  }

  lemma NotListedBefore(sums: seq<real>, order: seq<nat>, i: nat)
    requires Placed(sums, order) && i < |order|
    ensures order[i] !in order[..i]
  {
    assert forall j :: 0 <= j < i ==> Before(sums, order[j], order[i]);
  }

  lemma {:induction false} PrefixSize(sums: seq<real>, order: seq<nat>, i: nat)
    requires Placed(sums, order) && i <= |order|
    ensures |Elements(order[..i])| == i
  {
    if i > 0 {
      PrefixSize(sums, order, i - 1);
      NotListedBefore(sums, order, i - 1);
      SnocSize(order, i - 1);
      hide Placed, Elements;
    }
  }

  /** In a complete sorted list the position is the number of strategies placed before. */
  lemma PositionIsRank(sums: seq<real>, order: seq<nat>, i: nat)
    requires Placed(sums, order) && Covers(order, |sums|) && i < |order|
    ensures Rank(sums, order[i]) == i + 1
  {
    var before := set j | 0 <= j < |sums| && Before(sums, j, order[i]);
    forall j: nat | j in before ensures j in order[..i] {
      assert j in order;
      var p :| 0 <= p < |order| && order[p] == j;
      assert order[..i][p] == j;
    }
    forall j: nat | j in order[..i] ensures j in before {
      var p :| 0 <= p < i && order[p] == j;
      assert Before(sums, order[p], order[i]);
    }
    assert before == Elements(order[..i]);
    PrefixSize(sums, order, i);
  }

  /** Sort the strategies and look one of them up. */
  method RankOf(sums: seq<real>, strategy: nat) returns (rank: nat)
    requires strategy < |sums|
    ensures rank == Rank(sums, strategy)
  {
    var order := SortStrategies(sums);
    var i := 0;
    assert strategy in order;
    while order[i] != strategy
      invariant i < |order| && strategy in order[i..]
      decreases |order| - i
    {
      assert order[i..] == [order[i]] + order[i + 1..];
      i := i + 1;
    }
    PositionIsRank(sums, order, i);
    rank := i + 1;
  }

  /** Insertion sort, later indices behind equals. */
  method SortStrategies(sums: seq<real>) returns (order: seq<nat>)
    ensures Placed(sums, order) && Covers(order, |sums|)
  {
    order := [];
    for k := 0 to |sums|
      invariant Placed(sums, order) && Covers(order, k)
      invariant forall i :: 0 <= i < |order| ==> order[i] < k
    {
      var p := 0;
      while p < |order| && sums[order[p]] >= sums[k]
        invariant 0 <= p <= |order|
        invariant forall i :: 0 <= i < p ==> sums[order[i]] >= sums[k]
      {
        p := p + 1;
      }
      InsertKeepsPlaces(sums, order, p, k);
      order := order[..p] + [k] + order[p..];
    }
  }

  lemma InsertKeepsPlaces(sums: seq<real>, order: seq<nat>, p: nat, k: nat)
    requires Placed(sums, order) && Covers(order, k) && p <= |order| && k < |sums|
    requires forall i :: 0 <= i < |order| ==> order[i] < k
    requires forall i :: 0 <= i < p ==> sums[order[i]] >= sums[k]
    requires p < |order| ==> sums[order[p]] < sums[k]
    ensures Placed(sums, order[..p] + [k] + order[p..]) && Covers(order[..p] + [k] + order[p..], k + 1)
  {
    var longer := order[..p] + [k] + order[p..];
    forall i | p <= i < |order| ensures sums[order[i]] < sums[k] {
      assert i > p ==> Before(sums, order[p], order[i]);
    }
    forall i, j | 0 <= i < j < |longer| ensures Before(sums, longer[i], longer[j]) {
      if i != p && j != p {
        assert Before(sums, order[if i < p then i else i - 1], order[if j < p then j else j - 1]);
      }
    }
    InsertCovers(order, p, k);
  }

  lemma InsertCovers(order: seq<nat>, p: nat, k: nat)
    requires Covers(order, k) && p <= |order|
    ensures Covers(order[..p] + [k] + order[p..], k + 1)
  {
    assert order == order[..p] + order[p..];
    forall x: nat | x < k ensures x in order[..p] || x in order[p..] {
      assert x in order;
    }
  }

  // ---------------------------------------------------------------- the whole analysis

  /** The cumulative returns of all strategies over the slices of a set. */
  function Sums(m: Matrix, s: nat, members: set<int>): seq<real>
    requires Rectangular(m) && 1 <= s <= |m|
  {
    seq(|m[0]|, k requires 0 <= k < |m[0]| => SlicesSum(m, s, members, k, s))
  }

  /** The out-of-sample rank of the in-sample winner, relative to the number of strategies plus one. */
  ghost function RelativeRank(m: Matrix, s: nat, train: set<int>): real
    requires Rectangular(m) && m[0] != [] && 1 <= s <= |m|
  {
    Rank(Sums(m, s, Range(0, s) - train), Best(Sums(m, s, train))) as real / (|m[0]| + 1) as real
  }

  /** How many of the relative ranks lie in the worse half. */
  function Overfit(ranks: seq<real>): nat {
    if ranks == [] then 0 else Overfit(ranks[..|ranks| - 1]) + if ranks[|ranks| - 1] > 0.5 then 1 else 0
  }

  datatype PboResult = PboResult(pbo: real, combinations: nat, ranks: seq<real>, logits: seq<real>)

  const CLAMP := 0.000001

  function Clamped(rank: real): (c: real)
    ensures CLAMP <= c <= 1.0 - CLAMP
  {
    Max(CLAMP, Min(1.0 - CLAMP, rank))
  }

  /** The log-odds of a relative rank. */
  function Logit(log: real -> real, rank: real): real {
    log(Clamped(rank) / (1.0 - Clamped(rank)))
  }

  /** The logarithm of the odds, which are kept between one in a million and the reverse. */
  lemma LogitIsLogOdds(log: real -> real, rank: real)
    ensures 0.000001 <= rank <= 0.999999 ==> Logit(log, rank) == log(rank / (1.0 - rank))
    ensures rank < 0.000001 ==> Logit(log, rank) == log(0.000001 / 0.999999)
    ensures rank > 0.999999 ==> Logit(log, rank) == log(0.999999 / 0.000001)
  {
  }

  /** The cumulative returns, slice by slice, row by row, strategy by strategy. */
  method SumSlices(m: Matrix, s: nat, members: set<int>) returns (sums: seq<real>)
    requires Rectangular(m) && 1 <= s <= |m|
    ensures sums == Sums(m, s, members)
  {
    hide Slice, Boundary;
    var n := |m[0]|;
    sums := seq(n, _ => 0.0);
    for i := 0 to s
      invariant |sums| == n && forall k :: 0 <= k < n ==> sums[k] == SlicesSum(m, s, members, k, i)
    {
      if i in members {
        SliceIsWide(m, s, i);
        var slice := Slice(m, s, i);
        ghost var before := sums;
        for r := 0 to |slice|
          invariant |sums| == n
          invariant forall k :: 0 <= k < n ==> sums[k] == before[k] + ColumnSum(slice[..r], k)
        {
          assert slice[..r + 1][..r] == slice[..r];
          sums := AddRow(sums, slice[r]);
        }
        assert slice[..|slice|] == slice;
      }
    }
  }

  method AddRow(sums: seq<real>, row: seq<real>) returns (t: seq<real>)
    requires |sums| <= |row|
    ensures |t| == |sums| && forall k :: 0 <= k < |sums| ==> t[k] == sums[k] + row[k]
  {
    t := sums;
    for k := 0 to |sums|
      invariant |t| == |sums|
      invariant forall j :: 0 <= j < k ==> t[j] == sums[j] + row[j]
      invariant forall j :: k <= j < |sums| ==> t[j] == sums[j]
    {
      t := t[k := t[k] + row[k]];
    }
  }

  lemma SliceIsWide(m: Matrix, s: nat, i: nat)
    requires Rectangular(m) && 1 <= s <= |m| && i < s
    ensures Slice(m, s, i) != [] && forall r :: 0 <= r < |Slice(m, s, i)| ==> |Slice(m, s, i)[r]| >= |m[0]|
    ensures forall row :: row in Slice(m, s, i) ==> row in m
  {
    BoundariesIncrease(|m|, s, i);
  }

  /** One combination: pick the in-sample winner and rank it out of sample. */
  method RankWinner(m: Matrix, s: nat, train: set<int>) returns (relative: real)
    requires Rectangular(m) && m[0] != [] && 1 <= s <= |m|
    ensures relative == RelativeRank(m, s, train)
  {
    hide SlicesSum, Rank;
    var inSample := SumSlices(m, s, train);
    var best := BestStrategy(inSample);
    var outOfSample := SumSlices(m, s, Range(0, s) - train);
    var rank := RankOf(outOfSample, best);
    relative := rank as real / (|m[0]| + 1) as real;
  }

  /** The relative ranks of the analysis, one for each combination. */
  ghost function Ranks(m: Matrix, s: nat): seq<real>
    requires Rectangular(m) && m[0] != [] && 2 <= s <= |m|
  {
    var c := Combinations(0, s, s / 2);
    seq(|c|, i requires 0 <= i < |c| => RelativeRank(m, s, c[i]))
  }

  ghost function Pbo(m: Matrix, s: nat): real
    requires Rectangular(m) && m[0] != [] && 2 <= s <= |m|
  {
    CombinationsExist(s);
    Overfit(Ranks(m, s)) as real / |Ranks(m, s)| as real
  }

  /** A logarithm: increasing on the positive numbers, zero at one. */
  ghost predicate IsLog(log: real -> real) {
    log(1.0) == 0.0 && forall x, y :: 0.0 < x < y ==> log(x) < log(y)
  }

  /** A rank in the worse half has a positive logit, and no other. */
  lemma LogitIsPositiveExactly(log: real -> real, rank: real)
    requires IsLog(log)
    ensures Logit(log, rank) > 0.0 <==> rank > 0.5
  {
    var c := Clamped(rank);
    DivAtLeast(c, 1.0, 1.0 - c);
    DivAtLeast(c, 0.0, 1.0 - c);
    var odds := c / (1.0 - c);
    assert odds * (1.0 - c) == c;
    if c > 0.0 && odds <= 0.0 { MulMono(odds, 0.0, 1.0 - c); }
    if odds == 1.0 { assert c == 0.5; }
  }

  /** The combinations whose winner does worse than the median out of sample: their logit is positive. */
  ghost function PositiveLogits(logits: seq<real>): set<int> {
    set i | 0 <= i < |logits| && logits[i] > 0.0
  }

  ghost function LogitsOf(log: real -> real, ranks: seq<real>): (logits: seq<real>)
    ensures |logits| == |ranks|
  {
    seq(|ranks|, i requires 0 <= i < |ranks| => Logit(log, ranks[i]))
  }

  /** The winners counted as overfit are those with a positive logit. */
  /** The last logit makes a difference only if it is positive. */
  lemma PositiveLast(logits: seq<real>)
    requires logits != []
    ensures var last := |logits| - 1;
            |PositiveLogits(logits)| == |PositiveLogits(logits[..last])| + if logits[last] > 0.0 then 1 else 0
  {
    var last := |logits| - 1;
    assert PositiveLogits(logits) == PositiveLogits(logits[..last]) + if logits[last] > 0.0 then {last} else {};
  }

  lemma {:induction false} OverfitCountsPositiveLogits(log: real -> real, ranks: seq<real>)
    requires IsLog(log)
    ensures Overfit(ranks) == |PositiveLogits(LogitsOf(log, ranks))|
  {
    if ranks == [] {
      assert PositiveLogits(LogitsOf(log, ranks)) == {};
    } else {
      hide Logit, IsLog, PositiveLogits;
      var last := |ranks| - 1;
      OverfitCountsPositiveLogits(log, ranks[..last]);
      LogitIsPositiveExactly(log, ranks[last]);
      assert LogitsOf(log, ranks)[..last] == LogitsOf(log, ranks[..last]);
      PositiveLast(LogitsOf(log, ranks));
    }
  }

  /** The share of a part in a whole. */
  predicate IsShare(share: real, part: real, whole: real) {
    share * whole == part
  }

  lemma ShareOfWhole(part: real, whole: real)
    requires whole > 0.0
    ensures IsShare(part / whole, part, whole)
  {
  }

  method CalculatePbo(m: Matrix, numSlices: int, log: real -> real) returns (r: PboResult)
    requires m != [] && m[0] != [] ==> Rectangular(m)
    ensures m == [] || m[0] == [] || SliceCount(|m|, numSlices) < 2 ==> r == PboResult(0.0, 0, [], [])
    ensures m != [] && m[0] != [] && SliceCount(|m|, numSlices) >= 2 ==>
              var s := SliceCount(|m|, numSlices);
              && r.pbo == Pbo(m, s) && r.ranks == Ranks(m, s)
              && r.combinations == |r.ranks| == |r.logits| == |Combinations(0, s, s / 2)| > 0
              && (forall i :: 0 <= i < |r.logits| ==> r.logits[i] == Logit(log, r.ranks[i]))
              && (IsLog(log) ==> IsShare(r.pbo, |PositiveLogits(r.logits)| as real, r.combinations as real))
  {
    hide RelativeRank, Combinations, Logit, IsLog, PositiveLogits, IsShare;
    if m == [] || m[0] == [] {
      return PboResult(0.0, 0, [], []);
    }
    var s := SliceCount(|m|, numSlices);
    if s < 2 {
      return PboResult(0.0, 0, [], []);
    }
    var combinations := Combinations(0, s, s / 2);
    CombinationsExist(s);
    var ranks, logits: seq<real> := [], [];
    var overfit := 0;
    for c := 0 to |combinations|
      invariant |ranks| == |logits| == c && overfit == Overfit(ranks)
      invariant forall i :: 0 <= i < c ==>
                  ranks[i] == RelativeRank(m, s, combinations[i]) && logits[i] == Logit(log, ranks[i])
    {
      var relative := RankWinner(m, s, combinations[c]);
      assert (ranks + [relative])[..c] == ranks;
      ranks, logits := ranks + [relative], logits + [Logit(log, relative)];
      if relative > 0.5 {
        overfit := overfit + 1;
      }
    }
    assert ranks == Ranks(m, s);
    r := PboResult(overfit as real / |combinations| as real, |combinations|, ranks, logits);
    assert logits == LogitsOf(log, ranks);
    if IsLog(log) { OverfitCountsPositiveLogits(log, ranks); }
    ShareOfWhole(overfit as real, |combinations| as real);
  }

  lemma CombinationsExist(s: nat)
    requires s >= 2
    ensures Combinations(0, s, s / 2) != []
  {
    CombinationsAreComplete(0, s, s / 2, Range(0, s / 2));
  }

  // ---------------------------------------------------------------- what the figures guarantee

  /** A relative rank lies between 1/(n+1) and n/(n+1). */
  lemma RelativeRankInRange(m: Matrix, s: nat, train: set<int>)
    requires Rectangular(m) && m[0] != [] && 1 <= s <= |m|
    ensures var n := |m[0]| as real;
            1.0 / (n + 1.0) <= RelativeRank(m, s, train) <= n / (n + 1.0)
  {
    var n := |m[0]| as real;
    RankInRange(Sums(m, s, Range(0, s) - train), Best(Sums(m, s, train)));
    var rank := Rank(Sums(m, s, Range(0, s) - train), Best(Sums(m, s, train))) as real;
    assert (|m[0]| + 1) as real == n + 1.0;
    DivMono(1.0, rank, n + 1.0);
    DivMono(rank, n, n + 1.0);
  }

  lemma {:induction false} OverfitAtMostAll(ranks: seq<real>)
    ensures Overfit(ranks) <= |ranks|
  {
    if ranks != [] { OverfitAtMostAll(ranks[..|ranks| - 1]); }
  }

  /** The probability lies in [0, 1]. */
  lemma PboIsProbability(ranks: seq<real>)
    requires ranks != []
    ensures 0.0 <= Overfit(ranks) as real / |ranks| as real <= 1.0
  {
    OverfitAtMostAll(ranks);
    DivMono(0.0, Overfit(ranks) as real, |ranks| as real);
    DivMono(Overfit(ranks) as real, |ranks| as real, |ranks| as real);
  }

  /** Strategy b beats every other strategy in every row. */
  ghost predicate Dominates(m: Matrix, b: nat)
    requires Rectangular(m)
  {
    b < |m[0]| && forall row, k :: row in m && 0 <= k < |m[0]| && k != b && |row| >= |m[0]| ==> row[k] < row[b]
  }

  lemma {:induction false} DominatesSum(rows: Matrix, n: nat, b: nat, k: nat)
    requires b < n && k < n && forall r :: 0 <= r < |rows| ==> |rows[r]| >= n && rows[r][k] < rows[r][b]
    ensures ColumnSum(rows, k) <= ColumnSum(rows, b) && (rows != [] ==> ColumnSum(rows, k) < ColumnSum(rows, b))
  {
    if rows != [] { DominatesSum(rows[..|rows| - 1], n, b, k); }
  }

  /** Over any slices, and strictly over at least one, the dominating strategy sums higher. */
  lemma {:induction false} DominatesSlices(m: Matrix, s: nat, members: set<int>, b: nat, k: nat, upto: nat)
    requires Rectangular(m) && 1 <= s <= |m| && upto <= s && Dominates(m, b) && k < |m[0]| && k != b
    ensures SlicesSum(m, s, members, k, upto) <= SlicesSum(m, s, members, b, upto)
    ensures (exists i :: 0 <= i < upto && i in members) ==>
              SlicesSum(m, s, members, k, upto) < SlicesSum(m, s, members, b, upto)
  {
    if upto > 0 {
      DominatesSlices(m, s, members, b, k, upto - 1);
      SliceIsWide(m, s, upto - 1);
      var slice := Slice(m, s, upto - 1);
      forall r | 0 <= r < |slice| ensures slice[r][k] < slice[r][b] {
        assert slice[r] in m;
      }
      DominatesSum(slice, |m[0]|, b, k);
    }
  }

  lemma DominatorIsStrictlyBest(m: Matrix, s: nat, members: set<int>, b: nat)
    requires Rectangular(m) && 1 <= s <= |m| && Dominates(m, b) && members <= Range(0, s) && members != {}
    ensures forall k :: 0 <= k < |m[0]| && k != b ==> Sums(m, s, members)[k] < Sums(m, s, members)[b]
  {
    forall k | 0 <= k < |m[0]| && k != b ensures Sums(m, s, members)[k] < Sums(m, s, members)[b] {
      DominatesSlices(m, s, members, b, k, s);
      assert Pick(members) in Range(0, s);
    }
  }

  /** It wins every sample, so it ranks first out of sample: 1/(n+1). */
  lemma DominatorRanksFirst(m: Matrix, s: nat, train: set<int>, b: nat)
    requires Rectangular(m) && 2 <= s <= |m| && s % 2 == 0 && Dominates(m, b) && train in Combinations(0, s, s / 2)
    ensures RelativeRank(m, s, train) == 1.0 / (|m[0]| + 1) as real
  {
    hide Combinations, SlicesSum, Range, Best, Rank;
    CombinationsAreSubsets(0, s, s / 2);
    ComplementsAreListed(s, train);
    var test := Range(0, s) - train;
    assert Choice(train, 0, s, s / 2) && Choice(test, 0, s, s / 2);
    DominatorIsStrictlyBest(m, s, train, b);
    DominatorIsStrictlyBest(m, s, test, b);
    StrictlyBestIsBest(Sums(m, s, train), b);
    StrictlyBestRanksFirst(Sums(m, s, test), b);
  }

  lemma StrictlyBestIsBest(sums: seq<real>, b: nat)
    requires b < |sums| && forall j :: 0 <= j < |sums| && j != b ==> sums[j] < sums[b]
    ensures Best(sums) == b
  {
    hide Best;
    BestIsFirstLargest(sums);
    assert sums[b] <= sums[Best(sums)];
  }

  lemma {:induction false} NoneOverfit(ranks: seq<real>)
    requires forall i :: 0 <= i < |ranks| ==> ranks[i] <= 0.5
    ensures Overfit(ranks) == 0
  {
    if ranks != [] { NoneOverfit(ranks[..|ranks| - 1]); }
  }

  /** A strategy that is best in every row has no probability of being overfit. */
  lemma DominatorIsNotOverfit(m: Matrix, s: nat, b: nat)
    requires Rectangular(m) && m[0] != [] && 2 <= s <= |m| && s % 2 == 0 && Dominates(m, b)
    ensures Pbo(m, s) == 0.0
  {
    hide Combinations, RelativeRank, Dominates;
    var c := Combinations(0, s, s / 2);
    forall i | 0 <= i < |c| ensures Ranks(m, s)[i] <= 0.5 {
      assert c[i] in c;
      DominatorRanksFirst(m, s, c[i], b);
      ReciprocalAtMostHalf((|m[0]| + 1) as real);
    }
    NoneOverfit(Ranks(m, s));
    CombinationsExist(s);
    DivMono(0.0, 0.0, |c| as real);
  }

  /** The winner of a combination is the worst of all out of sample. */
  ghost predicate WinnerRanksLast(m: Matrix, s: nat, train: set<int>)
    requires Rectangular(m) && m[0] != [] && 1 <= s <= |m|
  {
    Rank(Sums(m, s, Range(0, s) - train), Best(Sums(m, s, train))) == |m[0]|
  }

  lemma {:induction false} AllOverfit(ranks: seq<real>)
    requires forall i :: 0 <= i < |ranks| ==> ranks[i] > 0.5
    ensures Overfit(ranks) == |ranks|
  {
    if ranks != [] { AllOverfit(ranks[..|ranks| - 1]); }
  }

  /** When every winner ranks last out of sample, the backtest is certain to be overfit. */
  lemma LosingWinnersAreOverfit(m: Matrix, s: nat)
    requires Rectangular(m) && |m[0]| >= 2 && 2 <= s <= |m|
    requires forall train :: train in Combinations(0, s, s / 2) ==> WinnerRanksLast(m, s, train)
    ensures Pbo(m, s) == 1.0
  {
    hide Combinations, Rank, Best, Sums;
    var c, n := Combinations(0, s, s / 2), |m[0]| as real;
    assert (|m[0]| + 1) as real == n + 1.0;
    forall i | 0 <= i < |c| ensures Ranks(m, s)[i] > 0.5 {
      assert c[i] in c;
      assert WinnerRanksLast(m, s, c[i]);
      WorstIsAboveHalf(n);
    }
    AllOverfit(Ranks(m, s));
    CombinationsExist(s);
    DivMono(|c| as real, |c| as real, |c| as real);
  }

  lemma WorstIsAboveHalf(n: real)
    requires n >= 2.0
    ensures n / (n + 1.0) > 0.5
  {
    DivAtLeast(n, 0.6, n + 1.0);
  }

  lemma ReciprocalAtMostHalf(x: real)
    requires x >= 2.0
    ensures 1.0 / x <= 0.5
  {
    DivMono(1.0, x / 2.0, x);
  }
}

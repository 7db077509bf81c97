/**
 What the rate limiter guarantees over whole runs: the three sliding windows, the token-bucket
 bound, and the exactness of the wait hint.
 */
module RateLimiterRuns {
  import opened Common
  import opened RateLimiter

  // ---------------------------------------------------------------- the windows

  /** The full record of a run: every timestamp ever granted, nothing pruned. */
  function Log(spec: RateLimitSpec, s: Category, t: Trace<Attempt>): seq<real> {
    if t.Begin? then []
    else
      Log(spec, s, t.earlier)
      + if Step(spec, Run(spec, s, t.earlier), t.last).granted then Repeat(t.last.now, Units(t.last.cost)) else []
  }

  /** Positions of the log inside the half-open window (t - span, t]. */
  ghost function Window(log: seq<real>, t: real, span: real): set<int> {
    set i | 0 <= i < |log| && t - span < log[i] <= t
  }

  /** No half-open window of this span ever holds more than cap grants. */
  ghost predicate WindowRespected(log: seq<real>, cap: int, span: real) {
    forall t :: |Window(log, t, span)| <= cap
  }

  /** Grants cap or more places apart are at least the span apart. */
  ghost predicate Spaced(log: seq<real>, cap: int, span: real) {
    forall i, j :: 0 <= i < j < |log| && j - i >= cap ==> log[j] - log[i] >= span
  }

  /** The two readings of a sliding-window cap agree on every log kept in order. */
  lemma SpacedIsWindowRespected(log: seq<real>, cap: int, span: real)
    requires Sorted(log) && cap >= 1
    ensures Spaced(log, cap, span) <==> WindowRespected(log, cap, span)
  {
    if Spaced(log, cap, span) {
      forall t ensures |Window(log, t, span)| <= cap {
        WindowFits(log, cap, span, t);
      }
    } else {
      var i, j :| 0 <= i < j < |log| && j - i >= cap && log[j] - log[i] < span;
      assert forall k :: i <= k <= j ==> log[i] <= log[k] <= log[j];
      SubsetSize(Range(i, j + 1), Window(log, log[j], span));
    }
  }

  lemma WindowFits(log: seq<real>, cap: int, span: real, t: real)
    requires Sorted(log) && cap >= 1 && Spaced(log, cap, span)
    ensures |Window(log, t, span)| <= cap
  {
    var window := Window(log, t, span);
    if window != {} {
      var p := HasLeast(window);
      assert forall i :: i in window ==> i < p + cap;
      SubsetSize(window, Range(p, p + cap));
    }
  }

  /** `cap` is configured for the window of this length. */
  predicate IsWindow(spec: RateLimitSpec, cap: int, span: real) {
    || (spec.perMinute == Some(cap) && span == 60.0)
    || (spec.perHour == Some(cap) && span == 3600.0)
    || (spec.perDay == Some(cap) && span == 86400.0)
  }

  /** The deque is the tail of the full log, and what was pruned is more than a day old. */
  ghost predicate Kept(log: seq<real>, h: seq<real>, now: real) {
    && |h| <= |log| && h == log[|log| - |h|..]
    && Sorted(log)
    && (forall i :: 0 <= i < |log| ==> log[i] <= now)
    && (forall i :: 0 <= i < |log| - |h| ==> log[i] < now - DAY)
  }

  lemma {:induction false} PruneDropsOld(h: seq<real>, cutoff: real)
    ensures var kept := Prune(h, cutoff);
            && |kept| <= |h| && kept == h[|h| - |kept|..]
            && (forall i :: 0 <= i < |h| - |kept| ==> h[i] < cutoff)
            && (kept != [] ==> kept[0] >= cutoff)
  {
    if h != [] && h[0] < cutoff {
      PruneDropsOld(h[1..], cutoff);
      assert forall i :: 1 <= i < |h| ==> h[i] == h[1..][i - 1];
    }
  }

  lemma {:induction false} BisectSplits(h: seq<real>, x: real)
    ensures forall j :: 0 <= j < BisectLeft(h, x) ==> h[j] < x
  {
    if h != [] && h[0] < x {
      BisectSplits(h[1..], x);
      assert forall j :: 1 <= j < |h| ==> h[j] == h[1..][j - 1];
    }
  }

  /** When the window has room for these units again, if it is full now. */
  function Release(h: seq<real>, cap: int, span: real, units: nat): Option<real>
    requires 1 <= units <= cap
  {
    if |h| + units <= cap then None else Some(h[|h| + units - cap - 1] + span)
  }

  /** A window's wait, computed from a count and an index, is the time left until its release. */
  lemma WaitIsTimeToRelease(h: seq<real>, idx: nat, cap: int, span: real, now: real, units: nat)
    requires Sorted(h) && 1 <= units <= cap && idx <= |h|
    requires forall j :: 0 <= j < idx ==> h[j] < now - span
    ensures WindowWait(h, idx, Some(cap), span, now, units)
            == match Release(h, cap, span, units) case None => 0.0 case Some(r) => Max(0.0, r - now)
  {
  }

  /** Only a window whose release has come lets a request through. */
  lemma GrantedAfterRelease(spec: RateLimitSpec, h: seq<real>, now: real, cap: int, span: real, units: nat)
    requires Sorted(h) && 1 <= units <= cap && IsWindow(spec, cap, span)
    requires WindowsWait(spec, h, now, units) == 0.0
    requires h != [] ==> h[0] >= now - DAY
    ensures match Release(h, cap, span, units) case None => true case Some(r) => r <= now
  {
    if span == MINUTE {
      BisectSplits(h, now - MINUTE);
      WaitIsTimeToRelease(h, BisectLeft(h, now - MINUTE), cap, span, now, units);
    } else if span == HOUR {
      BisectSplits(h, now - HOUR);
      WaitIsTimeToRelease(h, BisectLeft(h, now - HOUR), cap, span, now, units);
    } else {
      WaitIsTimeToRelease(h, 0, cap, span, now, units);
    }
  }

  lemma PruneKeeps(log: seq<real>, h: seq<real>, before: real, now: real)
    requires Kept(log, h, before) && before <= now
    ensures Kept(log, Prune(h, now - DAY), now)
    ensures var kept := Prune(h, now - DAY); Sorted(kept) && (kept != [] ==> kept[0] >= now - DAY)
  {
    PruneDropsOld(h, now - DAY);
  }

  lemma AppendKeeps(log: seq<real>, h: seq<real>, now: real, units: nat)
    requires Kept(log, h, now)
    ensures Kept(log + Repeat(now, units), h + Repeat(now, units), now)
  {
  }

  lemma StepKeeps(spec: RateLimitSpec, s: Category, a: Attempt, log: seq<real>, before: real)
    requires Kept(log, s.history, before) && before <= a.now
    ensures var o := Step(spec, s, a);
            Kept(log + if o.granted then Repeat(a.now, Units(a.cost)) else [], o.after.history, a.now)
  {
    PruneKeeps(log, s.history, before, a.now);
    AppendKeeps(log, Prune(s.history, a.now - DAY), a.now, Units(a.cost));
    assert log + [] == log;
  }

  lemma {:induction false} RunKeeps(spec: RateLimitSpec, t: Trace<Attempt>, from: real)
    requires Chronological(t, from)
    ensures Kept(Log(spec, UNUSED, t), Run(spec, UNUSED, t).history, Latest(t, from))
  {
    if t.Then? {
      RunKeeps(spec, t.earlier, from);
      StepKeeps(spec, Run(spec, UNUSED, t.earlier), t.last, Log(spec, UNUSED, t.earlier), Latest(t.earlier, from));
    }
  }

  /** Appending to a window whose release has come keeps the spacing. */
  lemma AppendKeepsSpacing(log: seq<real>, h: seq<real>, now: real, units: nat, cap: int, span: real)
    requires Kept(log, h, now) && Spaced(log, cap, span) && 1 <= units <= cap && span <= DAY
    requires match Release(h, cap, span, units) case None => true case Some(r) => r <= now
    ensures Spaced(log + Repeat(now, units), cap, span)
  {
    var latest := |log| + units - cap - 1;
    assert 0 <= latest < |log| ==> log[latest] <= now - span by {
      if |log| - |h| <= latest < |log| {
        assert log[latest] == h[latest - (|log| - |h|)];
      }
    }
    var log' := log + Repeat(now, units);
    forall i, j | 0 <= i < j < |log'| && j - i >= cap ensures log'[j] - log'[i] >= span {
      if j >= |log| {
        assert i <= latest && log[i] <= log[latest];
      }
    }
  }

  /** One grant keeps a window's cap exactly when it is not itself larger than the cap. */
  lemma GrantKeepsWindow(spec: RateLimitSpec, s: Category, a: Attempt, log: seq<real>, before: real, cap: int,
                         span: real)
    requires spec.Valid() && IsWindow(spec, cap, span)
    requires Kept(log, s.history, before) && before <= a.now && Spaced(log, cap, span)
    requires Step(spec, s, a).granted
    ensures Spaced(log + Repeat(a.now, Units(a.cost)), cap, span) <==> Units(a.cost) <= cap
  {
    var units := Units(a.cost);
    if units > cap {
      var log' := log + Repeat(a.now, units);
      assert log'[|log| + cap] - log'[|log|] == 0.0;
    } else {
      hide Spaced, Kept, IsWindow, WindowsWait;
      var h := Prune(s.history, a.now - DAY);
      PruneKeeps(log, s.history, before, a.now);
      assert WindowsWait(spec, h, a.now, units) == 0.0;
      GrantedAfterRelease(spec, h, a.now, cap, span, units);
      AppendKeepsSpacing(log, h, a.now, units, cap, span);
    }
  }

  /** Every granted attempt fits the cap by itself. */
  predicate GrantsFit(spec: RateLimitSpec, s: Category, t: Trace<Attempt>, cap: int) {
    t.Begin? || (&& GrantsFit(spec, s, t.earlier, cap)
                 && (Step(spec, Run(spec, s, t.earlier), t.last).granted ==> Units(t.last.cost) <= cap))
  }

  lemma {:induction false} RunSpaced(spec: RateLimitSpec, t: Trace<Attempt>, from: real, cap: int, span: real)
    requires spec.Valid() && IsWindow(spec, cap, span) && Chronological(t, from)
    ensures Spaced(Log(spec, UNUSED, t), cap, span) <==> GrantsFit(spec, UNUSED, t, cap)
  {
    hide Step, Kept, Repeat, IsWindow;
    if t.Then? {
      hide Spaced;
      RunSpaced(spec, t.earlier, from, cap, span);
      RunKeeps(spec, t.earlier, from);
      var s, log := Run(spec, UNUSED, t.earlier), Log(spec, UNUSED, t.earlier);
      if Step(spec, s, t.last).granted {
        if Spaced(log, cap, span) {
          GrantKeepsWindow(spec, s, t.last, log, Latest(t.earlier, from), cap, span);
        } else {
          CrowdedStaysCrowded(log, Repeat(t.last.now, Units(t.last.cost)), cap, span);
        }
      } else {
        assert log + [] == log;
      }
    }
  }

  lemma CrowdedStaysCrowded(log: seq<real>, more: seq<real>, cap: int, span: real)
    requires !Spaced(log, cap, span)
    ensures !Spaced(log + more, cap, span)
  {
    var i, j :| 0 <= i < j < |log| && j - i >= cap && log[j] - log[i] < span;
    assert (log + more)[j] - (log + more)[i] < span;
  }

  /**
     Over every run from an unused category, whatever the times, costs and kinds of the attempts and
     although the deque is pruned on the way: each configured cap holds in every half-open window
     exactly when no single grant was larger than that cap.
     */
  lemma WindowsHold(spec: RateLimitSpec, t: Trace<Attempt>, from: real, cap: int, span: real)
    requires spec.Valid() && IsWindow(spec, cap, span) && Chronological(t, from)
    ensures WindowRespected(Log(spec, UNUSED, t), cap, span) <==> GrantsFit(spec, UNUSED, t, cap)
  {
    RunSpaced(spec, t, from, cap, span);
    RunKeeps(spec, t, from);
    SpacedIsWindowRespected(Log(spec, UNUSED, t), cap, span);
  }

  /** A cost above a cap falls through the index guard: one call of cost 2 passes a cap of one a minute. */
  lemma OversizedCostSlipsThrough()
    ensures var spec := RateLimitSpec(1.0, 2, Some(1), None, None);
            var run := Then(Begin, Attempt(Try, 0.0, 2.0));
            spec.Valid() && Chronological(run, 0.0) && !WindowRespected(Log(spec, UNUSED, run), 1, MINUTE)
  {
    var spec := RateLimitSpec(1.0, 2, Some(1), None, None);
    var run := Then(Begin, Attempt(Try, 0.0, 2.0));
    assert Units(2.0) == 2;
    assert Step(spec, UNUSED, run.last).granted;
    WindowsHold(spec, run, 0.0, 1, MINUTE);
  }

  // ---------------------------------------------------------------- the token bucket

  /** The cost granted by a run at times within [from, to]. */
  function GrantedCost(spec: RateLimitSpec, s: Category, t: Trace<Attempt>, from: real, to: real): real {
    if t.Begin? then 0.0
    else
      GrantedCost(spec, s, t.earlier, from, to)
      + if from <= t.last.now <= to && Step(spec, Run(spec, s, t.earlier), t.last).granted then t.last.cost else 0.0
  }

  ghost predicate NonNegativeCosts(t: Trace<Attempt>) {
    t.Begin? || (NonNegativeCosts(t.earlier) && t.last.cost >= 0.0)
  }

  lemma {:induction false} GrantedCostNonNegative(spec: RateLimitSpec, s: Category, t: Trace<Attempt>, from: real,
                                                  to: real)
    requires NonNegativeCosts(t)
    ensures GrantedCost(spec, s, t, from, to) >= 0.0
  {
    if t.Then? { GrantedCostNonNegative(spec, s, t.earlier, from, to); }
  }

  /** The tokens a category would have at a later moment. */
  function Available(spec: RateLimitSpec, s: Category, now: real): real {
    Replenish(spec, s.bucket, now).tokens
  }

  ghost predicate BucketOk(spec: RateLimitSpec, s: Category, now: real) {
    s.bucket.Some? ==> s.bucket.value.tokens >= 0.0 && s.bucket.value.updated <= now
  }

  /** The tokens that a span of time brings. */
  function Refill(spec: RateLimitSpec, span: real): real {
    spec.rate * span
  }

  lemma RefillNonNegative(spec: RateLimitSpec, span: real)
    requires spec.Valid() && span >= 0.0
    ensures Refill(spec, span) >= 0.0
  {
  }

  lemma RefillSplits(spec: RateLimitSpec, from: real, mid: real, now: real)
    ensures Refill(spec, now - from) == Refill(spec, mid - from) + Refill(spec, now - mid)
  {
  }

  /** Replenishing adds the refill since the last update, up to the burst. */
  lemma ReplenishRefills(spec: RateLimitSpec, bucket: Option<Bucket>, now: real)
    requires bucket.Some? ==> bucket.value.updated <= now
    ensures Replenish(spec, bucket, now)
            == match bucket
               case None => Bucket(spec.burst as real, now)
               case Some(b) => Bucket(Min(spec.burst as real, b.tokens + Refill(spec, now - b.updated)), now)
  {
  }

  /** Replenishing in two steps or in one makes no difference. */
  lemma ReplenishTwice(spec: RateLimitSpec, bucket: Option<Bucket>, mid: real, now: real)
    requires spec.Valid() && mid <= now
    requires bucket.Some? ==> bucket.value.updated <= mid
    ensures Replenish(spec, Some(Replenish(spec, bucket, mid)), now) == Replenish(spec, bucket, now)
  {
    hide Replenish, Refill;
    ReplenishRefills(spec, bucket, mid);
    ReplenishRefills(spec, bucket, now);
    ReplenishRefills(spec, Some(Replenish(spec, bucket, mid)), now);
    RefillNonNegative(spec, now - mid);
    if bucket.Some? { RefillSplits(spec, bucket.value.updated, mid, now); }
  }

  lemma AvailableGrows(spec: RateLimitSpec, s: Category, mid: real, now: real)
    requires spec.Valid() && BucketOk(spec, s, mid) && mid <= now
    ensures 0.0 <= Available(spec, s, now) <= Available(spec, s, mid) + Refill(spec, now - mid)
    ensures Available(spec, s, now) <= spec.burst as real
  {
    hide Replenish, Refill;
    ReplenishRefills(spec, s.bucket, mid);
    ReplenishRefills(spec, s.bucket, now);
    RefillNonNegative(spec, now - mid);
    if s.bucket.Some? {
      RefillSplits(spec, s.bucket.value.updated, mid, now);
      RefillNonNegative(spec, mid - s.bucket.value.updated);
    }
  }

  /** A step takes exactly the granted cost out of what is available. */
  lemma StepSpends(spec: RateLimitSpec, s: Category, a: Attempt)
    requires spec.Valid() && BucketOk(spec, s, a.now) && a.cost >= 0.0
    ensures var o := Step(spec, s, a);
            && BucketOk(spec, o.after, a.now)
            && Available(spec, o.after, a.now) == Available(spec, s, a.now) - (if o.granted then a.cost else 0.0)
  {
    hide Replenish, Refill, WindowsWait, Prune, TokenWait;
    AvailableGrows(spec, s, a.now, a.now);
    ReplenishRefills(spec, s.bucket, a.now);
    ReplenishRefills(spec, Step(spec, s, a).after.bucket, a.now);
    NoRefill(spec);
  }

  lemma NoRefill(spec: RateLimitSpec)
    ensures Refill(spec, 0.0) == 0.0
  {
  }

  lemma {:induction false} RunBucketOk(spec: RateLimitSpec, t: Trace<Attempt>, start: real)
    requires spec.Valid() && Chronological(t, start) && NonNegativeCosts(t)
    ensures BucketOk(spec, Run(spec, UNUSED, t), Latest(t, start))
  {
    if t.Then? {
      RunBucketOk(spec, t.earlier, start);
      StepSpends(spec, Run(spec, UNUSED, t.earlier), t.last);
    }
  }

  lemma {:induction false} NothingGrantedBefore(spec: RateLimitSpec, s: Category, t: Trace<Attempt>, start: real,
                                                from: real, to: real)
    requires Chronological(t, start) && Latest(t, start) < from
    ensures GrantedCost(spec, s, t, from, to) == 0.0
  {
    if t.Then? {
      NothingGrantedBefore(spec, s, t.earlier, start, from, to);
    }
  }

  /** What was granted since `from` and what is still available are paid for by one burst and the refill. */
  lemma {:induction false} SpentPlusAvailable(spec: RateLimitSpec, t: Trace<Attempt>, start: real, from: real,
                                              to: real, now: real)
    requires spec.Valid() && Chronological(t, start) && NonNegativeCosts(t)
    requires Latest(t, start) <= now && from <= now <= to
    ensures GrantedCost(spec, UNUSED, t, from, to) + Available(spec, Run(spec, UNUSED, t), now)
            <= spec.burst as real + Refill(spec, now - from)
  {
    hide Step, Available, Refill;
    RefillNonNegative(spec, now - from);
    if Latest(t, start) < from || t.Begin? {
      RunBucketOk(spec, t, start);
      AvailableGrows(spec, Run(spec, UNUSED, t), Latest(t, start), now);
      if t.Then? { NothingGrantedBefore(spec, UNUSED, t, start, from, to); }
      assert GrantedCost(spec, UNUSED, t, from, to) == 0.0;
    } else {
      var s, a := Run(spec, UNUSED, t.earlier), t.last;
      SpentPlusAvailable(spec, t.earlier, start, from, to, a.now);
      RunBucketOk(spec, t.earlier, start);
      StepSpends(spec, s, a);
      AvailableGrows(spec, Step(spec, s, a).after, a.now, now);
      RefillSplits(spec, from, a.now, now);
    }
  }

  /** In any interval a category grants at most one burst plus the rate times the interval's length. */
  lemma {:induction false} RateHolds(spec: RateLimitSpec, t: Trace<Attempt>, start: real, from: real, to: real)
    requires spec.Valid() && Chronological(t, start) && NonNegativeCosts(t) && from <= to
    ensures GrantedCost(spec, UNUSED, t, from, to) <= spec.burst as real + Refill(spec, to - from)
  {
    hide Refill, Available;
    RefillNonNegative(spec, to - from);
    if t.Then? && t.last.now > to {
      RateHolds(spec, t.earlier, start, from, to);
    } else if t.Then? {
      hide Step;
      SpentPlusAvailable(spec, t, start, from, to, to);
      RunBucketOk(spec, t, start);
      AvailableGrows(spec, Run(spec, UNUSED, t), Latest(t, start), to);
    }
  }

  // ---------------------------------------------------------------- the wait hint

  /** The cost can be granted at all: it fits the burst and its units fit every cap. */
  predicate Grantable(spec: RateLimitSpec, cost: real) {
    && cost <= spec.burst as real
    && (spec.perMinute.Some? ==> Units(cost) <= spec.perMinute.value)
    && (spec.perHour.Some? ==> Units(cost) <= spec.perHour.value)
    && (spec.perDay.Some? ==> Units(cost) <= spec.perDay.value)
  }

  /** Every configured window has room for these units after the grants of a log. */
  ghost predicate HasRoom(spec: RateLimitSpec, log: seq<real>, now: real, units: nat) {
    && (spec.perMinute.Some? ==> |Window(log, now, 60.0)| + units <= spec.perMinute.value)
    && (spec.perHour.Some? ==> |Window(log, now, 3600.0)| + units <= spec.perHour.value)
    && (spec.perDay.Some? ==> |Window(log, now, 86400.0)| + units <= spec.perDay.value)
  }

  /** How many entries of a sorted log are at most x. */
  lemma CountUpTo(log: seq<real>, x: real) returns (n: nat)
    requires Sorted(log)
    ensures n <= |log| && forall i :: 0 <= i < |log| ==> (i < n <==> log[i] <= x)
  {
    n := |log|;
    while n > 0 && log[n - 1] > x
      invariant n <= |log| && forall i :: n <= i < |log| ==> log[i] > x
    {
      n := n - 1;
    }
  }

  lemma TailIsWindow(log: seq<real>, now: real, span: real, n: nat)
    requires n <= |log| && forall i :: 0 <= i < |log| ==> (i < n <==> log[i] <= now - span) && log[i] <= now
    ensures |Window(log, now, span)| == |log| - n
  {
    assert Window(log, now, span) == Range(n, |log|);
  }

  /** The window ending now holds the log from some position on; pruned entries lie before it. */
  lemma WindowIsTail(log: seq<real>, h: seq<real>, now: real, span: real) returns (n: nat)
    requires Kept(log, h, now) && span <= DAY
    ensures |log| - |h| <= n <= |log| && |Window(log, now, span)| == |log| - n
    ensures forall i :: 0 <= i < |log| ==> (i < n <==> log[i] <= now - span)
  {
    hide Window;
    n := CountUpTo(log, now - span);
    TailIsWindow(log, now, span, n);
    assert |log| == |h| || log[|log| - |h| - 1] < now - DAY;
  }

  /** A window has room now exactly when its release has come. */
  lemma RoomIsRelease(log: seq<real>, h: seq<real>, now: real, cap: int, span: real, units: nat)
    requires Kept(log, h, now) && 1 <= units <= cap && span <= DAY
    ensures |Window(log, now, span)| + units <= cap
            <==> match Release(h, cap, span, units) case None => true case Some(r) => r <= now
  {
    var n := WindowIsTail(log, h, now, span);
    hide Window;
    var k := |h| + units - cap - 1;
    if k >= 0 { assert h[k] == log[|log| - |h| + k]; }
  }

  /** One window asks for no wait exactly when it has room. */
  lemma NoWaitIsRoom(log: seq<real>, h: seq<real>, idx: nat, now: real, cap: Option<int>, span: real, units: nat)
    requires Kept(log, h, now) && Sorted(h) && idx <= |h| && units >= 1 && span <= DAY
    requires cap.Some? ==> units <= cap.value
    requires forall j :: 0 <= j < idx ==> h[j] < now - span
    ensures WindowWait(h, idx, cap, span, now, units) == 0.0
            <==> cap.Some? ==> |Window(log, now, span)| + units <= cap.value
  {
    if cap.Some? {
      WaitIsTimeToRelease(h, idx, cap.value, span, now, units);
      RoomIsRelease(log, h, now, cap.value, span, units);
      hide Window, Kept, WindowWait;
    }
  }

  /**
     After any run an attempt that can be granted at all is granted if and only if every configured window has room
     for it and the tokens are there: nothing is held back for longer than the limits ask.
     */
  lemma GrantedExactly(spec: RateLimitSpec, t: Trace<Attempt>, from: real, a: Attempt)
    requires Chronological(t, from) && Latest(t, from) <= a.now && Grantable(spec, a.cost)
    ensures Step(spec, Run(spec, UNUSED, t), a).granted
            <==> && HasRoom(spec, Log(spec, UNUSED, t), a.now, Units(a.cost))
                 && Available(spec, Run(spec, UNUSED, t), a.now) >= a.cost
  {
    var s, log := Run(spec, UNUSED, t), Log(spec, UNUSED, t);
    hide Step, Run, Log, Kept, Window, WindowsWait, Units;
    RunKeeps(spec, t, from);
    PruneKeeps(log, s.history, Latest(t, from), a.now);
    StepDecides(spec, s, a);
    NoWaitsIsRoom(spec, log, Prune(s.history, a.now - DAY), a.now, Units(a.cost));
  }

  lemma NoWaitsIsRoom(spec: RateLimitSpec, log: seq<real>, h: seq<real>, now: real, units: nat)
    requires Kept(log, h, now) && Sorted(h) && units >= 1
    requires (spec.perMinute.Some? ==> units <= spec.perMinute.value)
    requires (spec.perHour.Some? ==> units <= spec.perHour.value) && (spec.perDay.Some? ==> units <= spec.perDay.value)
    ensures WindowsWait(spec, h, now, units) == 0.0 <==> HasRoom(spec, log, now, units)
  {
    BisectSplits(h, now - MINUTE);
    BisectSplits(h, now - HOUR);
    hide Kept, Window, WindowWait, BisectLeft;
    NoWaitIsRoom(log, h, BisectLeft(h, now - MINUTE), now, spec.perMinute, 60.0, units);
    NoWaitIsRoom(log, h, BisectLeft(h, now - HOUR), now, spec.perHour, 3600.0, units);
    NoWaitIsRoom(log, h, 0, now, spec.perDay, 86400.0, units);
  }

  lemma {:induction false} PruneTwice(h: seq<real>, cutoff: real, later: real)
    requires cutoff <= later
    ensures Prune(Prune(h, cutoff), later) == Prune(h, later)
  {
    if h != [] && h[0] < cutoff { PruneTwice(h[1..], cutoff, later); }
  }

  /** Dropping entries older than a day keeps a window's release, or drops it with an entry out of the window. */
  lemma ReleaseAfterPrune(h: seq<real>, cap: int, span: real, units: nat, t: real)
    requires Sorted(h) && 1 <= units <= cap && 0.0 < span <= DAY
    ensures var kept := Prune(h, t - DAY);
            match Release(h, cap, span, units)
            case None => Release(kept, cap, span, units) == None
            case Some(r) =>
              Release(kept, cap, span, units) == Some(r) || (Release(kept, cap, span, units) == None && r <= t)
  {
    PruneDropsOld(h, t - DAY);
    hide Prune;
    var kept := Prune(h, t - DAY);
    var e := |h| + units - cap - 1;
    if 0 <= e < |h| - |kept| { assert h[e] < t - DAY; }
  }

  /** While nothing is granted, the wait of one window runs down at the speed of the clock. */
  lemma WindowWaitDecays(h: seq<real>, idx: nat, cap: Option<int>, span: real, now: real, units: nat,
                         kept: seq<real>, later: nat, t: real)
    requires Sorted(h) && (cap.Some? ==> 1 <= units <= cap.value) && idx <= |h| && 0.0 < span <= DAY
    requires forall j :: 0 <= j < idx ==> h[j] < now - span
    requires now <= t && later <= |kept| && kept == Prune(h, t - DAY)
    requires forall j :: 0 <= j < later ==> kept[j] < t - span
    ensures WindowWait(kept, later, cap, span, t, units)
            == Max(0.0, WindowWait(h, idx, cap, span, now, units) - (t - now))
  {
    PruneDropsOld(h, t - DAY);
    if cap.Some? {
      hide WindowWait, Release, Prune;
      WaitIsTimeToRelease(h, idx, cap.value, span, now, units);
      WaitIsTimeToRelease(kept, later, cap.value, span, t, units);
      ReleaseAfterPrune(h, cap.value, span, units, t);
    }
  }

  lemma WindowsWaitDecays(spec: RateLimitSpec, h: seq<real>, now: real, cost: real, t: real)
    requires Sorted(h) && Grantable(spec, cost) && now <= t
    ensures WindowsWait(spec, Prune(h, t - DAY), t, Units(cost))
            == Max(0.0, WindowsWait(spec, h, now, Units(cost)) - (t - now))
  {
    var kept, units := Prune(h, t - DAY), Units(cost);
    PruneDropsOld(h, t - DAY);
    BisectSplits(h, now - MINUTE); BisectSplits(kept, t - MINUTE);
    BisectSplits(h, now - HOUR); BisectSplits(kept, t - HOUR);
    WindowWaitDecays(h, BisectLeft(h, now - MINUTE), spec.perMinute, MINUTE, now, units, kept,
                     BisectLeft(kept, t - MINUTE), t);
    WindowWaitDecays(h, BisectLeft(h, now - HOUR), spec.perHour, HOUR, now, units, kept, BisectLeft(kept, t - HOUR), t);
    WindowWaitDecays(h, 0, spec.perDay, DAY, now, units, kept, 0, t);
  }

  /** A refused attempt prunes, and refills the bucket or leaves it alone. */
  lemma RefusalPrunes(spec: RateLimitSpec, s: Category, a: Attempt)
    requires !Step(spec, s, a).granted
    ensures var after := Step(spec, s, a).after;
            && after.history == Prune(s.history, a.now - DAY)
            && (after.bucket == s.bucket || after.bucket == Some(Replenish(spec, s.bucket, a.now)))
            && Replenish(spec, s.bucket, a.now).updated == a.now
  {
    hide WindowsWait, Prune, Units, TokenWait;
  }

  /** Refused attempts change nothing that a later attempt can see. */
  lemma {:induction false} RefusalsLeaveNoTrace(spec: RateLimitSpec, s: Category, t: Trace<Attempt>, from: real,
                                                later: real)
    requires spec.Valid() && Chronological(t, from) && AllRefused(spec, s, t) && Latest(t, from) <= later
    requires s.bucket.Some? ==> s.bucket.value.updated <= from
    ensures Prune(Run(spec, s, t).history, later - DAY) == Prune(s.history, later - DAY)
    ensures Replenish(spec, Run(spec, s, t).bucket, later) == Replenish(spec, s.bucket, later)
    ensures Run(spec, s, t).bucket.Some? ==> Run(spec, s, t).bucket.value.updated <= Latest(t, from)
  {
    hide Step, Prune, Replenish;
    if t.Then? {
      RefusalsLeaveNoTrace(spec, s, t.earlier, from, t.last.now);
      RefusalsLeaveNoTrace(spec, s, t.earlier, from, later);
      var before := Run(spec, s, t.earlier);
      RefusalPrunes(spec, before, t.last);
      PruneTwice(before.history, t.last.now - DAY, later - DAY);
      ReplenishTwice(spec, before.bucket, t.last.now, later);
    }
  }

  lemma ReplenishForward(spec: RateLimitSpec, b: Bucket, elapsed: real)
    requires elapsed >= 0.0
    ensures Replenish(spec, Some(b), b.updated + elapsed).tokens
            == Min(spec.burst as real, b.tokens + elapsed * spec.rate)
  {
    assert b.updated + elapsed - b.updated == elapsed;
  }

  /** The missing tokens are there exactly when their wait is over. */
  lemma TokensWhenWaited(spec: RateLimitSpec, tokens: real, cost: real, elapsed: real)
    requires spec.Valid() && cost <= spec.burst as real && elapsed >= 0.0
    ensures Min(spec.burst as real, tokens + elapsed * spec.rate) >= cost <==> elapsed >= TokenWait(spec, tokens, cost)
  {
    MulMono(0.0, elapsed, spec.rate);
    DivAtLeast(cost - tokens, elapsed, spec.rate);
    if elapsed >= (cost - tokens) / spec.rate {
      MulMono((cost - tokens) / spec.rate, elapsed, spec.rate);
    }
  }

  /** When an attempt is granted, and what a refused blocking round leaves behind and hints. */
  lemma StepDecides(spec: RateLimitSpec, s: Category, a: Attempt)
    ensures var h, b := Prune(s.history, a.now - DAY), Replenish(spec, s.bucket, a.now);
            var o, windows := Step(spec, s, a), WindowsWait(spec, h, a.now, Units(a.cost));
            && (o.granted <==> windows == 0.0 && b.tokens >= a.cost)
            && o.hint == Max(windows, TokenWait(spec, b.tokens, a.cost))
            && b.updated == a.now
            && (!o.granted && a.mode.Block? ==> o.after == Category(Some(b), h))
  {
  }

  /**
     The hint is exact.  A blocking round is refused at `now` with hint w; afterwards any further
     attempts are made, all refused.  Then the next try, of the same cost, is granted at time t
     exactly when t is at or after now + w.
     */
  lemma HintIsExact(spec: RateLimitSpec, s: Category, now: real, cost: real, between: Trace<Attempt>, a: Attempt)
    requires spec.Valid() && Grantable(spec, cost) && Sorted(s.history)
    requires s.bucket.Some? ==> s.bucket.value.updated <= now
    requires !Step(spec, s, Attempt(Block, now, cost)).granted
    requires var after := Step(spec, s, Attempt(Block, now, cost)).after;
             Chronological(between, now) && AllRefused(spec, after, between)
    requires a.cost == cost && Latest(between, now) <= a.now
    ensures var refused := Step(spec, s, Attempt(Block, now, cost));
            Step(spec, Run(spec, refused.after, between), a).granted <==> a.now >= now + refused.hint
  {
    hide Step, WindowsWait, Replenish, TokenWait, Prune, Max, Min;
    var first := Attempt(Block, now, cost);
    var after := Step(spec, s, first).after;
    StepDecides(spec, s, first);
    StepDecides(spec, Run(spec, after, between), a);
    PruneDropsOld(s.history, now - DAY);
    ChronologicalFrom(between, now);
    RefusalsLeaveNoTrace(spec, after, between, now, a.now);
    WindowsWaitDecays(spec, after.history, now, cost, a.now);
    var b, elapsed := after.bucket.value, a.now - now;
    var windows, tokens := WindowsWait(spec, after.history, now, Units(cost)), TokenWait(spec, b.tokens, cost);
    assert b.updated == now && b.updated + elapsed == a.now && after.bucket == Some(b);
    ReplenishForward(spec, b, elapsed);
    TokensWhenWaited(spec, b.tokens, cost, elapsed);
    assert Replenish(spec, Run(spec, after, between).bucket, a.now).tokens >= cost <==> elapsed >= tokens;
    assert WindowsWait(spec, Prune(Run(spec, after, between).history, a.now - DAY), a.now, Units(cost))
        == Max(0.0, windows - elapsed);
    BothWaitsOver(windows, tokens, elapsed);
  }

  lemma BothWaitsOver(windows: real, tokens: real, elapsed: real)
    ensures Max(0.0, windows - elapsed) == 0.0 && elapsed >= tokens <==> elapsed >= Max(windows, tokens)
  {
  }

  lemma {:induction false} ChronologicalFrom(t: Trace<Attempt>, from: real)
    requires Chronological(t, from)
    ensures from <= Latest(t, from)
  {
  }

  // ---------------------------------------------------------------- the time budget of acquire

  /** The longest sleep a hinted wait can lead to. */
  function LongestSleep(backoff: Backoff, wait: real): real {
    Min(backoff.maxDelay, Max(backoff.baseDelay, wait + Product(backoff.jitterRatio, wait)))
  }

  /**
     A pause is begun only when the hinted wait fits the budget, but the jittered sleep may be longer
     than the hint: it stays within the budget for every draw exactly when the longest sleep does.
     */
  lemma SleepStaysInBudget(backoff: Backoff, elapsed: real, wait: real, timeout: real)
    requires backoff.Valid() && wait >= 0.0
    ensures (forall draw :: elapsed + SleepDuration(backoff, wait, draw) <= timeout)
            <==> elapsed + LongestSleep(backoff, wait) <= timeout
  {
    hide Product;
    forall draw ensures SleepDuration(backoff, wait, draw) <= LongestSleep(backoff, wait) {
      JitterIsBounded(backoff, wait, draw);
    }
    assert SleepDuration(backoff, wait, backoff.jitterRatio) == LongestSleep(backoff, wait);
  }

  lemma JitterIsBounded(backoff: Backoff, wait: real, draw: real)
    requires backoff.Valid() && wait >= 0.0
    ensures SleepDuration(backoff, wait, draw) <= LongestSleep(backoff, wait)
  {
    hide Product;
    ProductMonoLeft(Max(-backoff.jitterRatio, Min(backoff.jitterRatio, draw)), backoff.jitterRatio, wait);
  }

  /** A sleep that was begun within the budget ends at most the base delay or the largest jitter beyond it. */
  lemma SleepOverrunsLittle(backoff: Backoff, elapsed: real, wait: real, timeout: real, draw: real)
    requires backoff.Valid() && wait >= 0.0 && elapsed >= 0.0 && elapsed + wait <= timeout
    ensures elapsed + SleepDuration(backoff, wait, draw)
            <= timeout + Max(backoff.baseDelay, Product(backoff.jitterRatio, timeout))
  {
    hide Product, SleepDuration;
    JitterIsBounded(backoff, wait, draw);
    ProductMono(wait, timeout, backoff.jitterRatio);
  }

  /** The lag of the clock uses between the last look at the budget and the last round. */
  function LastLags(p: Pacing, n: nat): real
    requires n >= 1
  {
    if n == 1 then Lag(p.lag, UseOf(p, 0))
    else Lag(p.lag, UseOf(p, n - 2) + 2) + Lag(p.lag, UseOf(p, n - 2) + 3) + Lag(p.lag, UseOf(p, n - 1))
  }

  lemma {:induction false} RoundsAreLater(p: Pacing, spec: RateLimitSpec, s: Category, t: Trace<Attempt>)
    requires p.backoff.Valid() && Paced(p, spec, s, t) && t.Then?
    ensures t.last.now >= p.start
  {
    hide Step, SleepDuration, HintOf;
    if t.earlier.Then? { RoundsAreLater(p, spec, s, t.earlier); }
  }

  /**
     How long an acquisition can take: whatever the draws and hints, its last round starts no later than the
     timeout after its start, plus the base delay or the largest jitter, plus the lag of at most three clock uses.
     */
  lemma LastRoundIsInTime(p: Pacing, spec: RateLimitSpec, s: Category, t: Trace<Attempt>)
    requires p.backoff.Valid() && Paced(p, spec, s, t) && t.Then?
    ensures var budget := Max(0.0, p.timeout);
            t.last.now <= p.start + budget + Max(p.backoff.baseDelay, Product(p.backoff.jitterRatio, budget))
                + LastLags(p, t.Length())
  {
    hide Step, SleepDuration, HintOf, Product, Lag;
    if t.earlier.Then? {
      var before := t.earlier;
      var n := before.earlier.Length();
      RoundsAreLater(p, spec, s, before);
      LagNonNegative(p.lag, UseOf(p, n) + 1);
      HintIsOfStep(spec, s, before);
      HintNonNegative(spec, Run(spec, s, before.earlier), before.last);
      SleepOverrunsLittle(p.backoff, AskedAt(p, before) - p.start, HintOf(spec, s, before), p.timeout, p.jitter(n));
    }
  }

  /** An acquisition whose first round can be granted has no other. */
  lemma {:induction false} PromptGrant(p: Pacing, spec: RateLimitSpec, s: Category, t: Trace<Attempt>, cost: real)
    requires p.backoff.Valid() && Paced(p, spec, s, t) && Blocking(t, cost) && t.Then?
    requires AllRefused(spec, s, t.earlier)
    requires Step(spec, s, Attempt(Block, RoundTime(p, spec, s, Begin), cost)).granted
    ensures t == Then(Begin, Attempt(Block, RoundTime(p, spec, s, Begin), cost))
  {
    hide Step, RoundTime, Fits;
    if t.earlier.Then? { PromptGrant(p, spec, s, t.earlier, cost); }
  }

  // ---------------------------------------------------------------- an acquisition that overruns its timeout

  const SHIPPED := Backoff(0.05, 2.0, 0.25)
  const ONE_A_SECOND := RateLimitSpec(1.0, 1, None, None, None)
  const SPENT := Category(Some(Bucket(0.0, 0.0)), [0.0])
  const NO_LAG: nat -> real := i => 0.0
  const LARGEST_DRAWS: nat -> real := n => 0.25

  /** One second of budget, no lag, the largest jitter. */
  function Hurried(): Pacing {
    Pacing(SHIPPED, 1.0, 0.0, NO_LAG, 1, LARGEST_DRAWS)
  }

  /** Refused at once with a hint of one second, granted a second and a quarter later. */
  function LateGrant(): Trace<Attempt> {
    Then(Then(Begin, Attempt(Block, 0.0, 1.0)), Attempt(Block, 1.25, 1.0))
  }

  lemma FirstIsRefused()
    ensures var o := Step(ONE_A_SECOND, SPENT, Attempt(Block, 0.0, 1.0));
            !o.granted && o.hint == 1.0 && o.after == SPENT
  {
    assert Prune([0.0], 0.0 - DAY) == [0.0];
  }

  lemma SecondIsGranted()
    ensures Step(ONE_A_SECOND, SPENT, Attempt(Block, 1.25, 1.0)).granted
  {
    assert Prune([0.0], 1.25 - DAY) == [0.0];
  }

  lemma LateGrantIsPaced()
    ensures Paced(Hurried(), ONE_A_SECOND, SPENT, LateGrant())
    ensures RoundTime(Hurried(), ONE_A_SECOND, SPENT, Begin) == 0.0
    ensures RoundTime(Hurried(), ONE_A_SECOND, SPENT, LateGrant().earlier) == 1.25
  {
    FirstIsRefused();
    hide Step;
    assert SleepDuration(SHIPPED, 1.0, 0.25) == 1.25;
    var one := LateGrant().earlier;
    assert HintOf(ONE_A_SECOND, SPENT, one) == 1.0;
    assert RoundTime(Hurried(), ONE_A_SECOND, SPENT, one) == 1.25;
  }

  /** With this pacing no other run of rounds is possible: it has one round, or is the late grant. */
  lemma {:induction false} OnlyTheLateGrant(t: Trace<Attempt>)
    requires Paced(Hurried(), ONE_A_SECOND, SPENT, t) && Blocking(t, 1.0) && t.Then?
    requires AllRefused(ONE_A_SECOND, SPENT, t.earlier)
    ensures t == LateGrant().earlier || t == LateGrant()
  {
    hide Step, RoundTime, Fits;
    LateGrantIsPaced();
    FirstIsRefused();
    SecondIsGranted();
    if t.earlier.Then? { OnlyTheLateGrant(t.earlier); }
  }

  /** How an acquisition ends after each of the two. */
  lemma HowItEnds()
    ensures Fits(Hurried(), ONE_A_SECOND, SPENT, LateGrant().earlier)
    ensures !Step(ONE_A_SECOND, Run(ONE_A_SECOND, SPENT, Begin), LateGrant().earlier.last).granted
    ensures Step(ONE_A_SECOND, Run(ONE_A_SECOND, SPENT, LateGrant().earlier), LateGrant().last).granted
  {
    hide Step;
    FirstIsRefused();
    SecondIsGranted();
    LateGrantIsPaced();
  }

  /** The overrun, acted out: one token a second, one token just taken, a budget of one second. */
  method AcquireCanOverrun() returns (r: Acquired, returned: real)
    ensures r.Acquired? && returned == 1.25
  {
    hide Step, Paced, Fits, Blocking, AllRefused, Chronological, Run, RoundBudget, HintOf, WokenAt;
    var config := LimitsConfig(map[], ONE_A_SECOND, SHIPPED);
    var bucket := new InMemoryTokenBucket(config);
    var clock := new Clock(0.0, NO_LAG);
    assert config.RateLimit("quotes") == ONE_A_SECOND;
    var taken := bucket.TryAcquire("quotes", 1.0, 0.0);
    FirstTokenIsSpent();
    ghost var rounds, p;
    r, rounds, p := bucket.Acquire("quotes", 1.0, 1.0, clock, LARGEST_DRAWS);
    returned := clock.now;
    assert p == Hurried();
    OnlyTheLateGrant(rounds);
    HowItEnds();
  }

  lemma FirstTokenIsSpent()
    ensures Step(ONE_A_SECOND, UNUSED, Attempt(Try, 0.0, 1.0)).after == SPENT
  {
    assert Repeat(0.0, 1) == [0.0];
  }

  // ---------------------------------------------------------------- runs one after the other

  function Append(t: Trace<Attempt>, more: Trace<Attempt>): Trace<Attempt> {
    if more.Begin? then t else Then(Append(t, more.earlier), more.last)
  }

  lemma {:induction false} AppendRun(spec: RateLimitSpec, s: Category, t: Trace<Attempt>, more: Trace<Attempt>,
                                     start: real, from: real)
    requires Chronological(t, start) && start <= from && Chronological(more, from) && Latest(t, start) <= from
    ensures Run(spec, s, Append(t, more)) == Run(spec, Run(spec, s, t), more)
    ensures Chronological(Append(t, more), start)
    ensures Latest(Append(t, more), start) == if more.Begin? then Latest(t, start) else more.last.now
  {
    hide Step;
    if more.Then? {
      AppendRun(spec, s, t, more.earlier, start, from);
    }
  }

  lemma {:induction false} AppendGrants(spec: RateLimitSpec, s: Category, t: Trace<Attempt>, more: Trace<Attempt>,
                                        start: real, now: real, from: real, to: real)
    requires Chronological(t, start) && start <= now && Chronological(more, now) && Latest(t, start) <= now
    requires AllRefused(spec, Run(spec, s, t), more)
    ensures GrantedCost(spec, s, Append(t, more), from, to) == GrantedCost(spec, s, t, from, to)
  {
    hide Step;
    if more.Then? {
      AppendGrants(spec, s, t, more.earlier, start, now, from, to);
      AppendRun(spec, s, t, more.earlier, start, now);
    }
  }

  lemma {:induction false} AppendCosts(t: Trace<Attempt>, more: Trace<Attempt>, cost: real)
    requires NonNegativeCosts(t) && Blocking(more, cost) && cost >= 0.0
    ensures NonNegativeCosts(Append(t, more))
  {
    if more.Then? { AppendCosts(t, more.earlier, cost); }
  }

  /** One blocking acquisition adds its own cost, at the time of its last round, exactly when that is granted. */
  lemma AcquisitionGrants(spec: RateLimitSpec, s: Category, t: Trace<Attempt>, rounds: Trace<Attempt>,
                          start: real, now: real, from: real, to: real)
    requires Chronological(t, start) && start <= now && Chronological(rounds, now) && Latest(t, start) <= now
    requires rounds.Then? && AllRefused(spec, Run(spec, s, t), rounds.earlier)
    ensures GrantedCost(spec, s, Append(t, rounds), from, to)
            == GrantedCost(spec, s, t, from, to)
               + if from <= rounds.last.now <= to
                    && Step(spec, Run(spec, Run(spec, s, t), rounds.earlier), rounds.last).granted
                 then rounds.last.cost else 0.0
  {
    hide Step;
    AppendGrants(spec, s, t, rounds.earlier, start, now, from, to);
    AppendRun(spec, s, t, rounds.earlier, start, now);
  }

  // ---------------------------------------------------------------- all categories together

  /** An attempt and the category it is made in. */
  datatype Use = Use(category: string, attempt: Attempt)

  /** The attempts of a run that were made in one category. */
  function Only(t: Trace<Use>, category: string): Trace<Attempt> {
    if t.Begin? then Begin
    else if t.last.category == category then Then(Only(t.earlier, category), t.last.attempt)
    else Only(t.earlier, category)
  }

  /** What the limiter remembers about a category after a run over all of them. */
  function StateOf(config: LimitsConfig, t: Trace<Use>, category: string): Category {
    if t.Begin? then UNUSED
    else if t.last.category == category then
      Step(config.RateLimit(category), StateOf(config, t.earlier, category), t.last.attempt).after
    else StateOf(config, t.earlier, category)
  }

  ghost predicate InOrder(t: Trace<Use>, from: real) {
    t.Then? ==>
      && InOrder(t.earlier, from) && from <= t.last.attempt.now && t.last.attempt.cost >= 0.0
      && (t.earlier.Then? ==> t.earlier.last.attempt.now <= t.last.attempt.now)
  }

  lemma {:induction false} OnlyIsChronological(t: Trace<Use>, category: string, from: real)
    requires InOrder(t, from)
    ensures Chronological(Only(t, category), from) && NonNegativeCosts(Only(t, category))
    ensures from <= Latest(Only(t, category), from) <= if t.Begin? then from else t.last.attempt.now
  {
    if t.Then? { OnlyIsChronological(t.earlier, category, from); }
  }

  lemma {:induction false} StateIsOwnRun(config: LimitsConfig, t: Trace<Use>, category: string, spec: RateLimitSpec)
    requires config.Governs(category, spec)
    ensures StateOf(config, t, category) == Run(spec, UNUSED, Only(t, category))
  {
    hide Step;
    if t.Then? { StateIsOwnRun(config, t.earlier, category, spec); }
  }

  /**
     However the uses of different categories are interleaved, each category is granted what its own run under the
     limits configured for it is granted: its own burst and rate bound the cost, and its own caps hold exactly when
     no single grant is larger.
     */
  lemma OwnLimitsHold(config: LimitsConfig, t: Trace<Use>, start: real, category: string, spec: RateLimitSpec,
                      from: real, to: real)
    requires config.Valid() && config.Governs(category, spec) && InOrder(t, start) && from <= to
    ensures StateOf(config, t, category) == Run(spec, UNUSED, Only(t, category))
    ensures GrantedCost(spec, UNUSED, Only(t, category), from, to) <= spec.burst as real + Refill(spec, to - from)
    ensures forall cap, span :: IsWindow(spec, cap, span) ==>
              (WindowRespected(Log(spec, UNUSED, Only(t, category)), cap, span)
               <==> GrantsFit(spec, UNUSED, Only(t, category), cap))
  {
    hide Step, WindowRespected, GrantsFit, Log, GrantedCost, Run, Refill, IsWindow;
    StateIsOwnRun(config, t, category, spec);
    OnlyIsChronological(t, category, start);
    RateHolds(spec, Only(t, category), start, from, to);
    forall cap, span | IsWindow(spec, cap, span)
      ensures WindowRespected(Log(spec, UNUSED, Only(t, category)), cap, span)
              <==> GrantsFit(spec, UNUSED, Only(t, category), cap)
    {
      WindowsHold(spec, Only(t, category), start, cap, span);
    }
  }

  /** One quote a second while everything else may burst to twenty: the second quote in the same moment is refused. */
  method SecondQuoteIsRefused() returns (first: bool, second: bool)
    ensures first && !second
  {
    hide Step;
    var config := LimitsConfig(map["quotes" := ONE_A_SECOND], RateLimitSpec(10.0, 20, None, None, None), SHIPPED);
    var bucket := new InMemoryTokenBucket(config);
    FirstTokenIsSpent();
    SecondTryIsRefused();
    first := bucket.TryAcquire("quotes", 1.0, 0.0);
    second := bucket.TryAcquire("quotes", 1.0, 0.0);
  }

  lemma SecondTryIsRefused()
    ensures Step(ONE_A_SECOND, UNUSED, Attempt(Try, 0.0, 1.0)).granted
    ensures !Step(ONE_A_SECOND, SPENT, Attempt(Try, 0.0, 1.0)).granted
  {
  }
}

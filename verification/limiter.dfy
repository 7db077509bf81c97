/**
 The in-memory rate limiter (backend/app/dhan/limiter.py): a token bucket together with three
 sliding windows over one pruned deque of grant timestamps.

 `Step` is one pass under the lock on the state of one category; `InMemoryTokenBucket` carries the
 dictionaries and is proved to perform exactly `Step`.  What a whole run of steps guarantees is in
 limiter_runs.dfy.
 */
module RateLimiter {
  import opened Common

  const MINUTE := 60.0
  const HOUR := 3600.0
  const DAY := 86400.0

  datatype RateLimitSpec = RateLimitSpec(rate: real, burst: int,
                                         perMinute: Option<int>, perHour: Option<int>, perDay: Option<int>)
  {
    /** The field constraints of the configuration model. */
    predicate Valid() {
      && rate > 0.0 && burst >= 1
      && (perMinute.Some? ==> perMinute.value >= 1)
      && (perHour.Some? ==> perHour.value >= 1)
      && (perDay.Some? ==> perDay.value >= 1)
    }
  }

  datatype Backoff = Backoff(baseDelay: real, maxDelay: real, jitterRatio: real)
  {
    predicate Valid() {
      baseDelay > 0.0 && maxDelay > 0.0 && 0.0 <= jitterRatio <= 1.0
    }
  }

  datatype LimitsConfig = LimitsConfig(categories: map<string, RateLimitSpec>,
                                       defaultLimit: RateLimitSpec, backoff: Backoff)
  {
    predicate Valid() {
      && defaultLimit.Valid() && backoff.Valid()
      && forall c :: c in categories ==> categories[c].Valid()
    }

    /** A category of one underlying's option chain, listed or not. */
    predicate OfChain(category: string) {
      |category| >= 13 && category[..13] == "option_chain:"
    }

    /** The limits that hold for a category: its own, or those of all option chains, or the default ones. */
    ghost predicate Governs(category: string, spec: RateLimitSpec) {
      || (category in categories && spec == categories[category])
      || (category !in categories && OfChain(category) && "option_chain" in categories
          && spec == categories["option_chain"])
      || (category !in categories && !(OfChain(category) && "option_chain" in categories) && spec == defaultLimit)
    }

    /** An unlisted "option_chain:<underlying>" category shares the limits of "option_chain". */
    function RateLimit(category: string): (spec: RateLimitSpec)
      ensures Governs(category, spec) && (Valid() ==> spec.Valid())
    {
      if category in categories then categories[category]
      else if "option_chain:" <= category && "option_chain" in categories then categories["option_chain"]
      else defaultLimit
    }
  }

  datatype Bucket = Bucket(tokens: real, updated: real)

  /** Everything the limiter remembers about one category. */
  datatype Category = Category(bucket: Option<Bucket>, history: seq<real>)

  const UNUSED := Category(None, [])

  /** How many timestamps a grant of this cost appends. */
  function Units(cost: real): (n: nat)
    ensures n >= 1
  {
    if cost >= 1.0 then cost.Floor else 1
  }

  /** A cost counts by its whole units, and as one at least. */
  lemma UnitsAreWhole(cost: real)
    ensures cost < 2.0 ==> Units(cost) == 1
    ensures cost >= 1.0 ==> Units(cost) as real <= cost < Units(cost) as real + 1.0
  {
  }

  function Prune(history: seq<real>, cutoff: real): seq<real> {
    if history != [] && history[0] < cutoff then Prune(history[1..], cutoff) else history
  }

  /** The library's leftmost insertion point. */
  function BisectLeft(h: seq<real>, x: real): (i: nat)
    ensures i <= |h|
  {
    if h == [] || h[0] >= x then 0 else 1 + BisectLeft(h[1..], x)
  }

  /** The wait one window asks for, counting the entries of h from position idx on. */
  function WindowWait(h: seq<real>, idx: nat, cap: Option<int>, span: real, now: real, units: nat): (wait: real)
    requires idx <= |h|
    ensures wait >= 0.0
  {
    if cap.None? || |h| - idx + units <= cap.value then 0.0
    else
      var excess := |h| - idx + units - cap.value;
      var expire := idx + excess - 1;
      if 0 <= expire < |h| then Max(0.0, h[expire] + span - now) else 0.0
  }

  /** The largest of the three window waits, on a deque already pruned at `now`. */
  function WindowsWait(spec: RateLimitSpec, h: seq<real>, now: real, units: nat): (wait: real)
    ensures wait >= 0.0
  {
    Max(WindowWait(h, BisectLeft(h, now - MINUTE), spec.perMinute, MINUTE, now, units),
        Max(WindowWait(h, BisectLeft(h, now - HOUR), spec.perHour, HOUR, now, units),
            WindowWait(h, 0, spec.perDay, DAY, now, units)))
  }

  function Replenish(spec: RateLimitSpec, bucket: Option<Bucket>, now: real): Bucket {
    match bucket
    case None => Bucket(spec.burst as real, now)
    case Some(b) =>
      Bucket(Min(spec.burst as real, b.tokens + Max(0.0, now - b.updated) * spec.rate), now)
  }

  function TokenWait(spec: RateLimitSpec, tokens: real, cost: real): real {
    if tokens >= cost then 0.0 else if spec.rate > 0.0 then (cost - tokens) / spec.rate else 1.0
  }

  /** A non-blocking try, or one round of the blocking loop: the latter replenishes even when a window refuses. */
  datatype Mode = Try | Block

  datatype Attempt = Attempt(mode: Mode, now: real, cost: real)

  datatype Outcome = Outcome(after: Category, granted: bool, hint: real)

  function Step(spec: RateLimitSpec, s: Category, a: Attempt): Outcome {
    var h := Prune(s.history, a.now - DAY);
    var windows := WindowsWait(spec, h, a.now, Units(a.cost));
    var b := Replenish(spec, s.bucket, a.now);
    var hint := Max(windows, TokenWait(spec, b.tokens, a.cost));
    if windows > 0.0 then
      Outcome(Category(if a.mode.Block? then Some(b) else s.bucket, h), false, hint)
    else if b.tokens >= a.cost then
      Outcome(Category(Some(Bucket(b.tokens - a.cost, a.now)), h + Repeat(a.now, Units(a.cost))), true, hint)
    else
      Outcome(Category(Some(b), h), false, hint)
  }

  /** The time that passes unnoticed before the i-th use of a clock. */
  function Lag(lag: nat -> real, i: nat): real {
    Max(0.0, lag(i))
  }

  /** A clock that never runs backwards; how much time passes between its uses is an arbitrary input. */
  class Clock {
    const lag: nat -> real
    var now: real
    var readings: nat

    constructor (start: real, lag: nat -> real)
      ensures now == start && this.lag == lag && readings == 0
    {
      now, readings, this.lag := start, 0, lag;
    }

    method Read() returns (t: real)
      modifies this
      ensures t == now == old(now) + Lag(lag, old(readings)) && readings == old(readings) + 1
    {
      now := now + Max(0.0, lag(readings));
      readings := readings + 1;
      t := now;
    }

    /** Time spent on something that does not look at the clock. */
    method Elapse(seconds: real)
      modifies this`now
      ensures now == old(now) + Max(0.0, seconds)
    {
      now := now + Max(0.0, seconds);
    }

    method Sleep(seconds: real)
      modifies this
      ensures now == old(now) + Max(0.0, seconds) + Lag(lag, old(readings)) && readings == old(readings) + 1
    {
      now := now + Max(0.0, seconds) + Max(0.0, lag(readings));
      readings := readings + 1;
    }
  }

  /** What a blocking acquisition ends with: the seconds waited, or the time-out error. */
  datatype Acquired = Acquired(waited: real) | TimedOut(elapsed: real, wait: real)

  /** Attempts made one after the other, none before `from`. */
  ghost predicate Chronological(t: Trace<Attempt>, from: real) {
    t.Begin? || (Chronological(t.earlier, from) && from <= t.last.now && Latest(t.earlier, from) <= t.last.now)
  }

  /** The time of the last attempt, or `from` when there is none. */
  function Latest(t: Trace<Attempt>, from: real): real {
    if t.Begin? then from else t.last.now
  }

  /** The state after a run. */
  function Run(spec: RateLimitSpec, s: Category, t: Trace<Attempt>): Category {
    if t.Begin? then s else Step(spec, Run(spec, s, t.earlier), t.last).after
  }

  predicate AllRefused(spec: RateLimitSpec, s: Category, t: Trace<Attempt>) {
    t.Begin? || (AllRefused(spec, s, t.earlier) && !Step(spec, Run(spec, s, t.earlier), t.last).granted)
  }

  /** The jittered sleep; `draw` is the uniform random number, kept within the configured ratio. */
  function SleepDuration(backoff: Backoff, wait: real, draw: real): (seconds: real)
    requires backoff.Valid()
    ensures seconds >= LeastSleep(backoff) > 0.0
  {
    var jitter := Product(Max(-backoff.jitterRatio, Min(backoff.jitterRatio, draw)), wait);
    Min(backoff.maxDelay, Max(backoff.baseDelay, wait + jitter))
  }

  function LeastSleep(backoff: Backoff): real {
    Min(backoff.maxDelay, backoff.baseDelay)
  }

  /** How many rounds fit in a time budget when every refused round but the last sleeps. */
  function RoundBudget(backoff: Backoff, timeout: real): (n: nat)
    requires backoff.Valid()
    ensures n >= 1
  {
    if timeout < 0.0 then 1 else (timeout / LeastSleep(backoff)).Floor + 2
  }

  /** All rounds of the budget but two fit the time at the least sleep each, and one more would not. */
  lemma RoundsAreFew(backoff: Backoff, timeout: real)
    requires backoff.Valid() && timeout >= 0.0
    ensures var n := RoundBudget(backoff, timeout);
            (n - 2) as real * LeastSleep(backoff) <= timeout < (n - 1) as real * LeastSleep(backoff)
  {
    var n := RoundBudget(backoff, timeout);
    DivAtLeast(timeout, (n - 2) as real, LeastSleep(backoff));
    DivAtLeast(timeout, (n - 1) as real, LeastSleep(backoff));
  }

  lemma SleepFits(backoff: Backoff, n: nat, elapsed: real, timeout: real)
    requires backoff.Valid() && Times(n, LeastSleep(backoff)) <= elapsed <= timeout
    ensures n + 1 <= RoundBudget(backoff, timeout) - 1
  {
    TimesIsProduct(n, LeastSleep(backoff));
    TimesIsProduct(0, LeastSleep(backoff));
    MulMono(0.0, n as real, LeastSleep(backoff));
    DivAtLeast(timeout, n as real, LeastSleep(backoff));
  }

  /** The rounds of one blocking acquisition all have the same cost. */
  ghost predicate Blocking(t: Trace<Attempt>, cost: real) {
    t.Begin? || (Blocking(t.earlier, cost) && t.last.mode == Block && t.last.cost == cost)
  }

  /** Everything a blocking acquisition's timing depends on: `first` is the clock use of its first round. */
  datatype Pacing = Pacing(backoff: Backoff, timeout: real, start: real, lag: nat -> real, first: nat,
                           jitter: nat -> real)

  /** What the last round of a run told the caller to wait. */
  function HintOf(spec: RateLimitSpec, s: Category, t: Trace<Attempt>): real
    requires t.Then?
  {
    Step(spec, Run(spec, s, t.earlier), t.last).hint
  }

  /** The clock use of the n-th round; a refused round uses the clock three more times. */
  function UseOf(p: Pacing, n: nat): nat {
    p.first + 4 * n
  }

  /** When the budget is looked at after the last round. */
  function AskedAt(p: Pacing, t: Trace<Attempt>): real
    requires t.Then?
  {
    t.last.now + Lag(p.lag, UseOf(p, t.earlier.Length()) + 1)
  }

  /** The hinted wait fits the budget, so the caller sleeps. */
  predicate Fits(p: Pacing, spec: RateLimitSpec, s: Category, t: Trace<Attempt>)
    requires t.Then?
  {
    AskedAt(p, t) - p.start + HintOf(spec, s, t) <= p.timeout
  }

  /** When the caller is awake again. */
  function WokenAt(p: Pacing, spec: RateLimitSpec, s: Category, t: Trace<Attempt>): real
    requires p.backoff.Valid() && t.Then?
  {
    var n := t.earlier.Length();
    AskedAt(p, t) + SleepDuration(p.backoff, HintOf(spec, s, t), p.jitter(n))
    + Lag(p.lag, UseOf(p, n) + 2) + Lag(p.lag, UseOf(p, n) + 3)
  }

  /** When the round after `t` takes place. */
  function RoundTime(p: Pacing, spec: RateLimitSpec, s: Category, t: Trace<Attempt>): real
    requires p.backoff.Valid()
  {
    (if t.Begin? then p.start else WokenAt(p, spec, s, t)) + Lag(p.lag, UseOf(p, t.Length()))
  }

  /** The rounds of one acquisition happen exactly when the clock, the hints and the draws say. */
  ghost predicate Paced(p: Pacing, spec: RateLimitSpec, s: Category, t: Trace<Attempt>)
    requires p.backoff.Valid()
  {
    t.Then? ==>
      && Paced(p, spec, s, t.earlier) && t.last.now == RoundTime(p, spec, s, t.earlier)
      && (t.earlier.Then? ==> Fits(p, spec, s, t.earlier))
  }

  /**
     The n-th pause of a blocking acquisition that began at `start`: give up when the wait does not
     fit the budget, otherwise sleep.
     */
  method Pause(backoff: Backoff, clock: Clock, start: real, n: nat, wait: real, timeout: real, draw: real)
    returns (r: Option<Acquired>, waited: real)
    requires backoff.Valid() && clock.now - start >= Times(n, LeastSleep(backoff))
    requires n <= RoundBudget(backoff, timeout) - 1 && wait >= 0.0
    modifies clock
    ensures var use := old(clock.readings);
            var asked := old(clock.now) + Lag(clock.lag, use);
            if asked - start + wait > timeout then
              r == Some(TimedOut(asked - start, wait)) && clock.now == asked && clock.readings == use + 1
            else
              && r == None && clock.readings == use + 3 && waited == clock.now - start
              && clock.now
                 == asked + SleepDuration(backoff, wait, draw) + Lag(clock.lag, use + 1) + Lag(clock.lag, use + 2)
              && clock.now - start >= Times(n + 1, LeastSleep(backoff))
              && n + 1 <= RoundBudget(backoff, timeout) - 1
  {
    hide SleepDuration, RoundBudget, Lag;
    LagNonNegative(clock.lag, clock.readings);
    LagNonNegative(clock.lag, clock.readings + 1);
    LagNonNegative(clock.lag, clock.readings + 2);
    var read := clock.Read();
    var elapsed := read - start;
    if elapsed + wait > timeout {
      return Some(TimedOut(elapsed, wait)), 0.0;
    }
    SleepFits(backoff, n, elapsed, timeout);
    var seconds := SleepDuration(backoff, wait, draw);
    clock.Sleep(seconds);
    var woken := clock.Read();
    return None, woken - start;
  }

  lemma LagNonNegative(lag: nat -> real, i: nat)
    ensures Lag(lag, i) >= 0.0
  {
  }

  class InMemoryTokenBucket {
    const config: LimitsConfig
    var state: map<string, Bucket>
    var history: map<string, seq<real>>

    constructor (config: LimitsConfig)
      ensures this.config == config
      ensures forall c :: At(c) == UNUSED
    {
      this.config := config;
      state, history := map[], map[];
    }

    ghost function At(category: string): Category
      reads this
    {
      Category(if category in state then Some(state[category]) else None,
               if category in history then history[category] else [])
    }

    /** Nothing outside one category moved. */
    twostate predicate OnlyTouches(category: string)
      reads this
    {
      state - {category} == old(state - {category}) && history - {category} == old(history - {category})
    }

    method ReplenishTokens(category: string, now: real) returns (tokens: real, rate: real, capacity: real)
      modifies this`state
      ensures At(category).bucket == Some(Replenish(config.RateLimit(category), old(At(category)).bucket, now))
      ensures At(category).history == old(At(category)).history
      ensures tokens == At(category).bucket.value.tokens
      ensures rate == config.RateLimit(category).rate && capacity == config.RateLimit(category).burst as real
      ensures OnlyTouches(category)
    {
      var spec := config.RateLimit(category);
      capacity, rate := spec.burst as real, spec.rate;
      if category !in state {
        state := state[category := Bucket(capacity, now)];
        tokens := capacity;
      } else {
        var bucket := state[category];
        var elapsed := Max(0.0, now - bucket.updated);
        tokens := Min(capacity, bucket.tokens + elapsed * rate);
        assert Replenish(spec, Some(bucket), now) == Bucket(tokens, now);
        state := state[category := Bucket(tokens, now)];
      }
    }

    method CheckWindows(category: string, now: real, cost: real) returns (allowed: bool, wait: real)
      modifies this`history
      ensures At(category) == old(At(category)).(history := Prune(old(At(category)).history, now - DAY))
      ensures wait == WindowsWait(config.RateLimit(category), At(category).history, now, Units(cost))
      ensures allowed <==> wait == 0.0
      ensures OnlyTouches(category)
    {
      var spec := config.RateLimit(category);
      var entries := if category in history then history[category] else [];
      while entries != [] && entries[0] < now - DAY
        invariant Prune(entries, now - DAY) == Prune(old(At(category)).history, now - DAY)
      {
        entries := entries[1..];
      }
      history := history[category := entries];

      var units := Units(cost);
      wait := WindowWait(entries, 0, spec.perDay, DAY, now, units);
      wait := Max(WindowWait(entries, BisectLeft(entries, now - HOUR), spec.perHour, HOUR, now, units), wait);
      wait := Max(WindowWait(entries, BisectLeft(entries, now - MINUTE), spec.perMinute, MINUTE, now, units), wait);
      allowed := !(wait > 0.0);
    }

    /** Take the tokens and write one timestamp per unit. */
    method Spend(category: string, now: real, cost: real, tokens: real)
      modifies this
      ensures At(category) == Category(Some(Bucket(tokens - cost, now)),
                                       old(At(category)).history + Repeat(now, Units(cost)))
      ensures OnlyTouches(category)
    {
      state := state[category := Bucket(tokens - cost, now)];
      var entries := if category in history then history[category] else [];
      for k := 0 to Units(cost)
        invariant entries == old(At(category)).history + Repeat(now, k)
      {
        entries := entries + [now];
      }
      history := history[category := entries];
    }

    method TryAcquire(category: string, cost: real, now: real) returns (granted: bool)
      modifies this
      ensures var o := Step(config.RateLimit(category), old(At(category)), Attempt(Try, now, cost));
              At(category) == o.after && granted == o.granted
      ensures category in config.categories ==>
                var o := Step(config.categories[category], old(At(category)), Attempt(Try, now, cost));
                At(category) == o.after && granted == o.granted
      ensures OnlyTouches(category)
    {
      var allowed, _ := CheckWindows(category, now, cost);
      if !allowed { return false; }
      var tokens, _, _ := ReplenishTokens(category, now);
      if tokens >= cost {
        Spend(category, now, cost, tokens);
        return true;
      }
      return false;
    }

    /** One pass of the blocking loop under the lock. */
    method Round(category: string, cost: real, now: real) returns (granted: bool, wait: real)
      modifies this
      ensures var o := Step(config.RateLimit(category), old(At(category)), Attempt(Block, now, cost));
              At(category) == o.after && granted == o.granted && wait == o.hint
      ensures OnlyTouches(category)
    {
      var allowed, windowWait := CheckWindows(category, now, cost);
      var tokens, rate, _ := ReplenishTokens(category, now);
      var tokenWait := 0.0;
      if tokens < cost {
        var deficit := cost - tokens;
        tokenWait := if rate > 0.0 then deficit / rate else 1.0;
      }
      wait := Max(windowWait, tokenWait);
      granted := allowed && tokens >= cost;
      if granted {
        Spend(category, now, cost, tokens);
      }
    }

    /** One iteration of the blocking loop: a round under the lock and, when refused, the pause after it. */
    method RoundThenPause(category: string, cost: real, timeout: real, clock: Clock, start: real, n: nat, draw: real)
      returns (granted: bool, gaveUp: Option<Acquired>, waited: real, ghost now: real)
      requires config.backoff.Valid() && clock.now - start >= Times(n, LeastSleep(config.backoff))
      requires n <= RoundBudget(config.backoff, timeout) - 1
      modifies this, clock
      ensures now == old(clock.now) + Lag(clock.lag, old(clock.readings))
      ensures OnlyTouches(category)
      ensures var o := Step(config.RateLimit(category), old(At(category)), Attempt(Block, now, cost));
              var use := old(clock.readings) + 1;
              var asked := now + Lag(clock.lag, use);
              && At(category) == o.after && granted == o.granted
              && (granted ==> clock.now == now && clock.readings == use)
              && (!granted ==>
                    if asked - start + o.hint > timeout then
                      gaveUp == Some(TimedOut(asked - start, o.hint)) && clock.now == asked && clock.readings == use + 1
                    else
                      && gaveUp == None && clock.readings == use + 3 && waited == clock.now - start
                      && clock.now == asked + SleepDuration(config.backoff, o.hint, draw)
                                      + Lag(clock.lag, use + 1) + Lag(clock.lag, use + 2)
                      && clock.now - start >= Times(n + 1, LeastSleep(config.backoff))
                      && n + 1 <= RoundBudget(config.backoff, timeout) - 1)
    {
      hide Step, RoundBudget, SleepDuration, Lag, Times;
      LagNonNegative(clock.lag, clock.readings);
      var read := clock.Read();
      now := read;
      var wait;
      granted, wait := Round(category, cost, read);
      gaveUp, waited := None, 0.0;
      if !granted {
        HintNonNegative(config.RateLimit(category), old(At(category)), Attempt(Block, now, cost));
        gaveUp, waited := Pause(config.backoff, clock, start, n, wait, timeout, draw);
      }
    }

    /**
     Block until granted or until the next wait would not fit the time budget.  `jitter` is the
     sequence of random draws, `rounds` the passes made under the lock.
     */
    method Acquire(category: string, cost: real, timeout: real, clock: Clock, jitter: nat -> real)
      returns (r: Acquired, ghost rounds: Trace<Attempt>, ghost p: Pacing)
      requires config.Valid()
      modifies this, clock
      ensures OnlyTouches(category)
      ensures rounds.Then? && Blocking(rounds, cost) && Chronological(rounds, old(clock.now))
      ensures AllRefused(config.RateLimit(category), old(At(category)), rounds.earlier)
      ensures At(category) == Run(config.RateLimit(category), old(At(category)), rounds)
      ensures p == Pacing(config.backoff, timeout, old(clock.now) + Lag(clock.lag, old(clock.readings)), clock.lag,
                          old(clock.readings) + 1, jitter)
      ensures Paced(p, config.RateLimit(category), old(At(category)), rounds)
      ensures var spec, before := config.RateLimit(category), old(At(category));
              if Step(spec, Run(spec, before, rounds.earlier), rounds.last).granted then
                && clock.now == rounds.last.now && clock.readings == UseOf(p, rounds.earlier.Length()) + 1
                && r == Acquired(if rounds.earlier.Begin? then 0.0
                                 else WokenAt(p, spec, before, rounds.earlier) - p.start)
              else
                && clock.now == AskedAt(p, rounds) && !Fits(p, spec, before, rounds)
                && r == TimedOut(clock.now - p.start, HintOf(spec, before, rounds))
      ensures category in config.categories ==> config.RateLimit(category) == config.categories[category]
      ensures old(clock.now) <= p.start <= rounds.last.now <= clock.now
      ensures rounds.Length() <= RoundBudget(config.backoff, timeout)
    {
      hide Step, RoundBudget, SleepDuration, Lag, HintOf, Times;
      var spec := config.RateLimit(category);
      ghost var before := At(category);
      LagNonNegative(clock.lag, clock.readings);
      var start := clock.Read();
      p := Pacing(config.backoff, timeout, start, clock.lag, clock.readings, jitter);
      var totalWaited := 0.0;
      var n := 0;
      rounds := Begin;
      NoTimes(LeastSleep(config.backoff));
      while true
        invariant n == rounds.Length() <= RoundBudget(config.backoff, timeout) - 1
        invariant old(clock.now) <= start <= clock.now && clock.now - start >= Times(n, LeastSleep(config.backoff))
        invariant Chronological(rounds, old(clock.now)) && Latest(rounds, old(clock.now)) <= clock.now
        invariant Blocking(rounds, cost) && AllRefused(spec, before, rounds)
        invariant At(category) == Run(spec, before, rounds)
        invariant OnlyTouches(category)
        invariant Paced(p, spec, before, rounds) && clock.readings == UseOf(p, n)
        invariant rounds.Begin? ==> clock.now == start && totalWaited == 0.0
        invariant rounds.Then? ==> Fits(p, spec, before, rounds) && clock.now == WokenAt(p, spec, before, rounds)
                                   && totalWaited == clock.now - start
        decreases RoundBudget(config.backoff, timeout) - n
      {
        ghost var now;
        var granted, gaveUp, waited;
        LagNonNegative(clock.lag, clock.readings);
        LagNonNegative(clock.lag, clock.readings + 1);
        LagNonNegative(clock.lag, clock.readings + 2);
        LagNonNegative(clock.lag, clock.readings + 3);
        granted, gaveUp, waited, now := RoundThenPause(category, cost, timeout, clock, start, n, jitter(n));
        rounds := Then(rounds, Attempt(Block, now, cost));
        HintIsOfStep(spec, before, rounds);
        if granted {
          return Acquired(totalWaited), rounds, p;
        }
        if gaveUp.Some? {
          return gaveUp.value, rounds, p;
        }
        n, totalWaited := n + 1, waited;
      }
    }
  }

  lemma HintIsOfStep(spec: RateLimitSpec, s: Category, t: Trace<Attempt>)
    requires t.Then?
    ensures HintOf(spec, s, t) == Step(spec, Run(spec, s, t.earlier), t.last).hint
  {
    hide Step;
  }

  lemma HintNonNegative(spec: RateLimitSpec, s: Category, a: Attempt)
    ensures Step(spec, s, a).hint >= 0.0
  {
    hide TokenWait;
  }

  lemma NoTimes(x: real)
    ensures Times(0, x) == 0.0
  {
  }
}

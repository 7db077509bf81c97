/**
 The retrying REST client (backend/app/dhan/client.py): one limiter token for every attempt, a
 bounded number of attempts, and the cap on modifications of one order.
 */
module RestClient {
  import opened Common
  import opened RateLimiter
  import opened RateLimiterRuns

  /** What the transport does with one call; a reply carries what its Retry-After header parsed to. */
  datatype Response =
    | Reply(status: int, retryAfter: Option<real>)
    | TransientFailure
    | OtherFailure

  datatype RetryPolicy = RetryPolicy(maxAttempts: nat, baseDelay: real, maxDelay: real, jitterRatio: real)
  {
    predicate Valid() {
      maxAttempts >= 1 && 0.0 < baseDelay <= maxDelay && 0.0 <= jitterRatio <= 1.0
    }

    predicate ShouldRetry(attempt: nat, status: int) {
      attempt < maxAttempts && status in RETRYABLE
    }

    /** Server guidance wins but is capped; otherwise a jittered exponential backoff. */
    function Delay(attempt: nat, retryAfter: Option<real>, draw: real): (seconds: real)
      ensures seconds >= 0.0
    {
      if retryAfter.Some? then Min(Max(retryAfter.value, 0.0), MAX_RETRY_AFTER)
      else
        var capped := Min(Product(baseDelay, PowerOfTwo(if attempt >= 1 then attempt - 1 else 0)), maxDelay);
        Max(0.0, capped + Product(capped, Max(-jitterRatio, Min(jitterRatio, draw))))
    }
  }

  const RETRYABLE := {429, 500, 502, 503, 504}
  const MAX_RETRY_AFTER := 120.0
  const MODIFICATION_CAP := 25

  /** The final word of a request; the first three come from the transport, the others happen before it. */
  datatype Result =
    | Delivered(status: int)
    | Failed
    | GaveUp
    | RateLimited(error: Acquired)
    | Unauthenticated

  /** Would the client try again after this response to its k-th attempt? */
  predicate Retried(policy: RetryPolicy, attempt: nat, response: Response) {
    match response
    case Reply(status, _) => policy.ShouldRetry(attempt, status)
    case TransientFailure => attempt < policy.maxAttempts
    case OtherFailure => false
  }

  function RetryAfter(response: Response): Option<real> {
    if response.Reply? then response.retryAfter else None
  }

  function Conclusion(response: Response): Result {
    match response
    case Reply(status, _) => Delivered(status)
    case TransientFailure => GaveUp
    case OtherFailure => Failed
  }

  /** A response is tried again exactly if attempts are left and it is one of the transient ones. */
  lemma RetriedExactly(policy: RetryPolicy, attempt: nat, response: Response)
    ensures Retried(policy, attempt, response)
            <==> && attempt < policy.maxAttempts
                 && (response == TransientFailure
                     || exists status, after :: response == Reply(status, after)
                                                && (status == 429 || status == 500 || 502 <= status <= 504))
  {
    if response.Reply? { assert response == Reply(response.status, response.retryAfter); }
  }

  /** The server is waited for as long as it asks, up to two minutes. */
  lemma GuidanceIsFollowed(policy: RetryPolicy, attempt: nat, seconds: real, draw: real)
    ensures var delay := policy.Delay(attempt, Some(seconds), draw);
            && (0.0 <= seconds <= 120.0 ==> delay == seconds)
            && (seconds < 0.0 ==> delay == 0.0) && (seconds > 120.0 ==> delay == 120.0)
  {
  }

  /** Without guidance the delays start at the base and double up to the limit; the jitter scales them. */
  lemma DelaysDouble(policy: RetryPolicy, attempt: nat, draw: real)
    requires policy.Valid() && attempt >= 1 && -policy.jitterRatio <= draw <= policy.jitterRatio
    ensures policy.Delay(1, None, 0.0) == policy.baseDelay
    ensures policy.Delay(attempt + 1, None, 0.0) == Min(2.0 * policy.Delay(attempt, None, 0.0), policy.maxDelay)
    ensures policy.Delay(attempt, None, draw) == Product(1.0 + draw, policy.Delay(attempt, None, 0.0))
  {
    var base, power := policy.baseDelay, PowerOfTwo(attempt - 1);
    PowerIsPositive(attempt - 1);
    assert PowerOfTwo(attempt) == 2.0 * power && PowerOfTwo(0) == 1.0;
    hide PowerOfTwo;
    Doubled(base, power);
    var capped, next := Min(Product(base, power), policy.maxDelay), Min(2.0 * Product(base, power), policy.maxDelay);
    hide Product;
    JitteredDelay(policy, attempt, draw, capped);
    JitteredDelay(policy, attempt + 1, 0.0, next);
    JitteredDelay(policy, 1, 0.0, base);
  }

  lemma {:induction false} PowerIsPositive(k: nat)
    ensures PowerOfTwo(k) >= 1.0
  {
    if k > 0 { PowerIsPositive(k - 1); }
  }

  lemma Doubled(base: real, power: real)
    requires base > 0.0 && power >= 1.0
    ensures Product(base, 2.0 * power) == 2.0 * Product(base, power) > 0.0
    ensures Product(base, 1.0) == base
  {
  }

  lemma JitteredDelay(policy: RetryPolicy, attempt: nat, draw: real, capped: real)
    requires policy.Valid() && attempt >= 1 && capped > 0.0 && -policy.jitterRatio <= draw <= policy.jitterRatio
    requires capped == Min(Product(policy.baseDelay, PowerOfTwo(attempt - 1)), policy.maxDelay)
    ensures policy.Delay(attempt, None, draw) == Product(1.0 + draw, capped)
    ensures policy.Delay(attempt, None, 0.0) == capped
  {
    hide PowerOfTwo, Product;
    assert Max(-policy.jitterRatio, Min(policy.jitterRatio, draw)) == draw;
    assert Max(-policy.jitterRatio, Min(policy.jitterRatio, 0.0)) == 0.0;
    Jittered(capped, draw);
  }

  lemma Jittered(capped: real, draw: real)
    requires capped > 0.0 && draw >= -1.0
    ensures capped + Product(capped, draw) == Product(1.0 + draw, capped) >= 0.0
    ensures Product(capped, 0.0) == 0.0
  {
  }

  /** The last response decides: a reply is passed on, a transport failure is the end of a retried request. */
  lemma ConcludesExactly(status: int, retryAfter: Option<real>)
    ensures Conclusion(Reply(status, retryAfter)) == Delivered(status)
    ensures Conclusion(TransientFailure) == GaveUp && Conclusion(OtherFailure) == Failed
  {
  }

  /** How many of the given times lie in an interval. */
  function Within(times: seq<real>, from: real, to: real): nat {
    if times == [] then 0
    else Within(times[..|times| - 1], from, to) + if from <= times[|times| - 1] <= to then 1 else 0
  }

  /** One client works through its calls in order: a token, its call, the next token, and all of them before `now`. */
  ghost predicate Alternate(tokens: seq<real>, calls: seq<real>, now: real) {
    && |tokens| == |calls|
    && (forall i :: 0 <= i < |calls| ==> tokens[i] <= calls[i] <= now)
    && (forall i, j :: 0 <= i < j < |calls| ==> calls[i] <= tokens[j])
  }

  lemma {:induction false} NoneWithin(times: seq<real>, from: real, to: real)
    requires forall i :: 0 <= i < |times| ==> times[i] < from
    ensures Within(times, from, to) == 0
  {
    if times != [] { NoneWithin(times[..|times| - 1], from, to); }
  }

  /** A call made in the interval was paid for by a token from before it. */
  ghost predicate Carried(tokens: seq<real>, calls: seq<real>, from: real, to: real)
    requires |tokens| == |calls|
  {
    exists i :: 0 <= i < |calls| && tokens[i] < from <= calls[i] <= to
  }

  /** A token taken in the interval pays for a call after it. */
  ghost predicate Outstanding(tokens: seq<real>, calls: seq<real>, from: real, to: real)
    requires |tokens| == |calls|
  {
    exists i :: 0 <= i < |calls| && from <= tokens[i] <= to < calls[i]
  }

  ghost function One(b: bool): nat {
    if b then 1 else 0
  }

  /** The calls in an interval are its tokens, plus one if a call was carried in, less one if a token is outstanding. */
  lemma {:induction false} CallsMatchTokens(tokens: seq<real>, calls: seq<real>, now: real, from: real, to: real)
    requires Alternate(tokens, calls, now) && from <= to
    ensures Within(calls, from, to) + One(Outstanding(tokens, calls, from, to))
            == Within(tokens, from, to) + One(Carried(tokens, calls, from, to))
  {
    if calls != [] {
      var last := |calls| - 1;
      CallsMatchTokens(tokens[..last], calls[..last], now, from, to);
      LastCarried(tokens, calls, now, from, to);
      LastOutstanding(tokens, calls, now, from, to);
      if tokens[last] < from {
        NoneWithin(tokens[..last], from, to);
        NoneWithin(calls[..last], from, to);
      }
      hide Carried, Outstanding;
    }
  }

  /** A call is carried in by the last pair or by one before it, not both. */
  lemma LastCarried(tokens: seq<real>, calls: seq<real>, now: real, from: real, to: real)
    requires Alternate(tokens, calls, now) && calls != []
    ensures var last := |calls| - 1;
            && (tokens[last] < from ==> !Carried(tokens[..last], calls[..last], from, to))
            && (Carried(tokens, calls, from, to)
                <==> tokens[last] < from <= calls[last] <= to || Carried(tokens[..last], calls[..last], from, to))
  {
    var last := |calls| - 1;
    var t, c := tokens[..last], calls[..last];
    if Carried(t, c, from, to) {
      var i :| 0 <= i < last && t[i] < from <= c[i] <= to;
      assert tokens[i] < from <= calls[i] <= to;
    }
    if Carried(tokens, calls, from, to) {
      var i :| 0 <= i <= last && tokens[i] < from <= calls[i] <= to;
      if i < last { assert t[i] < from <= c[i] <= to; }
    }
  }

  /** A token is left outstanding by the last pair or by one before it, not both. */
  lemma LastOutstanding(tokens: seq<real>, calls: seq<real>, now: real, from: real, to: real)
    requires Alternate(tokens, calls, now) && calls != []
    ensures var last := |calls| - 1;
            && (tokens[last] <= to ==> !Outstanding(tokens[..last], calls[..last], from, to))
            && (Outstanding(tokens, calls, from, to)
                <==> from <= tokens[last] <= to < calls[last] || Outstanding(tokens[..last], calls[..last], from, to))
  {
    var last := |calls| - 1;
    var t, c := tokens[..last], calls[..last];
    if Outstanding(t, c, from, to) {
      var i :| 0 <= i < last && from <= t[i] <= to < c[i];
      assert from <= tokens[i] <= to < calls[i];
    }
    if Outstanding(tokens, calls, from, to) {
      var i :| 0 <= i <= last && from <= tokens[i] <= to < calls[i];
      if i < last { assert from <= t[i] <= to < c[i]; }
    }
  }

  /** So an interval holds more calls than tokens exactly when one was carried in and none is outstanding. */
  lemma CallsExceedTokensExactly(tokens: seq<real>, calls: seq<real>, now: real, from: real, to: real)
    requires Alternate(tokens, calls, now) && from <= to
    ensures Within(calls, from, to) > Within(tokens, from, to)
            <==> Carried(tokens, calls, from, to) && !Outstanding(tokens, calls, from, to)
    ensures Within(calls, from, to) <= Within(tokens, from, to) + 1
  {
    CallsMatchTokens(tokens, calls, now, from, to);
  }

  /** A client's past: the category's run, and the client's own token and call times. */
  datatype History = History(run: Trace<Attempt>, tokens: seq<real>, calls: seq<real>)
  {
    /** Another history goes on from this one with n calls. */
    ghost predicate Extends(later: History, n: nat) {
      tokens <= later.tokens && calls <= later.calls && |later.calls| == |calls| + n
    }
  }

  lemma AlternateLater(h: History, now: real, later: real)
    requires Alternate(h.tokens, h.calls, now) && now <= later
    ensures Alternate(h.tokens, h.calls, later)
  {
  }

  lemma AlternateGrows(h: History, before: real, token: real, call: real, from: real, to: real)
    requires Alternate(h.tokens, h.calls, before) && before <= token <= call
    ensures Alternate(h.tokens + [token], h.calls + [call], call)
    ensures Within(h.tokens + [token], from, to) == Within(h.tokens, from, to) + if from <= token <= to then 1 else 0
  {
    assert (h.tokens + [token])[..|h.tokens|] == h.tokens;
  }

  // ---------------------------------------------------------------- the exact times of one request

  /**
     What a request meets: the answer to its k-th call, the time from the token to the call and that of the call
     itself, and the random draws.
     */
  datatype World = World(response: nat -> Response, before: nat -> real, during: nat -> real,
                         draw: nat -> real, jitter: nat -> nat -> real)

  /** The fixed surroundings of a category's requests. */
  datatype Terms = Terms(policy: RetryPolicy, spec: RateLimitSpec, backoff: Backoff, timeout: real, lag: nat -> real)

  /** The clock, how often it was used, and the category. */
  datatype Moment = Moment(now: real, use: nat, state: Category)

  /** One acquisition: when it began and the rounds it took. */
  datatype Taking = Taking(began: Moment, rounds: Trace<Attempt>)
  {
    function Time(): real {
      if rounds.Begin? then began.now else rounds.last.now
    }
  }

  function PacingOf(terms: Terms, world: World, k: nat, began: Moment): Pacing {
    Pacing(terms.backoff, terms.timeout, began.now + Lag(terms.lag, began.use), terms.lag, began.use + 1,
           world.jitter(k + 1))
  }

  predicate Granted(terms: Terms, t: Taking) {
    t.rounds.Then? && Step(terms.spec, Run(terms.spec, t.began.state, t.rounds.earlier), t.rounds.last).granted
  }

  /** A complete acquisition of one token for attempt k: refused round after round, then granted or out of budget. */
  ghost predicate Complete(terms: Terms, world: World, k: nat, t: Taking)
    requires terms.backoff.Valid()
  {
    var p := PacingOf(terms, world, k, t.began);
    && t.rounds.Then? && Blocking(t.rounds, 1.0) && AllRefused(terms.spec, t.began.state, t.rounds.earlier)
    && Paced(p, terms.spec, t.began.state, t.rounds)
    && (Granted(terms, t) || !Fits(p, terms.spec, t.began.state, t.rounds))
  }

  function SentAt(world: World, k: nat, t: Taking): real {
    t.Time() + Max(0.0, world.before(k))
  }

  function UseAfter(t: Taking): nat {
    t.began.use + 2 + if t.rounds.Begin? then 0 else 4 * t.rounds.earlier.Length()
  }

  /** When the call of attempt k is answered. */
  function AnsweredAt(terms: Terms, world: World, k: nat, t: Taking): Moment {
    Moment(SentAt(world, k, t) + Max(0.0, world.during(k)), UseAfter(t), Run(terms.spec, t.began.state, t.rounds))
  }

  /** When the pause after it is over. */
  function Resumed(terms: Terms, world: World, k: nat, t: Taking): Moment {
    var answered := AnsweredAt(terms, world, k, t);
    var delay := terms.policy.Delay(k + 1, RetryAfter(world.response(k)), world.draw(k + 1));
    Moment(answered.now + delay + Lag(terms.lag, answered.use), answered.use + 1, answered.state)
  }

  /** After a reply that asks for a pause of up to two minutes the next attempt begins no earlier than that. */
  lemma GuidanceIsWaitedFor(terms: Terms, world: World, k: nat, t: Taking, status: int, seconds: real)
    requires world.response(k) == Reply(status, Some(seconds)) && 0.0 <= seconds <= 120.0
    ensures t.Time() <= SentAt(world, k, t) <= AnsweredAt(terms, world, k, t).now
    ensures Resumed(terms, world, k, t).now >= AnsweredAt(terms, world, k, t).now + seconds
  {
    var answered := AnsweredAt(terms, world, k, t);
    GuidanceIsFollowed(terms.policy, k + 1, seconds, world.draw(k + 1));
    LagNonNegative(terms.lag, answered.use);
  }

  /** When attempt k begins. */
  function Beginning(terms: Terms, world: World, first: Moment, log: seq<Taking>, k: nat): Moment
    requires k <= |log|
  {
    if k == 0 then first else Resumed(terms, world, k - 1, log[k - 1])
  }

  /** The acquisitions of one request, and the tokens and calls they led to, happen exactly when they must. */
  ghost predicate Scheduled(terms: Terms, world: World, first: Moment, log: seq<Taking>,
                            tokens: seq<real>, calls: seq<real>)
    requires terms.backoff.Valid()
  {
    && |tokens| == |calls| <= |log|
    && (forall k :: 0 <= k < |log| ==>
          Complete(terms, world, k, log[k]) && log[k].began == Beginning(terms, world, first, log, k))
    && (forall k :: 0 <= k < |calls| ==>
          Granted(terms, log[k]) && tokens[k] == log[k].Time() && calls[k] == SentAt(world, k, log[k]))
  }

  lemma ScheduleGrows(terms: Terms, world: World, first: Moment, log: seq<Taking>,
                      tokens: seq<real>, calls: seq<real>, t: Taking)
    requires terms.backoff.Valid() && Scheduled(terms, world, first, log, tokens, calls) && |log| == |calls|
    requires Complete(terms, world, |log|, t) && t.began == Beginning(terms, world, first, log, |log|)
    ensures Scheduled(terms, world, first, log + [t], tokens, calls)
    ensures Granted(terms, t) ==>
              Scheduled(terms, world, first, log + [t], tokens + [t.Time()], calls + [SentAt(world, |log|, t)])
  {
    hide Complete, Granted, Resumed, SentAt, Taking.Time;
    forall k | 0 <= k < |log|
      ensures Beginning(terms, world, first, log + [t], k) == Beginning(terms, world, first, log, k)
    {
    }
  }

  /** What a client did since `past` is what the schedule of one request says. */
  ghost predicate Recorded(terms: Terms, world: World, first: Moment, log: seq<Taking>, past: History, h: History)
    requires terms.backoff.Valid()
  {
    && past.tokens <= h.tokens && past.calls <= h.calls
    && Scheduled(terms, world, first, log, h.tokens[|past.tokens|..], h.calls[|past.calls|..])
  }

  lemma RecordGrows(terms: Terms, world: World, first: Moment, log: seq<Taking>, past: History, before: History,
                    after: History, t: Taking)
    requires terms.backoff.Valid() && Recorded(terms, world, first, log, past, before)
    requires past.Extends(before, |log|)
    requires Complete(terms, world, |log|, t) && t.began == Beginning(terms, world, first, log, |log|)
    ensures after.tokens == before.tokens && after.calls == before.calls ==>
              Recorded(terms, world, first, log + [t], past, after) && past.Extends(after, |log|)
    ensures Granted(terms, t) && after.tokens == before.tokens + [t.Time()]
            && after.calls == before.calls + [SentAt(world, |log|, t)] ==>
              Recorded(terms, world, first, log + [t], past, after) && past.Extends(after, |log| + 1)
  {
    hide Scheduled, Complete, Granted, Taking.Time, SentAt;
    ScheduleGrows(terms, world, first, log, before.tokens[|past.tokens|..], before.calls[|past.calls|..], t);
    assert (before.tokens + [t.Time()])[|past.tokens|..] == before.tokens[|past.tokens|..] + [t.Time()];
    var call := SentAt(world, |log|, t);
    assert (before.calls + [call])[|past.calls|..] == before.calls[|past.calls|..] + [call];
  }

  /** A client whose calls were always sent at once goes on that way while nothing delays them. */
  lemma PromptHistory(terms: Terms, world: World, first: Moment, log: seq<Taking>, past: History, h: History, n: nat)
    requires terms.backoff.Valid() && Recorded(terms, world, first, log, past, h) && past.Extends(h, n)
    requires past.tokens == past.calls && AtOnce(world)
    ensures h.tokens == h.calls
  {
    hide Scheduled;
    var tokens, calls := h.tokens[|past.tokens|..], h.calls[|past.calls|..];
    PromptCalls(terms, world, first, log, tokens, calls);
    assert h.tokens == past.tokens + tokens && h.calls == past.calls + calls;
  }

  lemma NothingRecorded(terms: Terms, world: World, first: Moment, past: History)
    requires terms.backoff.Valid()
    ensures Recorded(terms, world, first, [], past, past) && past.Extends(past, 0)
  {
    assert past.tokens[|past.tokens|..] == [] && past.calls[|past.calls|..] == [];
  }

  /** The first n answers each called for another attempt. */
  ghost predicate AllRetried(policy: RetryPolicy, world: World, n: int) {
    forall k: nat :: k < n ==> Retried(policy, k + 1, world.response(k))
  }

  lemma NoneRetried(policy: RetryPolicy, world: World)
    ensures AllRetried(policy, world, 0) && AllRetried(policy, world, -1)
  {
  }

  lemma FewerRetried(policy: RetryPolicy, world: World, n: nat)
    requires AllRetried(policy, world, n)
    ensures AllRetried(policy, world, n - 1)
  {
  }

  lemma OneMoreRetried(policy: RetryPolicy, world: World, n: nat)
    requires n > 0 && AllRetried(policy, world, n - 1) && Retried(policy, n, world.response(n - 1))
    ensures AllRetried(policy, world, n)
  {
  }

  /** No time passes between a token and its call. */
  ghost predicate AtOnce(world: World) {
    forall k: nat :: world.before(k) <= 0.0
  }

  /** Calls sent at once carry the times of their tokens. */
  lemma PromptCalls(terms: Terms, world: World, first: Moment, log: seq<Taking>, tokens: seq<real>, calls: seq<real>)
    requires terms.backoff.Valid() && Scheduled(terms, world, first, log, tokens, calls) && AtOnce(world)
    ensures tokens == calls
  {
    hide Complete, Granted, Beginning;
  }

  /** How a request that got past the limiter ends, after its calls. */
  ghost predicate Concludes(policy: RetryPolicy, world: World, hasCredentials: bool, r: Result, calls: nat) {
    match r
    case RateLimited(error) => error.TimedOut? && AllRetried(policy, world, calls)
    case Unauthenticated => calls == 0 && !hasCredentials
    case _ =>
      && calls >= 1 && !Retried(policy, calls, world.response(calls - 1))
      && r == Conclusion(world.response(calls - 1))
  }

  /** Only the limiter or missing credentials leave an acquisition without a call. */
  ghost predicate LogEnds(terms: Terms, r: Result, log: seq<Taking>, calls: nat) {
    match r
    case RateLimited(_) => |log| == calls + 1 && !Granted(terms, log[calls])
    case Unauthenticated => |log| == 1 && Granted(terms, log[0])
    case _ => |log| == calls
  }

  class DhanRestClient {
    const limiter: InMemoryTokenBucket
    const clock: Clock
    const policy: RetryPolicy
    const timeout: real
    const hasCredentials: bool
    var modifications: map<string, nat>

    constructor (limiter: InMemoryTokenBucket, clock: Clock, policy: RetryPolicy, timeout: real, hasCredentials: bool)
      ensures this.limiter == limiter && this.clock == clock && this.policy == policy
      ensures this.timeout == timeout && this.hasCredentials == hasCredentials
      ensures modifications == map[]
    {
      this.limiter, this.clock, this.policy := limiter, clock, policy;
      this.timeout, this.hasCredentials := timeout, hasCredentials;
      modifications := map[];
    }

    /** The category's whole run so far, up to the present. */
    ghost predicate Ran(category: string, t: Trace<Attempt>, start: real)
      reads limiter, clock
    {
      && limiter.At(category) == Run(limiter.config.RateLimit(category), UNUSED, t)
      && Chronological(t, start) && start <= clock.now && Latest(t, start) <= clock.now
      && NonNegativeCosts(t)
    }

    /** What the category granted within an interval. */
    ghost function Spent(category: string, t: Trace<Attempt>, from: real, to: real): real {
      GrantedCost(limiter.config.RateLimit(category), UNUSED, t, from, to)
    }

    ghost function Surroundings(category: string): Terms {
      Terms(policy, limiter.config.RateLimit(category), limiter.config.backoff, timeout, clock.lag)
    }

    ghost function Present(category: string): Moment
      reads limiter, clock
    {
      Moment(clock.now, clock.readings, limiter.At(category))
    }

    /** Take one token for attempt k. */
    method TakeToken(category: string, world: World, k: nat,
                     ghost past: Trace<Attempt>, ghost start: real, ghost from: real, ghost to: real)
      returns (acquired: Acquired, ghost run: Trace<Attempt>, ghost taking: Taking)
      requires limiter.config.Valid() && Ran(category, past, start)
      modifies limiter, clock
      ensures limiter.OnlyTouches(category) && old(clock.now) <= taking.Time() <= clock.now
      ensures Ran(category, run, start)
      ensures Spent(category, run, from, to)
              == Spent(category, past, from, to)
                 + if acquired.Acquired? && from <= taking.Time() <= to then 1.0 else 0.0
      ensures taking.began == old(Present(category)) && Complete(Surroundings(category), world, k, taking)
      ensures acquired.Acquired? <==> Granted(Surroundings(category), taking)
      ensures limiter.At(category) == Run(limiter.config.RateLimit(category), taking.began.state, taking.rounds)
      ensures acquired.Acquired? ==> clock.now == taking.Time() && clock.readings == UseAfter(taking)
    {
      hide Step, Paced, Fits, WokenAt, HintOf, RoundBudget;
      ghost var spec := limiter.config.RateLimit(category);
      ghost var rounds, pacing;
      ghost var began := Present(category);
      acquired, rounds, pacing := limiter.Acquire(category, 1.0, timeout, clock, world.jitter(k + 1));
      AcquisitionGrants(spec, UNUSED, past, rounds, start, began.now, from, to);
      AppendRun(spec, UNUSED, past, rounds, start, began.now);
      AppendCosts(past, rounds, 1.0);
      run, taking := Append(past, rounds), Taking(began, rounds);
    }

    /** The call of attempt k: time passes before it is sent and until it is answered. */
    method Send(category: string, world: World, k: nat, ghost run: Trace<Attempt>, ghost start: real)
      returns (response: Response, ghost sent: real)
      requires Ran(category, run, start)
      modifies clock`now
      ensures Ran(category, run, start) && response == world.response(k)
      ensures sent == old(clock.now) + Max(0.0, world.before(k)) && clock.now == sent + Max(0.0, world.during(k))
    {
      hide Run, Chronological, NonNegativeCosts;
      clock.Elapse(world.before(k));
      sent := clock.now;
      clock.Elapse(world.during(k));
      response := world.response(k);
    }

    /**
     What one client has behind it: the run of the category, the times its tokens were granted, the times of its
     transport calls.  The tokens are part of what the category granted in every interval.
     */
    ghost predicate Behind(category: string, h: History, start: real, from: real, to: real)
      reads limiter, clock
    {
      && Ran(category, h.run, start) && Alternate(h.tokens, h.calls, clock.now)
      && Within(h.tokens, from, to) as real <= Spent(category, h.run, from, to)
    }

    /** The pause after the answer to attempt k. */
    method BackOff(category: string, world: World, k: nat, response: Response, ghost taking: Taking,
                   ghost past: History, ghost start: real, ghost from: real, ghost to: real)
      requires Behind(category, past, start, from, to) && response == world.response(k)
      requires Present(category) == AnsweredAt(Surroundings(category), world, k, taking)
      modifies clock
      ensures Behind(category, past, start, from, to) && clock.now >= old(clock.now)
      ensures Present(category) == Resumed(Surroundings(category), world, k, taking)
    {
      hide Run, Chronological, NonNegativeCosts, RetryPolicy.Delay, Alternate, GrantedCost, AnsweredAt;
      ghost var before := clock.now;
      clock.Sleep(policy.Delay(k + 1, RetryAfter(response), world.draw(k + 1)));
      AlternateLater(past, before, clock.now);
    }

    /**
     Send one request; everything happens at the exact times the clock, the limiter, the transport and the draws lead
     to.  In every interval from..to the transport calls made so far, those of this request included, are the tokens
     taken there, plus one for a call carried in, less one for a token outstanding; and the tokens are at most burst
     plus rate times the interval.
     */
    method RequestWithRetry(category: string, world: World,
                            ghost past: History, ghost start: real, ghost from: real, ghost to: real)
      returns (r: Result, calls: nat, ghost history: History, ghost log: seq<Taking>)
      requires policy.Valid() && limiter.config.Valid() && Behind(category, past, start, from, to) && from <= to
      modifies limiter, clock
      ensures limiter.OnlyTouches(category) && clock.now >= old(clock.now)
      ensures Behind(category, history, start, from, to) && past.Extends(history, calls)
      ensures Recorded(Surroundings(category), world, old(Present(category)), log, past, history)
      ensures LogEnds(Surroundings(category), r, log, calls) && Concludes(policy, world, hasCredentials, r, calls)
      ensures calls <= policy.maxAttempts && AllRetried(policy, world, calls - 1)
      ensures Within(history.calls, from, to) + One(Outstanding(history.tokens, history.calls, from, to))
              == Within(history.tokens, from, to) + One(Carried(history.tokens, history.calls, from, to))
      ensures var spec := limiter.config.RateLimit(category);
              && Within(history.tokens, from, to) as real <= spec.burst as real + Refill(spec, to - from)
              && Within(history.calls, from, to) as real <= spec.burst as real + Refill(spec, to - from) + 1.0
      ensures past.tokens == past.calls && AtOnce(world) ==>
                history.tokens == history.calls
                && !ExceedsRate(history.calls, limiter.config.RateLimit(category), from, to)
    {
      hide Run, Chronological, NonNegativeCosts, GrantedCost, Retried, Within, Alternate, Recorded, LogEnds, Concludes,
           Carried, Outstanding, AllRetried, AtOnce, Refill, History.Extends;
      r, calls, history, log := Attempts(category, world, past, start, from, to);
      RateHolds(limiter.config.RateLimit(category), history.run, start, from, to);
      CallsMatchTokens(history.tokens, history.calls, clock.now, from, to);
      if past.tokens == past.calls && AtOnce(world) {
        PromptHistory(Surroundings(category), world, old(Present(category)), log, past, history, calls);
      }
    }

    /** One attempt up to the answer to its call: nothing comes back when the limiter or the credentials refuse. */
    method CallOnce(category: string, world: World, k: nat,
                    ghost past: History, ghost start: real, ghost from: real, ghost to: real)
      returns (refused: Option<Result>, response: Response, ghost history: History, ghost taking: Taking)
      requires limiter.config.Valid() && Behind(category, past, start, from, to)
      modifies limiter, clock
      ensures limiter.OnlyTouches(category) && clock.now >= old(clock.now)
      ensures Behind(category, history, start, from, to)
      ensures taking.began == old(Present(category)) && Complete(Surroundings(category), world, k, taking)
      ensures match refused
              case Some(r) =>
                && history.tokens == past.tokens && history.calls == past.calls
                && (if Granted(Surroundings(category), taking) then r == Unauthenticated && !hasCredentials
                    else r.RateLimited? && r.error.TimedOut?)
              case None =>
                && Granted(Surroundings(category), taking) && hasCredentials
                && history.tokens == past.tokens + [taking.Time()]
                && history.calls == past.calls + [SentAt(world, k, taking)]
                && response == world.response(k)
                && Present(category) == AnsweredAt(Surroundings(category), world, k, taking)
    {
      hide Spent, Ran, Within, Alternate, Complete, Granted, Step, Run;
      ghost var before := clock.now;
      ghost var run;
      var acquired;
      acquired, run, taking := TakeToken(category, world, k, past.run, start, from, to);
      history, response := past.(run := run), TransientFailure;
      if acquired.TimedOut? {
        AlternateLater(past, before, clock.now);
        return Some(RateLimited(acquired)), response, history, taking;
      }
      if !hasCredentials {
        AlternateLater(past, before, clock.now);
        return Some(Unauthenticated), response, history, taking;
      }
      ghost var call;
      response, call := Send(category, world, k, run, start);
      AlternateGrows(past, before, taking.Time(), call, from, to);
      history := History(run, past.tokens + [taking.Time()], past.calls + [call]);
      AlternateLater(history, call, clock.now);
      refused := None;
    }

    method Attempts(category: string, world: World,
                    ghost past: History, ghost start: real, ghost from: real, ghost to: real)
      returns (r: Result, calls: nat, ghost history: History, ghost log: seq<Taking>)
      requires policy.Valid() && limiter.config.Valid() && Behind(category, past, start, from, to)
      modifies limiter, clock
      ensures limiter.OnlyTouches(category) && clock.now >= old(clock.now)
      ensures Behind(category, history, start, from, to) && past.Extends(history, calls)
      ensures Recorded(Surroundings(category), world, old(Present(category)), log, past, history)
      ensures LogEnds(Surroundings(category), r, log, calls) && Concludes(policy, world, hasCredentials, r, calls)
      ensures calls <= policy.maxAttempts && AllRetried(policy, world, calls - 1)
    {
      hide Behind, Recorded, Complete, Granted, Taking.Time, SentAt, History.Extends, AllRetried, Resumed, AnsweredAt;
      ghost var terms, first := Surroundings(category), Present(category);
      var attempt := 1;
      calls, history, log := 0, past, [];
      NothingRecorded(terms, world, first, past);
      NoneRetried(policy, world);
      while true
        invariant 1 <= attempt <= policy.maxAttempts && calls == attempt - 1 == |log|
        invariant attempt > 1 ==> hasCredentials
        invariant AllRetried(policy, world, calls)
        invariant limiter.OnlyTouches(category) && clock.now >= old(clock.now)
        invariant Behind(category, history, start, from, to) && past.Extends(history, calls)
        invariant Recorded(terms, world, first, log, past, history)
        invariant Present(category) == Beginning(terms, world, first, log, |log|)
        decreases policy.maxAttempts - attempt
      {
        ghost var taking;
        ghost var before := history;
        var refused, response;
        refused, response, history, taking := CallOnce(category, world, calls, history, start, from, to);
        RecordGrows(terms, world, first, log, past, before, history, taking);
        log := log + [taking];
        if refused.Some? {
          FewerRetried(policy, world, calls);
          return refused.value, calls, history, log;
        }
        calls := calls + 1;
        if !Retried(policy, attempt, response) {
          return Conclusion(response), calls, history, log;
        }
        OneMoreRetried(policy, world, attempt);
        BackOff(category, world, calls - 1, response, taking, history, start, from, to);
        attempt := attempt + 1;
      }
    }

    ghost predicate CapRespected()
      reads this
    {
      forall order :: order in modifications ==> modifications[order] <= 25
    }

    function Modified(order: string): nat
      reads this
    {
      if order in modifications then modifications[order] else 0
    }

    /**
     Modify an order: refused without any call once 25 modifications went through; `accepted` says
     whether the reply is a well-formed success.  Only such a success is counted.
     */
    method ModifyOrder(order: string, world: World, accepted: Result -> bool,
                       ghost past: History, ghost start: real, ghost from: real, ghost to: real)
      returns (r: Option<Result>, calls: nat, ghost history: History)
      requires policy.Valid() && limiter.config.Valid() && Behind("orders", past, start, from, to) && CapRespected()
      modifies limiter, clock, this
      ensures r.None? <==> order in old(modifications) && old(modifications)[order] == 25
      ensures r.None? ==> calls == 0 && history == past && limiter.At("orders") == old(limiter.At("orders"))
      ensures r.Some? ==>
                && Concludes(policy, world, hasCredentials, r.value, calls)
                && calls <= policy.maxAttempts && AllRetried(policy, world, calls - 1)
      ensures var counted := r.Some? && r.value.Delivered? && accepted(r.value);
              modifications
              == if !counted then old(modifications)
                 else if order in old(modifications) then
                   old(modifications)[order := old(modifications)[order] + 1]
                 else old(modifications)[order := 1]
      ensures CapRespected() && Behind("orders", history, start, from, to) && past.Extends(history, calls)
    {
      hide Concludes, Recorded, LogEnds, AllRetried, Behind;
      var current := Modified(order);
      if current >= MODIFICATION_CAP {
        return None, 0, past;
      }
      var result;
      ghost var log;
      result, calls, history, log := Attempts("orders", world, past, start, from, to);
      if result.Delivered? && accepted(result) {
        modifications := modifications[order := current + 1];
      }
      r := Some(result);
    }
  }

  // ---------------------------------------------------------------- a request that exceeds the rate

  /** The pause that ends when the second token is there, or a short one. */
  function PauseAfter(delay: real): real {
    if delay < 1.0 then 1.0 - delay else 0.5
  }

  const FAILS_FIRST: nat -> Response := k => Reply(if k == 0 then 500 else 200, None)
  const NOTHING: nat -> real := k => 0.0
  const NO_JITTER: nat -> nat -> real := k => NOTHING

  /** The first call is sent `delay` after its token and fails; everything else is immediate. */
  function Delayed(delay: real): World {
    World(FAILS_FIRST, k => if k == 0 then delay else 0.0, NOTHING, NOTHING, NO_JITTER)
  }

  function OneRetry(delay: real): RetryPolicy {
    RetryPolicy(2, PauseAfter(delay), PauseAfter(delay), 0.0)
  }

  function DelayedTerms(delay: real): Terms {
    Terms(OneRetry(delay), ONE_A_SECOND, SHIPPED, 10.0, NO_LAG)
  }

  lemma FreshIsGranted()
    ensures var o := Step(ONE_A_SECOND, UNUSED, Attempt(Block, 0.0, 1.0));
            o.granted && o.after == SPENT
  {
    assert Repeat(0.0, 1) == [0.0];
  }

  /** A second after the last token, or later, there is another one. */
  lemma LaterIsGranted(time: real)
    requires time >= 1.0
    ensures Step(ONE_A_SECOND, SPENT, Attempt(Block, time, 1.0)).granted
  {
    assert [0.0][1..] == [] && Prune([], time - DAY) == [];
  }

  lemma OnlyPause(delay: real)
    requires delay > 0.0
    ensures OneRetry(delay).Delay(1, None, 0.0) == PauseAfter(delay)
  {
    var pause := PauseAfter(delay);
    assert Max(-0.0, Min(0.0, 0.0)) == 0.0 && PowerOfTwo(0) == 1.0;
    assert pause * 1.0 == pause && pause + pause * 0.0 == pause;
  }

  /** The two acquisitions and the two calls. */
  lemma DelayedSchedule(delay: real, log: seq<Taking>, tokens: seq<real>, calls: seq<real>)
    requires delay > 0.0
    requires Scheduled(DelayedTerms(delay), Delayed(delay), Moment(0.0, 0, UNUSED), log, tokens, calls)
    ensures |log| > 0 ==> Granted(DelayedTerms(delay), log[0])
    ensures |log| > 1 ==> Granted(DelayedTerms(delay), log[1])
    ensures |calls| == 2 ==> tokens == [0.0, delay + PauseAfter(delay)] && calls == [delay, delay + PauseAfter(delay)]
  {
    var terms, world := DelayedTerms(delay), Delayed(delay);
    if |log| > 0 {
      FirstTaking(delay, log[0]);
    }
    if |log| > 1 {
      SecondTaking(delay, log[0], log[1]);
    }
    hide Complete, Granted, Resumed, Run;
  }

  lemma FirstTaking(delay: real, t: Taking)
    requires Complete(DelayedTerms(delay), Delayed(delay), 0, t) && t.began == Moment(0.0, 0, UNUSED)
    ensures t.rounds == Then(Begin, Attempt(Block, 0.0, 1.0)) && Granted(DelayedTerms(delay), t)
    ensures Run(ONE_A_SECOND, UNUSED, t.rounds) == SPENT
  {
    hide Step, Fits;
    FreshIsGranted();
    PromptGrant(PacingOf(DelayedTerms(delay), Delayed(delay), 0, t.began), ONE_A_SECOND, UNUSED, t.rounds, 1.0);
  }

  lemma SecondTaking(delay: real, first: Taking, t: Taking)
    requires delay > 0.0
    requires Complete(DelayedTerms(delay), Delayed(delay), 0, first) && first.began == Moment(0.0, 0, UNUSED)
    requires Complete(DelayedTerms(delay), Delayed(delay), 1, t)
    requires t.began == Resumed(DelayedTerms(delay), Delayed(delay), 0, first)
    ensures t.Time() == delay + PauseAfter(delay) && Granted(DelayedTerms(delay), t)
  {
    hide Step, Fits, RetryPolicy.Delay;
    var time := delay + PauseAfter(delay);
    FirstTaking(delay, first);
    OnlyPause(delay);
    assert t.began.now == time && t.began.state == SPENT;
    LaterIsGranted(time);
    PromptGrant(PacingOf(DelayedTerms(delay), Delayed(delay), 1, t.began), ONE_A_SECOND, SPENT, t.rounds, 1.0);
  }

  lemma DelayedTermsAreValid(delay: real)
    requires delay > 0.0
    ensures OneRetry(delay).Valid() && OneRetry(delay).maxAttempts == 2 && 0.0 < PauseAfter(delay) < 1.0
    ensures DelayedTerms(delay).backoff.Valid()
  {
  }

  /** No other outcome is possible. */
  lemma DelayedOutcome(delay: real, r: Result, n: nat, log: seq<Taking>, tokens: seq<real>, calls: seq<real>)
    requires delay > 0.0 && n == |calls|
    requires Scheduled(DelayedTerms(delay), Delayed(delay), Moment(0.0, 0, UNUSED), log, tokens, calls)
    requires LogEnds(DelayedTerms(delay), r, log, n) && Concludes(OneRetry(delay), Delayed(delay), true, r, n)
    requires n <= 2 && AllRetried(OneRetry(delay), Delayed(delay), n - 1)
    ensures r == Delivered(200) && n == 2
    ensures tokens == [0.0, delay + PauseAfter(delay)] && calls == [delay, delay + PauseAfter(delay)]
  {
    DelayedSchedule(delay, log, tokens, calls);
    hide Scheduled, Granted, PauseAfter;
    assert Retried(OneRetry(delay), 1, Delayed(delay).response(0));
    assert !Retried(OneRetry(delay), 2, Delayed(delay).response(1));
  }

  const NO_PAST := History(Begin, [], [])

  /** A new client of a new limiter. */
  method FreshClient(delay: real, ghost from: real, ghost to: real) returns (client: DhanRestClient)
    requires delay > 0.0
    ensures client.policy == OneRetry(delay) && client.hasCredentials && client.limiter.config.Valid()
    ensures client.Surroundings("quotes") == DelayedTerms(delay)
    ensures client.Present("quotes") == Moment(0.0, 0, UNUSED)
    ensures fresh(client.limiter) && fresh(client.clock) && client.Behind("quotes", NO_PAST, 0.0, from, to)
  {
    hide OneRetry;
    var config := LimitsConfig(map[], ONE_A_SECOND, SHIPPED);
    var limiter := new InMemoryTokenBucket(config);
    var clock := new Clock(0.0, NO_LAG);
    client := new DhanRestClient(limiter, clock, OneRetry(delay), 10.0, true);
  }

  /**
     However short the time between a token and its call, a request can exceed the rate: from its first call to its
     second there are two, and a bucket of one with a token a second allows fewer.
     */
  method RetryExceedsRate(delay: real) returns (r: Result, calls: nat, ghost history: History)
    requires delay > 0.0
    ensures r == Delivered(200) && calls == 2 && history.tokens == [0.0, delay + PauseAfter(delay)]
    ensures history.calls == [delay, delay + PauseAfter(delay)]
    ensures ExceedsRate(history.calls, ONE_A_SECOND, delay, delay + PauseAfter(delay))
  {
    hide *;
    DelayedTermsAreValid(delay);
    ghost var to := delay + PauseAfter(delay);
    var client := FreshClient(delay, delay, to);
    ghost var log;
    r, calls, history, log := client.RequestWithRetry("quotes", Delayed(delay), NO_PAST, 0.0, delay, to);
    FromTheStart(DelayedTerms(delay), Delayed(delay), Moment(0.0, 0, UNUSED), log, history, calls);
    DelayedOutcome(delay, r, calls, log, history.tokens, history.calls);
    TwoExceed(delay, to);
  }

  lemma FromTheStart(terms: Terms, world: World, first: Moment, log: seq<Taking>, h: History, n: nat)
    requires terms.backoff.Valid() && Recorded(terms, world, first, log, NO_PAST, h) && NO_PAST.Extends(h, n)
    ensures Scheduled(terms, world, first, log, h.tokens, h.calls) && |h.calls| == n
  {
    hide Scheduled;
    assert h.tokens[0..] == h.tokens && h.calls[0..] == h.calls;
  }

  /** More calls in an interval than one burst and the rate times its length. */
  ghost predicate ExceedsRate(calls: seq<real>, spec: RateLimitSpec, from: real, to: real) {
    Within(calls, from, to) as real > spec.burst as real + Refill(spec, to - from)
  }

  lemma TwoExceed(from: real, to: real)
    requires from <= to < from + 1.0
    ensures ExceedsRate([from, to], ONE_A_SECOND, from, to)
  {
    TwoWithin(from, to);
    hide Within;
  }

  lemma TwoWithin(from: real, to: real)
    requires from <= to
    ensures Within([from, to], from, to) == 2
  {
    assert [from, to][..1] == [from] && [from][..0] == [];
    assert Within([], from, to) == 0 && Within([from], from, to) == 1;
  }
}

# Verification of the trading backend's numeric and stateful engines

A Dafny model of the engines of this trading backend whose whole logic is in the repository, with proofs of what they
guarantee.  `dafny verify dfyconfig.toml` checks everything.

Prices, times and rates are exact reals; `round()` is dropped.  Clocks, random draws, network answers, password checks,
transaction costs, powers and square roots are inputs, and every statement holds for all of them.  Code that changes
state is a class or a method with loops, proved equal to a pure specification function; the statements about whole runs
are lemmas over traces (`Common.Trace`, oldest call first) of that specification.

| file | what it models |
|---|---|
| `limiter.dfy`, `limiter_runs.dfy` | token bucket with three sliding windows, the blocking acquire, and what a whole run of grants obeys |
| `client.dfy` | the retrying REST client that spends the limiter's tokens, and the cap on order modifications |
| `implied_volatility.dfy` | Brent's method on an arbitrary pricing error |
| `max_pain.dfy`, `breakevens.dfy`, `margin.dfy` | piecewise-linear option analytics and basket margin |
| `fanout.dfy` | browser sessions, subscriber index, bounded queues |
| `feed_subscriptions.dfy`, `framing.dfy`, `reconnect.dfy` | the broker feed: subscriptions, binary frames, reconnect pacing |
| `overfitting.dfy` | probability of backtest overfitting |
| `metrics.dfy`, `grading.dfy`, `scorecard_ceilings.dfy`, `scorecard_witness.dfy` | backtest figures, the strategy scorecard, and how high a rejected strategy can score |
| `drawdown.dfy`, `monte_carlo.dfy` | one-pass drawdown, resampling and percentiles |
| `portfolio.dfy`, `futures.dfy` | portfolio accounting, futures runs with contract rolls |
| `auth.dfy` | login, one-time challenges and recovery codes, lockout |
| `common.dfy`, `sorting.dfy`, `instruments.dfy`, `option_legs.dfy` | shared vocabulary |

## What the code does differently from what one would expect

Each of these is stated by a lemma, as an equivalence wherever the exact condition is one a caller can check.

- A window cap of the rate limiter holds over a run if and only if no single grant asks for more units than the cap; a
  larger cost falls through the index guard and is granted (`WindowsHold`, `OversizedCostSlipsThrough`).
- The blocking acquire tests its budget against the wait before it adds jitter, so a sleep can overrun the timeout.  It
  stays within for every draw exactly when the longest sleep does (`SleepStaysInBudget`); the last round starts at most
  the base delay or the largest jitter late, and the lag of the clock (`LastRoundIsInTime`); a whole acquisition returns
  after 1.25 seconds on a budget of one (`AcquireCanOverrun`).
- The transport calls of a client in an interval are its tokens there, plus one if a call was carried in from a token
  before it, less one if a token is outstanding for a call after it (`CallsMatchTokens`, `CallsExceedTokensExactly`).
  Calls sent at once keep the rate (`PromptCalls`, `RequestWithRetry`); however short the time between a token and its
  call, a retried request can exceed it (`RetryExceedsRate`).
- The breakeven search looks no further than a hundred points beyond the price range and never at the last breakpoint
  (`SearchedWithinRange`).  A sloping ray is right whatever the premiums exactly when as much is bought as sold at every
  strike within those hundred points (`LeftRayIsRightExactly`, `RightRayIsRightExactly`, `KinkedRayMisreports`).
- Basket margin never falls below the bought premium, even for different lot sizes (`MarginIsBounded`).  With both wings
  present a further sold leg, naked or not, costs nothing exactly when the condor figure of the first legs is already the
  smaller one, or its margin is relieved in full (`SoldLegIsFreeExactly`, `NakedCallIsFree`).
- Registering a live session id again breaks the subscriber index exactly when the old session still had instruments
  (`RegisterKeeps`).
- Several segment names share one wire name (BSE is sent as NSE, "0" and "IDX_I" are one), so a reconciliation leaves the
  broker's set right exactly when nothing removed shares a wire name with something wanted (`ReconcileIsExact`,
  `ClashSilencesAnActiveInstrument`).
- Only the last condemned token is remembered: two rejected tokens taking turns are retried without any wait
  (`AlternatingTokensAreRetried`).
- The running peak is not the start of the largest percentage fall once the equity is negative and two positive levels
  were seen.  Over a curve the percentage is the largest exactly when what is hidden after the second level is no more
  than what was recorded before it (`PeakIsWorstStartExactly`, `LargestPercentIsExact`, `NegativeEquityHidesAFall`).
- The lockout hint is truncated to whole seconds: trying again after exactly the hinted wait is refused if and only if
  more than one second was left and it was not a whole number (`TruncatedHintIsTooShort`, `WaitingAsToldIsRefused`).
- The verdict of a scorecard does not look at the score.  A rejected strategy can score high, but always below ninety,
  and each of the three critical flaws has its own ceiling, which no bound can undercut (`RejectedScoresAreBounded`,
  `RejectedScoresBelowNinety`, `ReturnCeilingIsReached`, `DrawdownCeilingIsApproached`,
  `ProfitFactorCeilingIsApproached`); the backtests that show it are those of a portfolio (`Play`).  Without losses the
  profit factor is an amount of money, so one lone gain of less than one counts as a flaw.
- In a futures run a time step without a bar of the active contract uses the price of the very first entry, even after
  rolls.  A mark is true, and a roll costs its fees only, exactly when there is a bar or the contract stands at the entry
  price again (`MarkIsTrueExactly`, `RollIsFreeExactly`); a first roll without a bar records the starting capital less
  fees, whatever was gained before (`FirstRollWithoutBarForgetsProfit`, `ProfitVanishesAtARoll`).

## Model

| member | source | states |
|---|---|---|
| RateLimiter.InMemoryTokenBucket.ReplenishTokens | backend/app/dhan/limiter.py:151-164 | the bucket is refilled by rate times the elapsed time up to the burst, nothing else changes, and no other category is touched |
| RateLimiter.InMemoryTokenBucket.CheckWindows | backend/app/dhan/limiter.py:166-215 | timestamps older than a day are pruned; the wait is the largest of the three window waits and the request is allowed exactly when it is zero |
| RateLimiter.InMemoryTokenBucket.Spend | backend/app/dhan/limiter.py:226-231 | takes the cost and appends one timestamp per unit |
| RateLimiter.InMemoryTokenBucket.TryAcquire | backend/app/dhan/limiter.py:217-232 | performs exactly one non-blocking step of the specification, with the limits listed for the category if there are any, and leaves other categories alone |
| RateLimiter.InMemoryTokenBucket.Round | backend/app/dhan/limiter.py:241-262 | one locked pass of the blocking loop is exactly one blocking step |
| RateLimiter.InMemoryTokenBucket.Acquire | backend/app/dhan/limiter.py:234-277 | a chronological run of refused rounds ended by a grant or by a hint that exceeds the remaining budget, every round at the exact time its pauses and the clock's lag lead to; the waiting time or the hint is returned, and the number of rounds is bounded by the budget; a listed category steps with the limits listed for it |
| RateLimiter.SleepFits | backend/app/dhan/limiter.py:266-277 | every refused round sleeps at least the least jittered delay, so a round count within the elapsed time stays below the bound |
| RateLimiterRuns.WaitIsTimeToRelease | backend/app/dhan/limiter.py:178-189 | the wait computed from a count and a deque index is the time until the window has room again |
| RateLimiterRuns.SpacedIsWindowRespected | backend/app/dhan/limiter.py:166-215 | a log keeps a sliding-window cap for every half-open window if and only if entries cap places apart are a window apart |
| RateLimiterRuns.GrantKeepsWindow | backend/app/dhan/limiter.py:178-215 | one grant keeps a window's cap exactly when it does not ask for more units than the cap |
| RateLimiterRuns.WindowsHold | backend/app/dhan/limiter.py:166-232 | over every chronological run, pruning included, every half-open minute, hour and day window holds at most its cap if and only if each grant fits the cap |
| RateLimiterRuns.OversizedCostSlipsThrough | backend/app/dhan/limiter.py:184 | a concrete run in which a cost of two passes a cap of one a minute |
| RateLimiterRuns.SpentPlusAvailable | backend/app/dhan/limiter.py:151-164 | granted cost plus what is still available is paid for by one burst and the refill |
| RateLimiterRuns.RateHolds | backend/app/dhan/limiter.py:151-277 | in any interval the granted cost is at most burst plus rate times its length |
| RateLimiterRuns.WindowsWaitDecays | backend/app/dhan/limiter.py:166-215 | while nothing is granted the three-window wait runs down at the speed of the clock |
| RateLimiterRuns.RefusalsLeaveNoTrace | backend/app/dhan/limiter.py:217-262 | refused attempts, however many, change nothing a later attempt can see |
| RateLimiterRuns.GrantedExactly | backend/app/dhan/limiter.py:151-262 | after any run an attempt that fits every cap is granted if and only if each half-open window ending now has room for its units and the tokens are there: nothing is held back for longer than the limits ask |
| RateLimiterRuns.HintIsExact | backend/app/dhan/limiter.py:241-264 | after a refusal with a hint, and with only refusals in between, an attempt is granted if and only if the hint has passed |
| RateLimiterRuns.SleepStaysInBudget | backend/app/dhan/limiter.py:264-277 | a sleep stays within the budget for every random draw exactly when the fully jittered, capped wait does |
| RateLimiterRuns.SleepOverrunsLittle | backend/app/dhan/limiter.py:264-277 | a sleep begun within the budget ends at most the base delay or the largest jitter beyond it |
| RateLimiterRuns.LastRoundIsInTime | backend/app/dhan/limiter.py:234-277 | over a whole acquisition, whatever the draws, the last round starts no later than the timeout after its start, plus the base delay or the largest jitter, plus the lag of three uses of the clock |
| RateLimiterRuns.AcquireCanOverrun | backend/app/dhan/limiter.py:234-277 | one acquisition of a token on a budget of one second that is granted after 1.25 seconds |
| RateLimiterRuns.OnlyTheLateGrant | backend/app/dhan/limiter.py:234-277 | with that clock and those draws no other outcome is possible |
| RateLimiterRuns.AcquisitionGrants | backend/app/dhan/limiter.py:234-277 | one blocking acquisition adds its own cost at the time of its last round, exactly when that is granted |
| RateLimiterRuns.OwnLimitsHold | backend/app/dhan/limits_config.py:48-54 | over every run that uses any categories in any order, each category keeps the burst, the rate and, exactly when its grants fit, the window caps listed for it, or those of all option chains, or the default ones |
| RateLimiterRuns.SecondQuoteIsRefused | backend/app/dhan/limiter.py:217-232 | one token is configured for quotes and ten by default: of two tries at once the second is refused |
| RestClient.DhanRestClient.TakeToken | backend/app/dhan/client.py:101-104 | one attempt takes one token from its category before it calls, in a complete acquisition that begins when the attempt does |
| RestClient.DhanRestClient.RequestWithRetry | backend/app/dhan/client.py:86-149 | every acquisition, token, call and pause of the request happens at the exact time the limiter, the clock, the transport and the draws lead to; at most the configured attempts, all but the last answered by something retryable, and the result is that of the last call; in any interval the calls are the tokens, plus one carried in, less one outstanding, and the tokens obey burst plus rate times its length; so do the calls of a client that always sends at once |
| RestClient.DhanRestClient.ModifyOrder | backend/app/dhan/client.py:450-467 | an order at its cap is refused without a call; otherwise the result is that of the last of at most the configured calls; only an accepted modification is counted; no count ever exceeds the cap |
| RestClient.DhanRestClient.Send | backend/app/dhan/client.py:106-114 | a call is sent some time after its token and answered some time later, both given |
| RestClient.RetriedExactly | backend/app/dhan/retry.py:50-52 | a response is tried again exactly if attempts are left and it is a transport failure or one of 429, 500, 502, 503, 504 |
| RestClient.GuidanceIsFollowed | backend/app/dhan/retry.py:56-58 | the delay is what the server asked for, not below zero and not above 120 seconds |
| RestClient.GuidanceIsWaitedFor | backend/app/dhan/client.py:129-149 | after a reply that asks for a pause of up to two minutes the next attempt begins no earlier |
| RestClient.DelaysDouble | backend/app/dhan/retry.py:60-63 | without guidance the delays start at the base and double up to the limit, and the jitter scales them by one plus the draw |
| RestClient.CallsMatchTokens | backend/app/dhan/client.py:101-149 | for a client that works through its calls in order, the calls in any interval are the tokens there, plus one if a call was carried in, less one if a token is outstanding |
| RestClient.CallsExceedTokensExactly | backend/app/dhan/client.py:101-149 | an interval holds more calls than tokens if and only if a call was carried in and no token is outstanding, and then one more |
| RestClient.PromptCalls | backend/app/dhan/client.py:101-114 | calls sent at once happen at the times of their tokens |
| RestClient.RetryExceedsRate | backend/app/dhan/client.py:86-149 | for every positive delay of the first call after its token, one request whose two calls exceed burst plus rate times the time between them |
| ImpliedVolatility.AcceptableIsInside | backend/app/analytics/greeks.py:362-368 | an interpolated step that passes the test has a non-zero denominator and stays inside three quarters of the bracket |
| ImpliedVolatility.AcceptableExactly | backend/app/analytics/greeks.py:362-366 | the test accepts a step if and only if its denominator points it towards the other end, it is shorter than three quarters of the bracket by half the tolerance or more, and less than half as long as the step before the last |
| ImpliedVolatility.StepExactly | backend/app/analytics/greeks.py:351-374 | the interpolated step is taken if and only if the one before the last was no shorter than the tolerance, the estimate has improved and the step passes the test; any other step goes to the middle |
| ImpliedVolatility.ToleranceIsClose | backend/app/analytics/greeks.py:345-349 | twice the tolerance at a point of the range is more than what was asked for, by at most 2e-14 |
| ImpliedVolatility.MoveIsInside | backend/app/analytics/greeks.py:376-382 | every step moves by at least the tolerance and stays inside the bracket |
| ImpliedVolatility.RebracketBrackets | backend/app/analytics/greeks.py:332-343 | re-bracketing and swapping keep the same interval and a sign change, and the estimate becomes the other end exactly if that is strictly better |
| ImpliedVolatility.AdvanceShrinks | backend/app/analytics/greeks.py:331-382 | every iteration keeps a sign change in a bracket inside the previous one, shorter by at least the tolerance |
| ImpliedVolatility.SolveIsSafe | backend/app/analytics/greeks.py:326-384 | for any objective and any iteration limit the end still brackets; on an early return the residual is at most the tolerance, or the bracket is no wider than the tolerance plus 2e-14 |
| ImpliedVolatility.SolveConverges | backend/app/analytics/greeks.py:331-349 | enough iterations to use up the width always end in the tolerance test |
| ImpliedVolatility.BudgetFalls | backend/app/analytics/greeks.py:331-382 | one iteration ends the search, or halves the bracket, or shortens the last two steps: a budget of doublings of the tolerance falls by at least one |
| ImpliedVolatility.SolveEndsSoon | backend/app/analytics/greeks.py:326-384 | for any objective, (k + 1)^2 + 2k iterations end in a tolerance test when 2^k halves of the tolerance cover the range |
| ImpliedVolatility.ChordMeaning | backend/app/analytics/greeks.py:352-355 | with two points the step is to the zero of the chord, and exists exactly when the two values differ |
| ImpliedVolatility.QuadraticMeaning | backend/app/analytics/greeks.py:356-360 | with three points the step is to the zero of the inverse quadratic through them (Lagrange's formula, denominators cleared), and exists exactly when the three values differ |
| ImpliedVolatility.Brent | backend/app/analytics/greeks.py:326-384 | the loop over seven variables computes the specified iteration; the objective is evaluated inside the range only and no division is by zero |
| ImpliedVolatility.SolveImpliedVolatility | backend/app/analytics/greeks.py:262-384 | a volatility between 0.001 and 5 is returned with a residual within tolerance, or with an opposite end within the tolerance plus 2e-14, or within what the iterations have left of the range; or it is an end of the range with a residual below 0.05; otherwise the reason of the rejection |
| ImpliedVolatility.SearchedExactly | backend/app/analytics/greeks.py:273-299 | the search is reached if and only if price, time, forward and strike are positive, the price is at most 1e-4 below the discounted payoff and the reference vega is at least 1e-5; which reason is given otherwise |
| MaxPain.StraightBetweenStrikes | backend/app/analytics/options_analytics.py:215-231 | between neighbouring strikes the total payoff is a straight line |
| MaxPain.SomeStrikeIsNoWorse | backend/app/analytics/options_analytics.py:215-231 | from any settlement price some listed strike pays the buyers no more |
| MaxPain.ZipPaysOut | backend/app/analytics/options_analytics.py:215-231 | the buyers are paid what calls below and puts above the price are worth, over as many strikes as all three lists have |
| MaxPain.CalculateMaxPain | backend/app/analytics/options_analytics.py:199-243 | the strike returned minimises what the three lists pay over every real settlement price, strikes in any order, and is the first listed among equals; the curve, the loss and the distance in money and in percent of the spot |
| Breakevens.LegGains | backend/app/analytics/strategy_builder.py:206-214 | a bought leg gains its value at expiry less its price on every unit, a sold one the opposite |
| Breakevens.IntervalSound | backend/app/analytics/strategy_builder.py:223-233 | what one interval reports is a zero of the expiry payoff inside it |
| Breakevens.IntervalComplete | backend/app/analytics/strategy_builder.py:223-233 | every zero of an interval is reported unless the payoff is zero on all of it, and then its left end is |
| Breakevens.LeftExact | backend/app/analytics/strategy_builder.py:235-243 | where nothing bends within a hundred points below the range, the left ray reports a price exactly when it is the zero of that ray within those points |
| Breakevens.RightExact | backend/app/analytics/strategy_builder.py:245-252 | the same above the range |
| Breakevens.FindBreakevens | backend/app/analytics/strategy_builder.py:197-281 | the sorted answers are exactly the zeros the intervals and rays report, for the enabled legs |
| Breakevens.IntervalAnswersAreZeros | backend/app/analytics/strategy_builder.py:221-233 | every interior answer is a true breakeven, wherever the strikes lie |
| Breakevens.ZerosAreAnswers | backend/app/analytics/strategy_builder.py:221-233 | every zero between the first and the last breakpoint is reported or lies on a flat zero stretch whose left end is |
| Breakevens.BreakevensAreExact | backend/app/analytics/strategy_builder.py:197-252 | when the profit has no kink within a hundred points outside the range, a price off the flat zero stretches is reported if and only if it breaks even in the searched region |
| Breakevens.SearchedWithinRange | backend/app/analytics/strategy_builder.py:216-252 | with all strikes in range the searched region is the range and less than a hundred points either side, without the upper bound itself |
| Breakevens.LeftRayIsRightExactly | backend/app/analytics/strategy_builder.py:237-243 | a sloping left ray reports only true breakevens, whatever non-negative premiums the contracts have, if and only if the net units struck at each price within its hundred points are zero |
| Breakevens.RightRayIsRightExactly | backend/app/analytics/strategy_builder.py:245-252 | the same for the right ray |
| Breakevens.RepricingSetsLevel | backend/app/analytics/strategy_builder.py:200-214 | other premiums raise or lower the profit everywhere alike |
| Breakevens.PremiumsForChord | backend/app/analytics/strategy_builder.py:237-252 | for any price under a ray there are non-negative premiums that bring the zero of its chord there |
| Breakevens.KinkedRayMisreports | backend/app/analytics/strategy_builder.py:245-252 | one call struck 50 points out makes the right ray report a price at which 10 is lost |
| BasketMargin.CalculateBasketMargin | backend/app/analytics/options_margin.py:47-215 | the figures of the result: sums of the legs, benefit and net requirement from the hedged margin, one breakdown per enabled leg, and the two empty answers |
| BasketMargin.GrossIsSumOfLegs | backend/app/analytics/options_margin.py:94-140 | the gross margin is the sum of the leg margins |
| BasketMargin.ReliefWithinShortMargin | backend/app/analytics/options_margin.py:148-164 | a pair's relief never exceeds the short leg's own margin, whatever the lot sizes |
| BasketMargin.ReliefsWithinShorts | backend/app/analytics/options_margin.py:145-183 | the summed reliefs never exceed the margins of the short legs paired |
| BasketMargin.ShortsCarrySpanAndExposure | backend/app/analytics/options_margin.py:94-140 | sold calls and sold puts together carry the whole span and exposure |
| BasketMargin.MarginIsBounded | backend/app/analytics/options_margin.py:140-202 | total premium is at most the margin after spreads, which is at most gross; net lies between premium and gross; the hedged figure is never negative and only the condor rule can push it under the premium |
| BasketMargin.VerticalSpreadIsCapped | backend/app/analytics/options_margin.py:145-164 | a sold and an equally large bought leg of one type are charged the spread's maximum risk, or the premium if that is more, plus half a percent, when less than both alone |
| BasketMargin.UnequalSpreadSplits | backend/app/analytics/options_margin.py:145-164 | a spread of unequal quantities is charged as the spread of the smaller quantity and the rest of the larger leg on its own |
| BasketMargin.LegIsChargedByUnits | backend/app/analytics/options_margin.py:94-114 | a bought leg is charged its price, a sold one its price and the rates' share of the contract value, per unit |
| BasketMargin.WiderWingIsCharged | backend/app/analytics/options_margin.py:187-197 | whatever the widths of the wings, a condor is charged for the wider one only, on the smaller of the two sold quantities, with one percent of the contract and both bought premiums on top |
| BasketMargin.SoldLegIsFreeExactly | backend/app/analytics/options_margin.py:140-202 | to a basket with both wings a sold leg is added: the net requirement never falls, and stays the same if and only if the condor figure is already the smaller one or the leg is relieved in full |
| BasketMargin.NakedCallIsFree | backend/app/analytics/options_margin.py:185-202 | a naked call with a margin of 170 added to a condor that requires 150: it still requires 150 |
| BasketMargin.SpreadWithOneMore | backend/app/analytics/options_margin.py:140-183 | a further sold leg adds its own margin less the relief of the bought leg left for it |
| Fanout.DeliverAppendsPrefix | backend/app/api/ws.py:55-72 | delivering appends exactly the longest prefix of the matching messages that fits and counts the rest as dropped |
| Fanout.ClientSession.SendNowait | backend/app/api/ws.py:55-72 | accepted exactly when the queue is not full; a refusal drops, counts and marks the session slow |
| Fanout.RegisterKeeps | backend/app/api/ws.py:92-93 | registering keeps the index right if and only if a live session of that id had no instruments |
| Fanout.RunsAreConsistent | backend/app/api/ws.py:92-206 | over every run, reads by browsers included, a session is in an instrument's subscriber set exactly when it is live and lists it, no set is empty, demand equals the index keys, and no queue is over its bound |
| Fanout.RunFollowsRequests | backend/app/api/ws.py:92-206 | over every run the live sessions are those registered and not unregistered since, and each lists exactly the instruments with a segment and an id whose last mention by it was a subscription |
| Fanout.BroadcastFollowsRequests | backend/app/api/ws.py:208-349 | over every run a broadcast offers a live session exactly the messages on its channels, of the instruments it last asked for |
| Fanout.MessagesAreConserved | backend/app/api/ws.py:55-391 | over every run what a browser read followed by what is queued is what the queue took, in order; that is what was offered with some messages left out, and those are the ones counted as dropped |
| Fanout.OperationMovesQueue | backend/app/api/ws.py:55-391 | one operation takes the front message of the reader, appends the fitting part of what is offered and counts the rest |
| Fanout.ClientSession.TakeNext | backend/app/api/ws.py:386-391 | the pump takes the oldest message, and changes nothing when there is none |
| Fanout.BroadcastReachesListeners | backend/app/api/ws.py:208-349 | a broadcast reaches exactly the sessions listing the instrument; accepted plus dropped equals offered; every other session is untouched |
| Fanout.SubscriptionListsExactly | backend/app/api/ws.py:111-142 | after a subscription the session lists what it listed before and what it asked for with a segment and an id, and nobody else is concerned |
| Fanout.UnsubscriptionListsExactly | backend/app/api/ws.py:181-197 | after an unsubscription the session lists what it listed before less what it named |
| Fanout.SubscribedIsOffered | backend/app/api/ws.py:111-349 | from the subscription on a broadcast of the instrument offers the session the messages on its old and new channels, in order |
| Fanout.SnapshotsExactly | backend/app/api/ws.py:144-177 | a snapshot is sent for what the cache holds of a subscribed instrument on a channel listened to, and for nothing else |
| Fanout.SnapshotsInOrder | backend/app/api/ws.py:144-177 | for one instrument the quote goes first, then the depth, then the open interest |
| Fanout.DeltasExactly | backend/app/api/ws.py:208-349 | which packets make deltas on which channels, none twice |
| Fanout.AcceptedIsGrowth | backend/app/api/ws.py:337-349 | the number a broadcast reports is by how much the queues of its subscribers have grown together |
| Fanout.TotalAcceptedRemove | backend/app/api/ws.py:337-349 | the number of messages taken does not depend on the order sessions are visited in |
| Fanout.MarketDataFanoutManager.RegisterSession | backend/app/api/ws.py:92-93 | the new state of registering |
| Fanout.MarketDataFanoutManager.UnregisterSession | backend/app/api/ws.py:95-106 | the session leaves every subscriber set, emptied sets disappear and their demand is released |
| Fanout.MarketDataFanoutManager.SubscribeSession | backend/app/api/ws.py:111-179 | instruments and channels are added, the index follows, and the snapshots go out in order |
| Fanout.MarketDataFanoutManager.UnsubscribeSession | backend/app/api/ws.py:181-197 | the listed instruments leave the session, the index and, when unwanted, the demand |
| Fanout.MarketDataFanoutManager.Resync | backend/app/api/ws.py:199-206 | fresh snapshots of everything a session has, returned and offered to its queue; nothing for an unknown session |
| Fanout.MarketDataFanoutManager.BroadcastPacket | backend/app/api/ws.py:208-349 | the deltas of a packet go to its subscribers and the number returned is the sum taken |
| FeedSubscriptions.ChunksPartition | backend/app/dhan/live_feed_service.py:156-160 | batches are non-empty, never too long, only the last may be short, and concatenate to the list |
| FeedSubscriptions.SegmentsOnTheWire | backend/app/dhan/live_feed_service.py:53-70 | which segment names are sent under which name: Bombay equities under the National one, unknown names not at all |
| FeedSubscriptions.ReplayRequests | backend/app/dhan/live_feed_service.py:286-306 | replaying the requests of a batched change adds or removes exactly its instruments |
| FeedSubscriptions.DhanLiveFeedService.WireInstruments | backend/app/dhan/live_feed_service.py:145-153 | the wire list of the instruments in sorted order, whose elements are their wire image |
| FeedSubscriptions.DhanLiveFeedService.SendSubscriptionChange | backend/app/dhan/live_feed_service.py:286-306 | sends the wire list of the instruments in sorted order, in messages of 1 to 100, which change the broker's set by exactly the wire image |
| FeedSubscriptions.DhanLiveFeedService.Capped | backend/app/dhan/live_feed_service.py:581-584 | all requested instruments, or the first five thousand in order |
| FeedSubscriptions.DhanLiveFeedService.ReconcileSubscriptions | backend/app/dhan/live_feed_service.py:580-592 | the active set becomes the whole demand, or its first five thousand instruments in order, and the messages sent perform one reconciliation to it, none when it stays the same |
| FeedSubscriptions.ReconcileIsExact | backend/app/dhan/live_feed_service.py:585-592 | a reconciliation keeps the broker's set equal to the wire image exactly when nothing removed shares a wire name with something wanted |
| FeedSubscriptions.BrokerFollowsActive | backend/app/dhan/live_feed_service.py:580-592 | over every connection without a clash the broker's set is the wire image of the active set |
| FeedSubscriptions.NeverOversubscribed | backend/app/dhan/live_feed_service.py:580-592 | clashes or not, the broker holds nothing that is not active |
| FeedSubscriptions.InjectiveNeverClashes | backend/app/dhan/live_feed_service.py:145-153 | where wire names are injective nothing can clash |
| FeedSubscriptions.ClashSilencesAnActiveInstrument | backend/app/dhan/live_feed_service.py:149-150 | one share under both listings: when one watcher leaves, the feed of the other stops |
| FeedSubscriptions.GroupKeepsEntries | backend/app/dhan/live_feed_service.py:181-187 | a request body holds every entry of its slice as often as the slice does |
| FeedSubscriptions.BodiesCoverOnce | backend/app/dhan/live_feed_service.py:163-188 | the bodies together ask for every valid entry exactly as often as requested, one to a thousand at a time |
| FeedSubscriptions.NormalizedCounts | backend/app/dhan/live_feed_service.py:163-180 | of the sorted instruments those with a known segment and a numeric id are kept, each once |
| FeedSubscriptions.QuoteRequestBodies | backend/app/dhan/live_feed_service.py:163-188 | the bodies ask for a number under a segment exactly as often as instruments carry it: each one with a known segment and a numeric id once, the others not at all |
| FeedFraming.SignedRoundTrip | backend/app/dhan/packets.py:208 | four bytes read as a signed number and written again are the same bytes |
| FeedFraming.ParsesExactly | backend/app/dhan/packets.py:166-242 | a packet is read if and only if it has a header and the least length of its response code: 16 bytes for ticks, 50 for a quote, 154 for a full packet and so on |
| FeedFraming.FirstOfEncoded | backend/app/dhan/packets.py:219-241 | a frame that begins with an encoded packet is read as that packet, whatever follows |
| FeedFraming.FirstIsEncoded | backend/app/dhan/packets.py:219-241 | what a frame is read to begin with encodes to the very bytes read |
| FeedFraming.SplitAccountsForEveryByte | backend/app/dhan/feed.py:170-223 | every frame is the encoding of the packets read from it followed by bytes that begin no packet |
| FeedFraming.SplitUndoesEncoding | backend/app/dhan/feed.py:170-223 | splitting undoes concatenation, whatever follows the packets |
| FeedFraming.FramesRoundTrip | backend/app/dhan/feed.py:170-223 | well-formed packets sent together come back as themselves with nothing left over |
| FeedFraming.SplitIsMaximal | backend/app/dhan/feed.py:170-223 | no longer run of packets can be read off the front of a frame |
| FeedFraming.DhanLiveFeedClient.ProcessIncomingFrame | backend/app/dhan/feed.py:170-223 | returns that split; the packet counter rises by its length, the corrupt counter by one exactly when bytes remain |
| FeedReconnect.OpensOnlyUsableTokens | backend/app/dhan/live_feed_service.py:604-634 | over every run a socket is opened exactly when the token is present, unexpired and not the one condemned last; otherwise the credentials are looked at again after 30 seconds |
| FeedReconnect.AlternatingTokensAreRetried | backend/app/dhan/live_feed_service.py:691-694 | two rejected tokens taking turns are retried with no wait |
| FeedReconnect.CondemnsExactly | backend/app/dhan/live_feed_service.py:199-230 | a token is condemned exactly by the disconnect codes 806 to 810 and the statuses 401 and 403 |
| FeedReconnect.BackoffOnlyGrows | backend/app/dhan/live_feed_service.py:683-699 | from one failure to the next the backoff doubles up to 120 seconds, unless a connection lasted a minute |
| FeedReconnect.BackoffIsPowerOfTwo | backend/app/dhan/live_feed_service.py:683-699 | the backoff is a capped power of two in the failures since the last reset |
| FeedReconnect.KthFailureWaits | backend/app/dhan/live_feed_service.py:199-230 | the k-th failure since the last reset waits the larger of the doubled seconds, at most 120, and 300 seconds for status 429 and code 805 |
| FeedReconnect.OnlyStableConnectionsReset | backend/app/dhan/live_feed_service.py:683-687 | a connection of a minute or more resets the count of failures, a shorter one adds to it |
| FeedReconnect.FailuresAreSlow | backend/app/dhan/live_feed_service.py:681-699 | k failures without a stable connection take at least 120k - 713 seconds |
| FeedReconnect.DhanLiveFeedService.Loop | backend/app/dhan/live_feed_service.py:597-702 | from whatever token an earlier run rejected, the loop produces, turn by turn, the events of the specification and keeps the rejected token and the reconnect count |
| Overfitting.SliceCountIsLargest | backend/app/backtest/overfitting.py:212-214 | the slices are the largest even number that exceeds neither the number asked for nor the rows |
| Overfitting.SlicesPartition | backend/app/backtest/overfitting.py:224-230 | an in-sample and its out-of-sample set together sum every row below a slice boundary once |
| Overfitting.SampleSumsAddUp | backend/app/backtest/overfitting.py:240-259 | in-sample plus out-of-sample return equals the full return, for each strategy and combination |
| Overfitting.CombinationsAreSubsets | backend/app/backtest/overfitting.py:233 | every listed combination is a subset of the right size |
| Overfitting.CombinationsAreDistinct | backend/app/backtest/overfitting.py:233 | no combination is listed twice |
| Overfitting.CombinationsAreComplete | backend/app/backtest/overfitting.py:233 | every subset of the right size is listed |
| Overfitting.ComplementsAreListed | backend/app/backtest/overfitting.py:233-242 | every out-of-sample set is the in-sample set of another combination |
| Overfitting.BestIsFirstLargest | backend/app/backtest/overfitting.py:252 | the in-sample winner is the first strategy with the largest sum |
| Overfitting.PositionIsRank | backend/app/backtest/overfitting.py:261-263 | the position in the stable descending sort is one more than the number of strategies placed before |
| Overfitting.RankOf | backend/app/backtest/overfitting.py:261-263 | sorting and looking up computes that rank |
| Overfitting.LogitIsLogOdds | backend/app/backtest/overfitting.py:269-272 | the logit is the logarithm of the odds of the rank, which is kept between 1e-6 and 1 - 1e-6 |
| Overfitting.SumSlices | backend/app/backtest/overfitting.py:244-249 | the nested accumulation computes the cumulative returns over the slices of a set |
| Overfitting.CalculatePbo | backend/app/backtest/overfitting.py:197-284 | the ranks and logits of all combinations, and for any such logarithm the probability times their number is the number of positive logits; the empty answers |
| Overfitting.RelativeRankInRange | backend/app/backtest/overfitting.py:265-267 | relative ranks lie between 1/(n+1) and n/(n+1) |
| Overfitting.PboIsProbability | backend/app/backtest/overfitting.py:274-277 | the probability lies in [0, 1] |
| Overfitting.LogitIsPositiveExactly | backend/app/backtest/overfitting.py:269-275 | the logit of a relative rank is positive exactly when the rank is above one half, for any increasing logarithm that is zero at one |
| Overfitting.OverfitCountsPositiveLogits | backend/app/backtest/overfitting.py:269-277 | the combinations counted as overfit are as many as the positive logits |
| Overfitting.DominatorRanksFirst | backend/app/backtest/overfitting.py:236-267 | a strategy strictly best in every row wins every sample and ranks first out of sample |
| Overfitting.DominatorIsNotOverfit | backend/app/backtest/overfitting.py:236-277 | such a strategy forces the probability to zero |
| Overfitting.LosingWinnersAreOverfit | backend/app/backtest/overfitting.py:236-277 | when every in-sample winner ranks last out of sample the probability is one |
| Grading.HigherIsConsistent | backend/app/backtest/grading.py:93-112 | for any thresholds the score lies in [0, 100] and in the band of its grade |
| Grading.LowerIsConsistent | backend/app/backtest/grading.py:115-133 | the same where less is better |
| Grading.HigherInterpolates | backend/app/backtest/grading.py:93-112 | between two thresholds the score runs straight from one band edge to the next, in all five bands |
| Grading.LowerInterpolates | backend/app/backtest/grading.py:115-133 | the same where less is better |
| Grading.HigherIsMonotone | backend/app/backtest/grading.py:93-112 | a larger value never scores lower, across all branch boundaries |
| Grading.LowerIsMonotone | backend/app/backtest/grading.py:115-133 | a larger value never scores higher where less is better |
| Grading.EasierHigher | backend/app/backtest/grading.py:93-112 | lower demands never lower a score |
| Grading.EasierLower | backend/app/backtest/grading.py:115-133 | higher allowances never lower a score |
| Grading.EvaluateStrategyScorecard | backend/app/backtest/grading.py:136-359 | the weighted score and the grade its band has, which flags are raised exactly when, the verdict by its conditions, and deployable exactly when all gates pass and no flag is raised |
| Grading.OverallScoreInRange | backend/app/backtest/grading.py:243-244 | the overall score lies in [0, 100] |
| Grading.DominatorIsNotWorse | backend/app/backtest/grading.py:136-359 | better metrics never get a lower score, a lower grade or a worse verdict |
| Grading.LongerHorizonIsNotWorse | backend/app/backtest/grading.py:149-347 | declaring a longer horizon never lowers score, grade or verdict |
| Grading.EdgesScoreTheirGrade | backend/app/backtest/grading.py:149-244 | a strategy that just reaches a grade in every metric of its horizon scores 92.5, 75, 60 or 40 |
| Grading.GatesWiden | backend/app/backtest/grading.py:150-181 | the drawdown gates are 10 to 40 percent and the Sharpe gates 1.0 to 0.4, in four even steps |
| Grading.OneMetricMoves | backend/app/backtest/grading.py:183-244 | one metric alone moves the score by its weight times its own score's change |
| BacktestMetrics.CalculateBacktestMetrics | backend/app/backtest/metrics.py:13-117 | total return, annual growth, drawdown in value and percent, Sharpe, Sortino and Calmar ratios, win rate and profit factor as specified |
| BacktestMetrics.SharpeByVariance | backend/app/backtest/metrics.py:66-73 | squared and times the sample variance the Sharpe ratio is 252 times the squared mean return, and it has the sign of the mean |
| BacktestMetrics.FlatReturnsScoreNothing | backend/app/backtest/metrics.py:66-76 | returns that vary by at most 1e-9, or fewer than two, have a Sharpe ratio of zero |
| BacktestMetrics.ReturnsLeadOn | backend/app/backtest/metrics.py:58-65 | returns lead from each positive recorded equity to the next; from any other the return is zero |
| BacktestMetrics.NegativesAreTheLosses | backend/app/backtest/metrics.py:69-70 | the downside deviation is taken over the negative returns, each as often as it occurs |
| BacktestMetrics.FiguresAreRatios | backend/app/backtest/metrics.py:20-96 | total return, win rate, profit factor and Calmar ratio, each times what it is a ratio of; the answers where there is nothing to divide by |
| BacktestMetrics.ProfitLessLoss | backend/app/backtest/metrics.py:89-92 | gross profit less gross loss is the realized total |
| BacktestMetrics.OverAYear | backend/app/backtest/metrics.py:25-28 | over 365 days annual growth is the total return |
| BacktestMetrics.ReturnsHaveOneSign | backend/app/backtest/metrics.py:20-32 | total return and annual growth are positive, and negative, together |
| BacktestMetrics.WinRateInRange | backend/app/backtest/metrics.py:83-87 | the win rate lies in [0, 100] |
| BacktestMetrics.LossIsDrawdown | backend/app/backtest/metrics.py:20-55 | a loss shows as a drawdown of at least its size, unless the equity ends below zero |
| ScorecardCeilings.RejectedScoresAreBounded | backend/app/backtest/grading.py:136-359 | for figures that come from a backtest: with no profit, with a drawdown beyond the gate, or with a profit factor below one, the score stays within the ceiling of that flaw |
| ScorecardCeilings.RejectedScoresBelowNinety | backend/app/backtest/grading.py:338-347 | no rejected strategy scores ninety, whatever the horizon |
| ScorecardCeilings.ReturnCeilingIsReached | backend/app/backtest/grading.py:338-347 | a backtest whose only flaw is a loss scores exactly its ceiling |
| ScorecardCeilings.DrawdownCeilingIsApproached | backend/app/backtest/grading.py:338-347 | backtests whose only flaw is the drawdown score as close to its ceiling as one likes |
| ScorecardCeilings.ProfitFactorCeilingIsApproached | backend/app/backtest/grading.py:338-347 | the same where the only flaw is the profit factor |
| ScorecardWitness.Play | backend/app/engine/contracts.py:214-259 | every backtest that the ceilings are shown with is that of a portfolio after a hundred fills and four marks: a closed profit of any size and an equity that climbs |
| Drawdown.LargestDropIsLargest | backend/app/backtest/metrics.py:38-55 | the one-pass drawdown value is the largest fall between any two points, and some pair attains it |
| Drawdown.LargestPercentIsLargest | backend/app/backtest/metrics.py:38-55 | the percentage is attained, and on equities that are not negative no fall exceeds it |
| Drawdown.PercentAtMostHundred | backend/app/backtest/metrics.py:51-53 | on a curve that never goes negative the percentage lies in [0, 100] |
| Drawdown.PeakIsWorstStartExactly | backend/app/backtest/metrics.py:47-53 | at one point no start falls further in percent than the running peak if and only if the equity is not negative or all positive equities so far are equal |
| Drawdown.LargestPercentIsExact | backend/app/backtest/metrics.py:38-55 | the percentage is the largest fall of all if and only if the largest fall to negative equity from the lowest positive start, after a second level, is at most the percentage recorded before it |
| Drawdown.NegativeEquityHidesAFall | backend/app/backtest/metrics.py:51-53 | a curve on which the percentage understates a fall |
| Drawdown.MeasureDrawdown | backend/app/backtest/metrics.py:38-55 | the loop computes both figures |
| Drawdown.SimulatePath | backend/app/backtest/monte_carlo.py:162-178 | the path, its end at capital plus total profit, its drawdown, and whether some trade reached the ruin level |
| Drawdown.CurveIsRunningTotal | backend/app/backtest/monte_carlo.py:162-178 | after k trades the equity is the capital plus the first k results |
| MonteCarlo.PercentileMonotone | backend/app/backtest/monte_carlo.py:59-71 | percentiles of a sorted sample never fall as the rank rises and stay within least and largest |
| MonteCarlo.PercentileAtRank | backend/app/backtest/monte_carlo.py:67-71 | the percentile at k/(n-1) is the value of rank k |
| MonteCarlo.PercentileOfEvenSpacing | backend/app/backtest/monte_carlo.py:67-71 | between ranks the percentile is linear: on evenly spaced values it is proportional to the rank |
| MonteCarlo.OrderedIsSorted | backend/app/backtest/monte_carlo.py:75 | the sample in order is a sorted arrangement of the same values |
| MonteCarlo.SummaryIsOrdered | backend/app/backtest/monte_carlo.py:74-83 | p5 to p99 are in order and within any bounds on the sample |
| MonteCarlo.SummaryOfEvenSpacing | backend/app/backtest/monte_carlo.py:74-83 | of a hundred and one evenly spaced values the summary is the 5th, 25th, 50th, 75th, 95th and 99th |
| MonteCarlo.Resample | backend/app/backtest/monte_carlo.py:149-160 | the trades of one iteration, for a shuffle, a bootstrap and a block bootstrap cut to length |
| MonteCarlo.SampledExactly | backend/app/backtest/monte_carlo.py:149-160 | what each method takes from the trades number by number drawn; trade k of a block bootstrap is in block k / L, at place k % L |
| MonteCarlo.TradeProfits | backend/app/backtest/monte_carlo.py:95-119 | consecutive fills are paired into profits, a last one without a partner ignored; amounts are taken as they are |
| MonteCarlo.PairsExactly | backend/app/backtest/monte_carlo.py:95-115 | the i-th profit is that of fills 2i and 2i + 1; a last fill without a partner has none |
| MonteCarlo.PairGains | backend/app/backtest/monte_carlo.py:102-114 | a pair makes what the entry's quantity gained if it was bought and then sold, and otherwise what it lost, brokerage and taxes deducted |
| MonteCarlo.RoundTripsAddUp | backend/app/backtest/monte_carlo.py:95-114 | where each pair buys and sells the same quantity the profits add up to the money the fills brought in, slippage not deducted |
| MonteCarlo.RunMonteCarlo | backend/app/backtest/monte_carlo.py:86-197 | for fills or for amounts: the summaries of all ends and drawdowns, the share of ruined runs, the first paths, and the answer without trades |
| MonteCarlo.SumOfPermutation | backend/app/backtest/monte_carlo.py:149-151 | a total does not depend on the order of the trades |
| MonteCarlo.ShuffleHasOneTerminal | backend/app/backtest/monte_carlo.py:148-193 | under a shuffle every path ends alike, so all six terminal percentiles equal capital plus total profit |
| MonteCarlo.TerminalsWithinTrades | backend/app/backtest/monte_carlo.py:148-193 | for every method and all draws the terminal figures lie between n worst and n best trades |
| MonteCarlo.RiskIsPercentage | backend/app/backtest/monte_carlo.py:189 | the risk of ruin lies in [0, 100] |
| MonteCarlo.RiskCountsLosses | backend/app/backtest/monte_carlo.py:141-189 | the risk of ruin is the percentage of runs that at some trade have lost the threshold's share of the capital |
| MonteCarlo.RiskFallsWithLevel | backend/app/backtest/monte_carlo.py:141-181 | a lower ruin level ruins no run that a higher one spares |
| PortfolioAccounting.Position.ApplyFill | backend/app/engine/contracts.py:109-167 | quantities add up, the money brought in falls by exactly the consideration, adding realizes nothing, reducing keeps the average, a flip restarts at the fill price |
| PortfolioAccounting.Position.UpdatePrice | backend/app/engine/contracts.py:169-177 | open profit is the quantity times the distance from the average, long or short |
| PortfolioAccounting.Portfolio.ApplyFill | backend/app/engine/contracts.py:214-235 | cash, the one position and the fills change, nothing else does, and every position stays the net of its fills |
| PortfolioAccounting.Portfolio.MarkToMarket | backend/app/engine/contracts.py:237-259 | positions are repriced to their last quote and the equity recorded is cash plus the positions at their prices |
| PortfolioAccounting.EquityIsCashAndValue | backend/app/engine/contracts.py:243-248 | the accounting identity: capital plus realized and open profit less fees equals cash plus market value, after any fills |
| PortfolioAccounting.PaidEitherWay | backend/app/engine/contracts.py:214-235 | summed by security or in order of time, the fills cost the same |
| PortfolioAccounting.FillOnlyReprices | backend/app/engine/contracts.py:109-177 | a fill moves the equity only by repricing what was held; trading at the market price is free but for fees |
| PortfolioAccounting.FlatIsFullyRealized | backend/app/engine/contracts.py:165-177 | once a security is sold off its realized profit is what was received less what was paid |
| FuturesRunner.ByExpirySorts | backend/app/backtest/futures_runner.py:59 | contracts are put in order of expiry, none lost, and those of one expiry keep their order |
| FuturesRunner.LastBarIsFound | backend/app/backtest/futures_runner.py:99-101 | a bar is looked up by its time stamp, the last one of several |
| FuturesRunner.OwnBarsAreFound | backend/app/backtest/futures_runner.py:99-101 | and among the bars of the contract asked for |
| FuturesRunner.StepsAreBarTimes | backend/app/backtest/futures_runner.py:76-81 | a run steps, in order, through every time inside its dates at which any contract has a bar |
| FuturesRunner.EntersAtTheOpen | backend/app/backtest/futures_runner.py:104-131 | the entry is in the first contract at its opening price, or at 100 without a bar, with all lots |
| FuturesRunner.RollsAtTheClose | backend/app/backtest/futures_runner.py:158-234 | a roll closes the outgoing contract at its close, or at the entry price without a bar, opens the next at its close, and records both prices, their difference and both fees |
| FuturesRunner.MarginIsShareOfValue | backend/app/backtest/futures_runner.py:240-242 | the margin is the strategy's share of the position's market value |
| FuturesRunner.OnlyActiveIsHeld | backend/app/backtest/futures_runner.py:108-233 | after every time step fills net to zero in every contract but the active one, which holds plus or minus lot size times lots |
| FuturesRunner.RollsChain | backend/app/backtest/futures_runner.py:147-233 | roll i leads from contract i to contract i + 1, at the first time step after contract i became active that allows it |
| FuturesRunner.RollsAreCounted | backend/app/backtest/futures_runner.py:186-233 | one record and two fills per roll, one fill for the entry |
| FuturesRunner.RollsWhenDue | backend/app/backtest/futures_runner.py:147-157 | a contract can be rolled if and only if there is a next one that has a bar and the days to its expiry are at most those configured |
| FuturesRunner.RollsAreDue | backend/app/backtest/futures_runner.py:143-233 | over a whole run no contract is rolled before that |
| FuturesRunner.RollTimesIncrease | backend/app/backtest/futures_runner.py:143-233 | at most one roll per time step |
| FuturesRunner.LastContractHadNoChance | backend/app/backtest/futures_runner.py:147-157 | the contract held at the end could not be rolled at any of its steps |
| FuturesRunner.FeesAreRecorded | backend/app/backtest/futures_runner.py:220-228 | all fees are those of the entry and of the roll records |
| FuturesRunner.PaidIsBackAdjusted | backend/app/backtest/futures_runner.py:158-228 | the money paid is the exposure at the entry price moved by every roll spread |
| FuturesRunner.EquityIsBackAdjusted | backend/app/backtest/futures_runner.py:236-238 | the recorded equity is capital less fees plus the exposure at the mark less the entry price and every recorded spread |
| FuturesRunner.MarkIsTrueExactly | backend/app/backtest/futures_runner.py:143-238 | a step without a roll records the equity at the true price of the contract if and only if there is a bar or that price is the entry price |
| FuturesRunner.RollIsFreeExactly | backend/app/backtest/futures_runner.py:143-238 | a roll step records the equity at the true price of the outgoing contract less the two fees if and only if that contract has a bar or stands at the entry price |
| FuturesRunner.RollRecordsActivePrice | backend/app/backtest/futures_runner.py:158-238 | what a roll step records is the equity at the price assumed for the outgoing contract, less the two fees |
| FuturesRunner.FirstRollWithoutBarForgetsProfit | backend/app/backtest/futures_runner.py:145-160 | a first roll without a bar of the outgoing contract records the starting capital less all fees |
| FuturesRunner.ProfitVanishesAtARoll | backend/app/backtest/futures_runner.py:145-160 | a run of three steps that records 1050 before such a roll and 1000 after it |
| FuturesRunner.Run | backend/app/backtest/futures_runner.py:46-261 | trades, roll records, margins and the equity curve of a whole run, and the empty answers |
| Authentication.AuthService.IsLockedOut | backend/app/auth/service.py:107-119 | attempts out of the window are forgotten; locked with the truncated remaining wait exactly when five still count |
| Authentication.AuthService.InitiateLogin | backend/app/auth/service.py:153-175 | one password step of the specification |
| Authentication.AuthService.VerifyTotpChallenge | backend/app/auth/service.py:177-220 | one code step: the challenge is used up whatever the outcome |
| Authentication.AuthService.LoginWithRecoveryCode | backend/app/auth/service.py:222-257 | one recovery step: the code is used up on success |
| Authentication.AuthService.ValidateSession | backend/app/auth/service.py:283-307 | accepts a known session until its expiry and drops it after; demonstration sessions only outside production |
| AuthenticationRuns.RecoveryCodesAreSingleUse | backend/app/auth/service.py:240-249 | over every run the used codes are distinct initial codes, and the rest is what is left |
| AuthenticationRuns.ChallengesAreSpent | backend/app/auth/service.py:169-220 | pending challenges plus sessions opened with a code never exceed the challenges issued |
| AuthenticationRuns.SessionsAreBounded | backend/app/auth/service.py:153-280 | sessions opened plus unused credentials never exceed challenges issued plus initial recovery codes |
| AuthenticationRuns.CodeSessionsHadBothFactors | backend/app/auth/service.py:195-220 | a session opened with a code had the right code and a password check at most five minutes before, and its challenge is gone |
| AuthenticationRuns.PasswordStepExactly | backend/app/auth/service.py:153-175 | a password step issues its challenge if and only if fewer than five failures still count and the password is right |
| AuthenticationRuns.CodeOpensExactly | backend/app/auth/service.py:177-220 | a code opens its session if and only if fewer than five failures still count, the challenge is pending and at most 300 seconds old, and the code is right |
| AuthenticationRuns.RecoveryOpensExactly | backend/app/auth/service.py:222-257 | a recovery opens its session if and only if fewer than five failures still count, the password is right and the code is unused |
| AuthenticationRuns.RecoverySessionsHadBothFactors | backend/app/auth/service.py:222-257 | over every run a session opened by recovery had the right password and an initial code that nobody had used |
| AuthenticationRuns.AcceptedExactlyWhileLive | backend/app/auth/service.py:262-311 | over every run that draws new session tokens, and at every later time, a session is accepted if and only if it was opened at most a day before and has not been revoked or replaced since, or is a demonstration session outside production |
| AuthenticationRuns.FailuresAreCapped | backend/app/auth/service.py:107-130 | over every run no address records more than five failures in any half-open quarter of an hour without a successful login |
| AuthenticationRuns.LockoutEndsExactly | backend/app/auth/service.py:107-119 | a lockout ends exactly a quarter of an hour after the first attempt that counts |
| AuthenticationRuns.LockoutHolds | backend/app/auth/service.py:153-257 | until then no calls of anybody change the attempts of the address or log it in |
| AuthenticationRuns.TruncatedHintIsTooShort | backend/app/auth/service.py:115-118 | trying again after exactly the hinted wait is refused if and only if more than a second and not a whole number was left |
| AuthenticationRuns.WaitingAsToldIsRefused | backend/app/auth/service.py:107-119 | five wrong passwords, a hint of 898 seconds, and a refusal 898 seconds later |

## Left out

- REST and WebSocket routers, databases, Redis, HTTP and socket transport, key storage, subprocesses and the frontend:
  plumbing around the engines.
- `RedisTokenBucket` (backend/app/dhan/limiter.py:313): clock-aligned windows inside a server-side script, a different
  algorithm.
- Rounding of reported figures to a few digits, and floating-point error.
- Concurrency: every call runs to its end, as it does under the lock or in the single event loop; the shared Redis
  limiter is not modelled.
- Black-76 pricing, `exp`, `erf` and the inverse normal distribution: the pricing error is an arbitrary function.
- CalculateBacktestMetrics: the annualising power, the standard deviations and the square root of 252 are inputs with the
  properties that define them; figures copied from the portfolio (total costs, profits) are left out.
- The zero test of the breakeven search is exact here; the code allows 1e-5.
- Loop: a stop request arrives at a wait or ends a turn.
- Run: a date is the day number of a time in seconds, whatever its time zone; identifiers and the recorded commit are not
  modelled; bars with the same time stamp in one contract are looked up as the dictionary does, the last one winning.
- RunMonteCarlo: a list that mixes fills with amounts is not modelled.
- RequestWithRetry: does not model the parsing of response bodies and of the date form of Retry-After.
- AuthService: does not model the audit log and the password change in the settings, which records failures without
  looking at the lockout.
- `FeedConnectionStateMachine`, `FeedHeartbeatMonitor`, `calculate_atm_iv`, IV rank and smile, put-call ratios, the
  deflated Sharpe ratio, White's reality check, grid-based extrema and unboundedness flags: easy members or heuristics.
- The fields inside a feed packet's payload, which stay bytes, and the per-packet callback and heartbeat.
- Market-hours logic and quote synchronisation of the live feed; the hot cache is an arbitrary function.

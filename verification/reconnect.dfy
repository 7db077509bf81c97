/**
 Pacing of the feed's reconnections (the loop of `run` in backend/app/dhan/live_feed_service.py): when
 a socket is opened, with which token, and how long the service waits after each failure.  What the
 credential store, the clock and the network do in each turn of the loop is an arbitrary input.
 */
module FeedReconnect {
  import opened Common

  const INITIAL_BACKOFF := 1.0
  const MAX_BACKOFF := 120.0
  const STABLE_CONNECTION := 60.0
  const RATE_LIMITED_BACKOFF := 300.0
  const CREDENTIAL_POLL := 30.0
  const CONNECTION_LIMIT_CODE := 805
  const CREDENTIAL_CODES := {806, 807, 808, 809, 810}

  /** What the credential store returns; tokens stand for their fingerprints. */
  datatype Credentials = Missing | Present(token: string, expiresAt: Option<real>)

  datatype Failure =
    | FeedRejected(code: int)
    | HandshakeStatus(status: int)
    | OtherFailure

  /** The least delay a failure asks for, and whether it condemns the token. */
  function Policy(failure: Failure): (real, bool) {
    match failure
    case FeedRejected(code) =>
      if code in CREDENTIAL_CODES then (0.0, true)
      else if code == CONNECTION_LIMIT_CODE then (RATE_LIMITED_BACKOFF, false)
      else (0.0, false)
    case HandshakeStatus(status) =>
      if status == 429 then (RATE_LIMITED_BACKOFF, false)
      else (0.0, status in {401, 403})
    case OtherFailure => (0.0, false)
  }

  /** How an opened connection ends; `lasted` is None when the handshake itself failed. */
  datatype Ending = StopRequested | Failed(lasted: Option<real>, failure: Failure)

  /** One turn of the loop: the wall clock, the credentials found, and how a connection opened now would end. */
  datatype Turn = Turn(now: real, credentials: Credentials, ending: Ending)

  /** What the service did in the turn; a rejected connection is followed by no wait at all. */
  datatype Event =
    | Idle(poll: real)
    | Stopped(token: string)
    | Condemned(token: string)
    | Retrying(token: string, delay: real)

  datatype State = State(backoff: real, rejected: Option<string>)

  predicate Expired(c: Credentials, now: real) {
    c.Present? && c.expiresAt.Some? && c.expiresAt.value <= now
  }

  predicate Stable(e: Ending) {
    e.Failed? && e.lasted.Some? && e.lasted.value >= STABLE_CONNECTION
  }

  function Step(s: State, turn: Turn): (State, Event) {
    if turn.credentials.Missing? || Expired(turn.credentials, turn.now) then (s, Idle(CREDENTIAL_POLL))
    else
      var token := turn.credentials.token;
      if Some(token) == s.rejected then (s, Idle(CREDENTIAL_POLL))
      else
        match turn.ending
        case StopRequested => (s, Stopped(token))
        case Failed(_, failure) =>
          var backoff := if Stable(turn.ending) then INITIAL_BACKOFF else s.backoff;
          var (minimum, condemned) := Policy(failure);
          if condemned then (State(backoff, Some(token)), Condemned(token))
          else (State(Min(backoff * 2.0, MAX_BACKOFF), s.rejected), Retrying(token, Max(backoff, minimum)))
  }

  /** The state after a run of a service that knew of one rejected token, or of none, when the run began. */
  function Run(known: Option<string>, t: Trace<Turn>): State {
    if t.Begin? then State(INITIAL_BACKOFF, known) else Step(Run(known, t.earlier), t.last).0
  }

  /** What happened in the last turn of a run. */
  function EventOf(known: Option<string>, t: Trace<Turn>): Event
    requires t.Then?
  {
    Step(Run(known, t.earlier), t.last).1
  }

  // ---------------------------------------------------------------- which tokens are used

  /** The token condemned last, read off the events of a run. */
  function LastCondemned(known: Option<string>, t: Trace<Turn>): Option<string> {
    if t.Begin? then known
    else if EventOf(known, t).Condemned? then Some(EventOf(known, t).token)
    else LastCondemned(known, t.earlier)
  }

  lemma {:induction false} RejectedIsLastCondemned(known: Option<string>, t: Trace<Turn>)
    ensures Run(known, t).rejected == LastCondemned(known, t)
  {
    if t.Then? { RejectedIsLastCondemned(known, t.earlier); }
  }

  /**
     A socket is opened exactly when the token is present, unexpired and not the one condemned last; otherwise the
     service looks again in half a minute.
     */
  lemma OpensOnlyUsableTokens(known: Option<string>, t: Trace<Turn>)
    requires t.Then?
    ensures EventOf(known, t) != Idle(30.0) <==>
            var c := t.last.credentials;
            && c.Present? && (c.expiresAt.None? || c.expiresAt.value > t.last.now)
            && Some(c.token) != LastCondemned(known, t.earlier)
    ensures EventOf(known, t).Idle? ==> EventOf(known, t) == Idle(30.0)
    ensures !EventOf(known, t).Idle? ==> EventOf(known, t).token == t.last.credentials.token
  {
    RejectedIsLastCondemned(known, t.earlier);
  }

  /** A failed connection condemns its token exactly when the broker refused the credentials. */
  lemma CondemnsExactly(known: Option<string>, t: Trace<Turn>)
    requires t.Then? && !EventOf(known, t).Idle? && t.last.ending.Failed?
    ensures EventOf(known, t).Condemned? <==>
            match t.last.ending.failure
            case FeedRejected(code) => 806 <= code <= 810
            case HandshakeStatus(status) => status == 401 || status == 403
            case OtherFailure => false
    ensures EventOf(known, t).Condemned? || EventOf(known, t).Retrying?
  {
  }

  /** What a failure asks for at least: five minutes when the broker limits connections. */
  function LeastDelay(failure: Failure): real {
    if failure == FeedRejected(805) || failure == HandshakeStatus(429) then 300.0 else 0.0
  }

  /** Only the last condemned token is remembered: two bad tokens taking turns are retried with no wait. */
  lemma AlternatingTokensAreRetried(now: real, known: Option<string>)
    requires known != Some("a") && known != Some("b")
    ensures var bad := (token: string) => Turn(now, Present(token, None), Failed(None, HandshakeStatus(401)));
            var twice := Then(Then(Begin, bad("a")), bad("b"));
            EventOf(known, twice.earlier) == Condemned("a") && EventOf(known, twice) == Condemned("b")
            && EventOf(known, Then(twice, bad("a"))) == Condemned("a")
  {
  }

  // ---------------------------------------------------------------- how long it waits

  /** Non-credential failures since the last stable connection, that connection's own failure included. */
  function FailuresSinceReset(known: Option<string>, t: Trace<Turn>): nat {
    if t.Begin? then 0
    else
      var before := if !EventOf(known, t).Idle? && Stable(t.last.ending) then 0
                    else FailuresSinceReset(known, t.earlier);
      before + if EventOf(known, t).Retrying? then 1 else 0
  }

  lemma {:induction false} PowerAtLeastOne(k: nat)
    ensures PowerOfTwo(k) >= 1.0
  {
    if k > 0 { PowerAtLeastOne(k - 1); }
  }

  /** The backoff is a capped power of two in the number of failures since the last reset. */
  lemma {:induction false} BackoffIsPowerOfTwo(known: Option<string>, t: Trace<Turn>)
    ensures Run(known, t).backoff == Min(PowerOfTwo(FailuresSinceReset(known, t)), MAX_BACKOFF)
  {
    if t.Then? {
      BackoffIsPowerOfTwo(known, t.earlier);
      PowerAtLeastOne(FailuresSinceReset(known, t.earlier));
    }
  }

  /**
     The k-th non-credential failure since the last reset waits exactly the larger of min(2^(k-1), 120)
     seconds and what the failure itself asks for: 300 for HTTP 429 or code 805.
     */
  lemma KthFailureWaits(known: Option<string>, t: Trace<Turn>)
    requires t.Then? && EventOf(known, t).Retrying?
    ensures var k := FailuresSinceReset(known, t);
            && k >= 1
            && EventOf(known, t).delay == Max(Min(PowerOfTwo(k - 1), 120.0), LeastDelay(t.last.ending.failure))
  {
    BackoffIsPowerOfTwo(known, t.earlier);
  }

  /** A failed connection starts the count again exactly when it had lasted a minute; a shorter one adds to it. */
  lemma OnlyStableConnectionsReset(known: Option<string>, t: Trace<Turn>)
    requires t.Then? && EventOf(known, t).Retrying?
    ensures var lasted := t.last.ending.lasted;
            FailuresSinceReset(known, t)
            == if lasted.Some? && lasted.value >= 60.0 then 1 else FailuresSinceReset(known, t.earlier) + 1
  {
  }

  /** Nothing but a minute's connection lowers the backoff. */
  lemma BackoffOnlyGrows(known: Option<string>, t: Trace<Turn>)
    requires t.Then?
    requires t.last.ending.StopRequested? || t.last.ending.lasted.None? || t.last.ending.lasted.value < 60.0
    ensures Run(known, t).backoff >= Run(known, t.earlier).backoff
  {
    BackoffIsPowerOfTwo(known, t.earlier);
    PowerAtLeastOne(FailuresSinceReset(known, t.earlier));
  }

  /** Seconds spent waiting after failures since the last reset. */
  function WaitedSinceReset(known: Option<string>, t: Trace<Turn>): real {
    if t.Begin? then 0.0
    else
      var before := if !EventOf(known, t).Idle? && Stable(t.last.ending) then 0.0
                    else WaitedSinceReset(known, t.earlier);
      before + if EventOf(known, t).Retrying? then EventOf(known, t).delay else 0.0
  }

  /** The waits of k failures in a row: 1 + 2 + ... + 64 = 127 seconds for the first seven, then 120 each. */
  function LeastWait(k: nat): real {
    if k == 0 then 0.0 else LeastWait(k - 1) + Min(PowerOfTwo(k - 1), MAX_BACKOFF)
  }

  lemma {:induction false} WaitsAddUp(known: Option<string>, t: Trace<Turn>)
    ensures LeastWait(FailuresSinceReset(known, t)) <= WaitedSinceReset(known, t)
                                                    <= 300.0 * FailuresSinceReset(known, t) as real
  {
    if t.Then? {
      WaitsAddUp(known, t.earlier);
      if EventOf(known, t).Retrying? { KthFailureWaits(known, t); }
    }
  }

  lemma {:induction false} LeastWaitGrows(k: nat)
    requires k >= 7
    ensures LeastWait(k) == 127.0 + 120.0 * (k - 7) as real && PowerOfTwo(k) >= 128.0
  {
    if k == 7 {
      assert PowerOfTwo(0) == 1.0 && PowerOfTwo(1) == 2.0 && PowerOfTwo(2) == 4.0 && PowerOfTwo(3) == 8.0;
      assert PowerOfTwo(4) == 16.0 && PowerOfTwo(5) == 32.0 && PowerOfTwo(6) == 64.0;
      assert LeastWait(3) == 7.0 && LeastWait(5) == 31.0;
    } else {
      LeastWaitGrows(k - 1);
    }
  }

  /** However often connections fail without ever becoming stable, k failures take at least 120k - 713 seconds. */
  lemma FailuresAreSlow(known: Option<string>, t: Trace<Turn>)
    requires FailuresSinceReset(known, t) >= 7
    ensures WaitedSinceReset(known, t) >= 127.0 + 120.0 * (FailuresSinceReset(known, t) - 7) as real
  {
    WaitsAddUp(known, t);
    LeastWaitGrows(FailuresSinceReset(known, t));
  }

  // ---------------------------------------------------------------- the loop

  /** The first turns of an input sequence, as a run. */
  function TraceOf(turns: seq<Turn>): (t: Trace<Turn>)
    ensures t.Begin? <==> turns == []
  {
    if turns == [] then Begin else Then(TraceOf(turns[..|turns| - 1]), turns[|turns| - 1])
  }

  lemma NothingYet()
    ensures TraceOf([]) == Begin && Failures([]) == 0
  {
  }

  lemma TraceSnoc(turns: seq<Turn>, i: nat)
    requires i < |turns|
    ensures TraceOf(turns[..i + 1]) == Then(TraceOf(turns[..i]), turns[i])
  {
    assert turns[..i + 1][..i] == turns[..i];
  }

  /** Which of the turns ended in a failed connection. */
  ghost function Attempts(events: seq<Event>): set<int> {
    set i | 0 <= i < |events| && (events[i].Condemned? || events[i].Retrying?)
  }

  /** The same, counted one after the other. */
  function Failures(events: seq<Event>): nat {
    if events == [] then 0
    else
      var last := events[|events| - 1];
      Failures(events[..|events| - 1]) + if last.Condemned? || last.Retrying? then 1 else 0
  }

  lemma FailuresSnoc(events: seq<Event>, e: Event)
    ensures Failures(events + [e]) == Failures(events) + if e.Condemned? || e.Retrying? then 1 else 0
  {
    assert (events + [e])[..|events|] == events;
  }

  lemma {:induction false} FailuresAreAttempts(events: seq<Event>)
    ensures Failures(events) == |Attempts(events)|
  {
    if events != [] {
      var last := |events| - 1;
      var earlier := events[..last];
      FailuresAreAttempts(earlier);
      if events[last].Condemned? || events[last].Retrying? {
        assert Attempts(events) == Attempts(earlier) + {last};
      } else {
        assert Attempts(events) == Attempts(earlier);
      }
    }
  }

  class DhanLiveFeedService {
    var rejectedToken: Option<string>
    var reconnectCount: nat

    constructor ()
      ensures rejectedToken == None && reconnectCount == 0
    {
      rejectedToken, reconnectCount := None, 0;
    }

    /**
       Run turn after turn until told to stop, from whatever an earlier run left behind; one event for each turn
       made.
       */
    method Loop(turns: seq<Turn>) returns (events: seq<Event>)
      modifies this
      ensures |events| <= |turns|
      ensures forall i :: 0 <= i < |events| ==> events[i] == EventOf(old(rejectedToken), TraceOf(turns[..i + 1]))
      ensures forall i :: 0 <= i < |events| - 1 ==> !events[i].Stopped?
      ensures |events| < |turns| ==> events != [] && events[|events| - 1].Stopped?
      ensures rejectedToken == Run(old(rejectedToken), TraceOf(turns[..|events|])).rejected
      ensures reconnectCount == old(reconnectCount) + |Attempts(events)|
    {
      NothingYet();
      hide TraceOf, LeastWait, Failures, Attempts;
      var backoff := INITIAL_BACKOFF;
      events := [];
      for i := 0 to |turns|
        invariant |events| == i
        invariant forall k :: 0 <= k < i ==>
                    events[k] == EventOf(old(rejectedToken), TraceOf(turns[..k + 1])) && !events[k].Stopped?
        invariant State(backoff, rejectedToken) == Run(old(rejectedToken), TraceOf(turns[..i]))
        invariant reconnectCount == old(reconnectCount) + Failures(events)
      {
        TraceSnoc(turns, i);
        var turn := turns[i];
        if turn.credentials.Missing? || Expired(turn.credentials, turn.now) {
          FailuresSnoc(events, Idle(CREDENTIAL_POLL));
          events := events + [Idle(CREDENTIAL_POLL)];
          continue;
        }
        var token := turn.credentials.token;
        if Some(token) == rejectedToken {
          FailuresSnoc(events, Idle(CREDENTIAL_POLL));
          events := events + [Idle(CREDENTIAL_POLL)];
          continue;
        }
        if turn.ending.StopRequested? {
          FailuresSnoc(events, Stopped(token));
          events := events + [Stopped(token)];
          FailuresAreAttempts(events);
          return;
        }
        var (minimum, condemned) := Policy(turn.ending.failure);
        if turn.ending.lasted.Some? && turn.ending.lasted.value >= STABLE_CONNECTION {
          backoff := INITIAL_BACKOFF;
        }
        reconnectCount := reconnectCount + 1;
        if condemned {
          rejectedToken := Some(token);
          FailuresSnoc(events, Condemned(token));
          events := events + [Condemned(token)];
          continue;
        }
        FailuresSnoc(events, Retrying(token, Max(backoff, minimum)));
        events := events + [Retrying(token, Max(backoff, minimum))];
        backoff := Min(backoff * 2.0, MAX_BACKOFF);
      }
      FailuresAreAttempts(events);
    }
  }
}

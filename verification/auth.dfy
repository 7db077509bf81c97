/**
 The single-user login service (backend/app/auth/service.py): failed-attempt lockout, two-step login with one-time
 challenges, one-time recovery codes, sessions.  Password, code and hash checks are inputs, as are the random tokens.
 `Respond` is one call on the state; `AuthService` carries the dictionaries and is proved to perform exactly `Respond`.
 */
module Authentication {
  import opened Common

  const MAX_FAILED_ATTEMPTS := 5
  const LOCKOUT_WINDOW := 900.0
  const CHALLENGE_EXPIRY := 300.0
  const SESSION_DURATION := 86400.0
  const DEMO_SESSIONS := {"demo-session-token", "demo-csrf-token", "demo_session"}

  /** The successive clock readings of one call. */
  datatype Readings = Readings(first: real, second: real, third: real)
  {
    predicate Ordered() {
      first <= second <= third
    }
  }

  /** Failure times per address, creation times per challenge, unused recovery code hashes, expiry times per session. */
  datatype State = State(
    failures: map<string, seq<real>>,
    challenges: map<string, real>,
    recoveryCodes: set<string>,
    sessions: map<string, real>)

  datatype Request =
    | CheckLockout(ip: string)
    | Login(ip: string, passwordOk: bool, token: string)
    | VerifyTotp(ip: string, challenge: string, codeOk: bool, oldSession: Option<string>, newSession: string)
    | Recover(ip: string, passwordOk: bool, codeHash: string, oldSession: Option<string>, newSession: string)
    | Revoke(session: string)
    | Validate(session: string, production: bool)

  datatype Call = Call(request: Request, at: Readings)

  datatype Reply =
    | LockedOut(retryAfter: int)
    | NotLocked
    | Refused
    | ChallengeIssued(challenge: string)
    | SessionOpened(session: string)
    | Revoked(existed: bool)
    | Accepted(session: string)
    | Unknown

  datatype Outcome = Outcome(after: State, reply: Reply)

  function Attempts(s: State, ip: string): seq<real> {
    if ip in s.failures then s.failures[ip] else []
  }

  /** The attempts that still count. */
  function Recent(times: seq<real>, now: real): seq<real> {
    if times == [] then []
    else
      var last := times[|times| - 1];
      Recent(times[..|times| - 1], now) + if now - last < LOCKOUT_WINDOW then [last] else []
  }

  predicate Locked(s: State, ip: string, now: real) {
    |Recent(Attempts(s, ip), now)| >= MAX_FAILED_ATTEMPTS
  }

  /** The seconds a locked-out caller is told to wait, truncated. */
  function RetryAfter(s: State, ip: string, now: real): (seconds: int)
    requires Locked(s, ip, now)
    ensures seconds >= 1
  {
    var remaining := (LOCKOUT_WINDOW - (now - Recent(Attempts(s, ip), now)[0])).Floor;
    if remaining >= 1 then remaining else 1
  }

  /** Every look at an address forgets its old attempts. */
  function Looked(s: State, ip: string, now: real): State {
    s.(failures := s.failures[ip := Recent(Attempts(s, ip), now)])
  }

  function Failed(s: State, ip: string, now: real): State {
    s.(failures := s.failures[ip := Attempts(s, ip) + [now]])
  }

  /** Forget the failures of the address, end the old session, start the new one for a day. */
  function Opened(s: State, ip: string, oldSession: Option<string>, newSession: string, now: real): State {
    var kept := if oldSession.Some? && oldSession.value != "" then s.sessions - {oldSession.value} else s.sessions;
    s.(failures := s.failures - {ip}, sessions := kept[newSession := now + SESSION_DURATION])
  }

  /** A stored session that is past its expiry is dropped when it is looked at. */
  function Checked(s: State, session: string, now: real): Outcome {
    if session !in s.sessions then Outcome(s, Unknown)
    else if now > s.sessions[session] then Outcome(s.(sessions := s.sessions - {session}), Unknown)
    else Outcome(s, Accepted(session))
  }

  function Respond(s: State, c: Call): Outcome {
    match c.request
    case CheckLockout(ip) =>
      Outcome(Looked(s, ip, c.at.first),
              if Locked(s, ip, c.at.first) then LockedOut(RetryAfter(s, ip, c.at.first)) else NotLocked)
    case Revoke(session) =>
      Outcome(s.(sessions := s.sessions - {session}), Revoked(session in s.sessions))
    case Validate(session, production) =>
      if !production && session in DEMO_SESSIONS then Outcome(s, Accepted(session))
      else Checked(s, session, c.at.first)
    case Login(ip, passwordOk, token) =>
      var looked := Looked(s, ip, c.at.first);
      if Locked(s, ip, c.at.first) then Outcome(looked, LockedOut(RetryAfter(s, ip, c.at.first)))
      else if !passwordOk then Outcome(Failed(looked, ip, c.at.second), Refused)
      else Outcome(looked.(challenges := looked.challenges[token := c.at.second]), ChallengeIssued(token))
    case VerifyTotp(ip, challenge, codeOk, oldSession, newSession) =>
      var looked := Looked(s, ip, c.at.first);
      if Locked(s, ip, c.at.first) then Outcome(looked, LockedOut(RetryAfter(s, ip, c.at.first)))
      else if challenge !in s.challenges then Outcome(Failed(looked, ip, c.at.second), Refused)
      else
        var popped := looked.(challenges := looked.challenges - {challenge});
        if c.at.second - s.challenges[challenge] > CHALLENGE_EXPIRY || !codeOk then
          Outcome(Failed(popped, ip, c.at.third), Refused)
        else
          Outcome(Opened(popped, ip, oldSession, newSession, c.at.third), SessionOpened(newSession))
    case Recover(ip, passwordOk, codeHash, oldSession, newSession) =>
      var looked := Looked(s, ip, c.at.first);
      if Locked(s, ip, c.at.first) then Outcome(looked, LockedOut(RetryAfter(s, ip, c.at.first)))
      else if !passwordOk || codeHash !in s.recoveryCodes then Outcome(Failed(looked, ip, c.at.second), Refused)
      else
        Outcome(Opened(looked.(recoveryCodes := looked.recoveryCodes - {codeHash}), ip, oldSession, newSession,
                       c.at.third),
                SessionOpened(newSession))
  }

  // ---------------------------------------------------------------- the service

  class AuthService {
    var failedAttempts: map<string, seq<real>>
    var challenges: map<string, real>
    var recoveryCodeHashes: set<string>
    var sessions: map<string, real>

    constructor (recoveryCodeHashes: set<string>)
      ensures View() == State(map[], map[], recoveryCodeHashes, map[])
    {
      failedAttempts, challenges, sessions := map[], map[], map[];
      this.recoveryCodeHashes := recoveryCodeHashes;
    }

    ghost function View(): State
      reads this
    {
      State(failedAttempts, challenges, recoveryCodeHashes, sessions)
    }

    method IsLockedOut(ip: string, now: real) returns (locked: bool, retryAfter: int)
      modifies this`failedAttempts
      ensures View() == Looked(old(View()), ip, now)
      ensures locked == Locked(old(View()), ip, now)
      ensures retryAfter == if locked then RetryAfter(old(View()), ip, now) else 0
    {
      var all := if ip in failedAttempts then failedAttempts[ip] else [];
      var attempts: seq<real> := [];
      for i := 0 to |all|
        invariant attempts == Recent(all[..i], now)
      {
        assert all[..i + 1][..i] == all[..i];
        if now - all[i] < LOCKOUT_WINDOW {
          attempts := attempts + [all[i]];
        }
      }
      assert all[..|all|] == all;
      failedAttempts := failedAttempts[ip := attempts];
      locked, retryAfter := false, 0;
      if |attempts| >= MAX_FAILED_ATTEMPTS {
        var remaining := (LOCKOUT_WINDOW - (now - attempts[0])).Floor;
        locked, retryAfter := true, if remaining >= 1 then remaining else 1;
      }
    }

    method RecordFailedAttempt(ip: string, now: real)
      modifies this`failedAttempts
      ensures View() == Failed(old(View()), ip, now)
    {
      if ip !in failedAttempts {
        failedAttempts := failedAttempts[ip := []];
      }
      failedAttempts := failedAttempts[ip := failedAttempts[ip] + [now]];
    }

    method RevokeSession(session: string) returns (existed: bool)
      modifies this`sessions
      ensures View() == old(View()).(sessions := old(sessions) - {session}) && existed == (session in old(sessions))
    {
      existed := session in sessions;
      sessions := sessions - {session};
    }

    /** Accept a session that is known and not expired; outside production the demonstration sessions always are. */
    method ValidateSession(session: string, production: bool, at: Readings) returns (reply: Reply)
      modifies this`sessions
      ensures Outcome(View(), reply) == Respond(old(View()), Call(Validate(session, production), at))
    {
      if !production && session in DEMO_SESSIONS {
        return Accepted(session);
      }
      if session !in sessions {
        return Unknown;
      }
      if at.first > sessions[session] {
        var existed := RevokeSession(session);
        return Unknown;
      }
      reply := Accepted(session);
    }

    /** Reset the rate limit and create the session. */
    method OpenSession(ip: string, oldSession: Option<string>, newSession: string, now: real)
      modifies this`failedAttempts, this`sessions
      ensures View() == Opened(old(View()), ip, oldSession, newSession, now)
    {
      failedAttempts := failedAttempts - {ip};
      if oldSession.Some? && oldSession.value != "" {
        var existed := RevokeSession(oldSession.value);
      }
      sessions := sessions[newSession := now + SESSION_DURATION];
    }

    method InitiateLogin(ip: string, passwordOk: bool, token: string, at: Readings) returns (reply: Reply)
      modifies this
      ensures Outcome(View(), reply) == Respond(old(View()), Call(Login(ip, passwordOk, token), at))
    {
      hide Locked, Looked, RetryAfter;
      var locked, retryAfter := IsLockedOut(ip, at.first);
      if locked {
        return LockedOut(retryAfter);
      }
      if !passwordOk {
        RecordFailedAttempt(ip, at.second);
        return Refused;
      }
      challenges := challenges[token := at.second];
      reply := ChallengeIssued(token);
    }

    method VerifyTotpChallenge(ip: string, challenge: string, codeOk: bool, oldSession: Option<string>,
                               newSession: string, at: Readings)
      returns (reply: Reply)
      modifies this
      ensures Outcome(View(), reply) == Respond(old(View()),
                                                Call(VerifyTotp(ip, challenge, codeOk, oldSession, newSession), at))
    {
      hide Locked, RetryAfter, Recent;
      var locked, retryAfter := IsLockedOut(ip, at.first);
      if locked {
        return LockedOut(retryAfter);
      }
      if challenge !in challenges {
        RecordFailedAttempt(ip, at.second);
        return Refused;
      }
      var createdAt := challenges[challenge];
      challenges := challenges - {challenge};
      if at.second - createdAt > CHALLENGE_EXPIRY {
        RecordFailedAttempt(ip, at.third);
        return Refused;
      }
      if !codeOk {
        RecordFailedAttempt(ip, at.third);
        return Refused;
      }
      OpenSession(ip, oldSession, newSession, at.third);
      reply := SessionOpened(newSession);
    }

    method LoginWithRecoveryCode(ip: string, passwordOk: bool, codeHash: string, oldSession: Option<string>,
                                 newSession: string, at: Readings)
      returns (reply: Reply)
      modifies this
      ensures Outcome(View(), reply) == Respond(old(View()),
                                                Call(Recover(ip, passwordOk, codeHash, oldSession, newSession), at))
    {
      hide Locked, RetryAfter, Recent;
      var locked, retryAfter := IsLockedOut(ip, at.first);
      if locked {
        return LockedOut(retryAfter);
      }
      if !passwordOk {
        RecordFailedAttempt(ip, at.second);
        return Refused;
      }
      if codeHash !in recoveryCodeHashes {
        RecordFailedAttempt(ip, at.second);
        return Refused;
      }
      recoveryCodeHashes := recoveryCodeHashes - {codeHash};
      OpenSession(ip, oldSession, newSession, at.third);
      reply := SessionOpened(newSession);
    }
  }
}

/** What the login service guarantees over whole runs of calls. */
module AuthenticationRuns {
  import opened Common
  import opened Authentication
  import opened RateLimiterRuns

  function Run(s: State, t: Trace<Call>): State {
    if t.Begin? then s else Respond(Run(s, t.earlier), t.last).after
  }

  function ReplyTo(s: State, t: Trace<Call>): Reply
    requires t.Then?
  {
    Respond(Run(s, t.earlier), t.last).reply
  }

  /** A service nobody has called yet. */
  predicate Fresh(s: State) {
    s.failures == map[] && s.challenges == map[]
  }

  // ---------------------------------------------------------------- sessions need credentials

  function Count(s: State, t: Trace<Call>, what: (Call, Reply) -> bool): nat {
    if t.Begin? then 0 else Count(s, t.earlier, what) + if what(t.last, ReplyTo(s, t)) then 1 else 0
  }

  predicate Issues(c: Call, r: Reply) { r.ChallengeIssued? }

  predicate OpensByCode(c: Call, r: Reply) { r.SessionOpened? && c.request.VerifyTotp? }

  predicate OpensByRecovery(c: Call, r: Reply) { r.SessionOpened? && c.request.Recover? }

  /** Each pending challenge and each session opened with a code used up one issued challenge. */
  lemma {:induction false} ChallengesAreSpent(s: State, t: Trace<Call>)
    requires Fresh(s)
    ensures |Run(s, t).challenges| + Count(s, t, OpensByCode) <= Count(s, t, Issues)
  {
    if t.Then? {
      ChallengesAreSpent(s, t.earlier);
      ChallengesStep(Run(s, t.earlier), t.last);
    }
  }

  lemma MapSizes(m: map<string, real>, k: string, v: real)
    ensures |m[k := v]| <= |m| + 1
    ensures k in m ==> |m - {k}| == |m| - 1
  {
    assert m[k := v].Keys == m.Keys + {k} && (m - {k}).Keys == m.Keys - {k};
  }

  lemma ChallengesChange(s: State, c: Call)
    ensures var out, after := Respond(s, c), Respond(s, c).after.challenges;
            && (out.reply.ChallengeIssued? ==>
                  c.request.Login? && c.request.passwordOk && out.reply.challenge == c.request.token
                  && after == s.challenges[c.request.token := c.at.second])
            && (!out.reply.ChallengeIssued? ==>
                  after == s.challenges
                  || (c.request.VerifyTotp? && c.request.challenge in s.challenges
                      && after == s.challenges - {c.request.challenge}))
            && (OpensByCode(c, out.reply) ==>
                  c.request.codeOk && c.request.challenge in s.challenges
                  && c.at.second - s.challenges[c.request.challenge] <= CHALLENGE_EXPIRY
                  && after == s.challenges - {c.request.challenge})
  {
    hide Locked, Recent, RetryAfter, Attempts;
  }

  lemma ChallengesStep(s: State, c: Call)
    ensures var out := Respond(s, c);
            |out.after.challenges| + (if OpensByCode(c, out.reply) then 1 else 0)
            <= |s.challenges| + (if Issues(c, out.reply) then 1 else 0)
  {
    hide Respond;
    ChallengesChange(s, c);
    if Respond(s, c).reply.ChallengeIssued? {
      MapSizes(s.challenges, c.request.token, c.at.second);
    } else if c.request.VerifyTotp? {
      MapSizes(s.challenges, c.request.challenge, 0.0);
    }
  }

  /** The recovery codes used so far. */
  function UsedCodes(s: State, t: Trace<Call>): seq<string> {
    if t.Begin? then []
    else UsedCodes(s, t.earlier) + if OpensByRecovery(t.last, ReplyTo(s, t)) then [t.last.request.codeHash] else []
  }

  /** A recovery code works once: the used codes are distinct initial codes, and the others are what is left. */
  lemma {:induction false} RecoveryCodesAreSingleUse(s: State, t: Trace<Call>)
    ensures var used := UsedCodes(s, t);
            && (forall i, j :: 0 <= i < j < |used| ==> used[i] != used[j])
            && (forall h :: h in used ==> h in s.recoveryCodes && h !in Run(s, t).recoveryCodes)
            && |Run(s, t).recoveryCodes| + |used| == |s.recoveryCodes|
            && |used| == Count(s, t, OpensByRecovery)
  {
    if t.Then? {
      RecoveryCodesAreSingleUse(s, t.earlier);
      RecoveryStep(Run(s, t.earlier), t.last);
      RecoveryOnlyShrinks(s, t.earlier);
    }
  }

  lemma RecoveryStep(s: State, c: Call)
    ensures var out := Respond(s, c);
            if OpensByRecovery(c, out.reply) then
              && c.request.codeHash in s.recoveryCodes
              && out.after.recoveryCodes == s.recoveryCodes - {c.request.codeHash}
            else out.after.recoveryCodes == s.recoveryCodes
  {
    hide Locked, Recent, RetryAfter, Attempts;
  }

  lemma {:induction false} RecoveryOnlyShrinks(s: State, t: Trace<Call>)
    ensures Run(s, t).recoveryCodes <= s.recoveryCodes
  {
    if t.Then? {
      RecoveryOnlyShrinks(s, t.earlier);
      RecoveryStep(Run(s, t.earlier), t.last);
    }
  }

  predicate Opens(c: Call, r: Reply) { r.SessionOpened? }

  lemma {:induction false} SessionsOpenTwoWays(s: State, t: Trace<Call>)
    ensures Count(s, t, Opens) == Count(s, t, OpensByCode) + Count(s, t, OpensByRecovery)
  {
    if t.Then? {
      SessionsOpenTwoWays(s, t.earlier);
      OnlyTwoOpen(Run(s, t.earlier), t.last);
    }
  }

  lemma OnlyTwoOpen(s: State, c: Call)
    ensures Respond(s, c).reply.SessionOpened? ==> c.request.VerifyTotp? || c.request.Recover?
  {
    hide Locked, Recent, RetryAfter, Attempts;
  }

  /** Over every run, sessions opened never exceed challenges issued plus initial recovery codes. */
  lemma SessionsAreBounded(s: State, t: Trace<Call>)
    requires Fresh(s)
    ensures Count(s, t, Opens) + |Run(s, t).challenges| + |Run(s, t).recoveryCodes|
            <= Count(s, t, Issues) + |s.recoveryCodes|
  {
    SessionsOpenTwoWays(s, t);
    ChallengesAreSpent(s, t);
    RecoveryCodesAreSingleUse(s, t);
  }

  /** Some call with the right password was answered with this challenge, at this time. */
  predicate IssuedAt(s: State, t: Trace<Call>, challenge: string, time: real) {
    && t.Then?
    && (|| (ReplyTo(s, t) == ChallengeIssued(challenge) && t.last.request.Login? && t.last.request.passwordOk
            && t.last.at.second == time)
        || IssuedAt(s, t.earlier, challenge, time))
  }

  lemma {:induction false} PendingWereIssued(s: State, t: Trace<Call>, challenge: string)
    requires Fresh(s) && challenge in Run(s, t).challenges
    ensures IssuedAt(s, t, challenge, Run(s, t).challenges[challenge])
  {
    hide Respond;
    var before := Run(s, t.earlier);
    ChallengesChange(before, t.last);
    if challenge in before.challenges && before.challenges[challenge] == Run(s, t).challenges[challenge] {
      PendingWereIssued(s, t.earlier, challenge);
    }
  }

  /** A session opened with a code had both factors: the code, and a password at most five minutes before. */
  lemma CodeSessionsHadBothFactors(s: State, t: Trace<Call>, c: Call)
    requires Fresh(s) && c.request.VerifyTotp? && Respond(Run(s, t), c).reply.SessionOpened?
    ensures c.request.codeOk
    ensures exists time :: IssuedAt(s, t, c.request.challenge, time) && c.at.second - time <= 300.0
    ensures c.request.challenge !in Respond(Run(s, t), c).after.challenges
  {
    hide Respond, IssuedAt;
    ChallengesChange(Run(s, t), c);
    PendingWereIssued(s, t, c.request.challenge);
  }

  /** Fewer than five failures of the address still count. */
  ghost predicate Open(s: State, ip: string, now: real) {
    |Recent(Attempts(s, ip), now)| < 5
  }

  /** A password step issues its challenge exactly when the address is not locked and the password is right. */
  lemma PasswordStepExactly(s: State, c: Call)
    requires c.request.Login?
    ensures Respond(s, c).reply == ChallengeIssued(c.request.token)
            <==> Open(s, c.request.ip, c.at.first) && c.request.passwordOk
  {
    hide Recent, RetryAfter;
  }

  /** A code opens its session exactly when the address is not locked, the challenge is fresh and the code right. */
  lemma CodeOpensExactly(s: State, c: Call)
    requires c.request.VerifyTotp?
    ensures Respond(s, c).reply == SessionOpened(c.request.newSession)
            <==> && Open(s, c.request.ip, c.at.first) && c.request.challenge in s.challenges
                 && c.at.second - s.challenges[c.request.challenge] <= 300.0 && c.request.codeOk
    ensures Respond(s, c).reply.SessionOpened? ==> Respond(s, c).reply.session == c.request.newSession
  {
    hide Recent, RetryAfter;
  }

  /** A recovery opens its session exactly when the address is not locked, the password is right and the code unused. */
  lemma RecoveryOpensExactly(s: State, c: Call)
    requires c.request.Recover?
    ensures Respond(s, c).reply == SessionOpened(c.request.newSession)
            <==> && Open(s, c.request.ip, c.at.first) && c.request.passwordOk
                 && c.request.codeHash in s.recoveryCodes
    ensures Respond(s, c).reply.SessionOpened? ==> Respond(s, c).reply.session == c.request.newSession
  {
    hide Recent, RetryAfter;
  }

  /** Over every run a session opened by recovery had the right password and an initial code nobody used before. */
  lemma RecoverySessionsHadBothFactors(s: State, t: Trace<Call>, c: Call)
    requires c.request.Recover? && Respond(Run(s, t), c).reply.SessionOpened?
    ensures c.request.passwordOk && c.request.codeHash in s.recoveryCodes
    ensures c.request.codeHash !in UsedCodes(s, t)
    ensures c.request.codeHash !in Respond(Run(s, t), c).after.recoveryCodes
  {
    RecoveryOpensExactly(Run(s, t), c);
    RecoveryStep(Run(s, t), c);
    RecoveryCodesAreSingleUse(s, t);
    RecoveryOnlyShrinks(s, t);
    hide Respond;
  }

  // ---------------------------------------------------------------- the life of a session

  /** The call ends a stored session: it revokes it, or opens another one in its place. */
  predicate EndsSession(s: State, c: Call, session: string) {
    && session in s.sessions
    && (|| c.request == Revoke(session)
        || ((c.request.VerifyTotp? || c.request.Recover?) && Respond(s, c).reply.SessionOpened?
            && c.request.oldSession == Some(session) && session != ""))
  }

  /** The call drops a session it finds expired. */
  predicate DropsExpired(s: State, c: Call, session: string) {
    && c.request.Validate? && c.request.session == session && (c.request.production || session !in DEMO_SESSIONS)
    && session in s.sessions && c.at.first > s.sessions[session]
  }

  lemma SessionsChange(s: State, c: Call, session: string)
    ensures var out := Respond(s, c);
            && (session in out.after.sessions
                <==> || out.reply == SessionOpened(session)
                     || (session in s.sessions && !EndsSession(s, c, session) && !DropsExpired(s, c, session)))
            && (session in out.after.sessions ==>
                  out.after.sessions[session]
                  == if out.reply == SessionOpened(session) then c.at.third + SESSION_DURATION
                     else s.sessions[session])
  {
    hide Locked, Recent, RetryAfter;
  }

  /** Until when a session was opened, if it ever was. */
  function OpenedUntil(s: State, t: Trace<Call>, session: string): Option<real> {
    if t.Begin? then
      if session in s.sessions then Some(s.sessions[session]) else None
    else if ReplyTo(s, t) == SessionOpened(session) then Some(t.last.at.third + 86400.0)
    else OpenedUntil(s, t.earlier, session)
  }

  predicate EndedIn(s: State, t: Trace<Call>, session: string) {
    t.Then? && (EndsSession(Run(s, t.earlier), t.last, session) || EndedIn(s, t.earlier, session))
  }

  /** The generator never repeats a session token. */
  predicate FreshSessions(s: State, t: Trace<Call>) {
    t.Then? ==>
      && FreshSessions(s, t.earlier)
      && (ReplyTo(s, t).SessionOpened? ==> OpenedUntil(s, t.earlier, ReplyTo(s, t).session) == None)
  }

  /** A session is stored from its opening until it is ended, or dropped after its expiry. */
  lemma {:induction false} StoredUntilEnded(s: State, t: Trace<Call>, session: string, now: real)
    requires FreshSessions(s, t) && ClockOrdered(t, now)
    ensures var stored, until := Run(s, t).sessions, OpenedUntil(s, t, session);
            && (session in stored ==> until == Some(stored[session]) && !EndedIn(s, t, session))
            && (session !in stored && until.Some? && !EndedIn(s, t, session) ==> until.value < now)
            && (until.None? ==> !EndedIn(s, t, session))
  {
    hide Respond, EndsSession;
    if t.Then? {
      var before := Run(s, t.earlier);
      StoredUntilEnded(s, t.earlier, session, t.last.at.first);
      SessionsChange(before, t.last, session);
      EndsOnlyStored(before, t.last, session);
    }
  }

  lemma EndsOnlyStored(s: State, c: Call, session: string)
    ensures EndsSession(s, c, session) ==> session in s.sessions
  {
  }

  /**
     Over every run and at every later time a session is accepted exactly when it was opened, at most a day before,
     and has been neither revoked nor replaced since: it cannot come back to life.  Outside production the
     demonstration sessions are accepted as well.
     */
  lemma AcceptedExactlyWhileLive(s: State, t: Trace<Call>, session: string, production: bool, at: Readings)
    requires FreshSessions(s, t) && ClockOrdered(t, at.first)
    ensures var until := OpenedUntil(s, t, session);
            Respond(Run(s, t), Call(Validate(session, production), at)).reply == Accepted(session)
            <==> || (until.Some? && at.first <= until.value && !EndedIn(s, t, session))
                 || (!production && session in {"demo-session-token", "demo-csrf-token", "demo_session"})
  {
    hide EndedIn, OpenedUntil, FreshSessions, Run, ClockOrdered;
    StoredUntilEnded(s, t, session, at.first);
  }

  // ---------------------------------------------------------------- the lockout window

  /** Clock readings never run backwards, within a call or from one to the next; the last one is at most `now`. */
  predicate ClockOrdered(t: Trace<Call>, now: real) {
    t.Then? ==> t.last.at.Ordered() && t.last.at.third <= now && ClockOrdered(t.earlier, t.last.at.first)
  }

  /** The failures an answer records for an address. */
  function NewFailures(s: State, c: Call, ip: string): seq<real> {
    match c.request
    case Login(who, passwordOk, token) =>
      if who == ip && Respond(s, c).reply.Refused? then [c.at.second] else []
    case VerifyTotp(who, challenge, codeOk, oldSession, newSession) =>
      if who == ip && Respond(s, c).reply.Refused? then
        [if challenge in s.challenges then c.at.third else c.at.second]
      else
        []
    case Recover(who, passwordOk, codeHash, oldSession, newSession) =>
      if who == ip && Respond(s, c).reply.Refused? then [c.at.second] else []
    case CheckLockout(who) => []
    case Revoke(session) => []
    case Validate(session, production) => []
  }

  predicate Resets(s: State, c: Call, ip: string) {
    Respond(s, c).reply.SessionOpened? && (c.request.VerifyTotp? || c.request.Recover?) && c.request.ip == ip
  }

  /** Every failure of an address since its last successful login, nothing forgotten. */
  function FailureLog(s: State, t: Trace<Call>, ip: string): seq<real> {
    if t.Begin? || Resets(Run(s, t.earlier), t.last, ip) then []
    else FailureLog(s, t.earlier, ip) + NewFailures(Run(s, t.earlier), t.last, ip)
  }

  /** The stored attempts are the tail of the log, and what is no longer stored is out of the window. */
  ghost predicate Stored(log: seq<real>, kept: seq<real>, now: real) {
    && |kept| <= |log| && kept == log[|log| - |kept|..]
    && Sorted(log)
    && (forall i :: 0 <= i < |log| ==> log[i] <= now)
    && (forall i :: 0 <= i < |log| - |kept| ==> now - log[i] >= LOCKOUT_WINDOW)
    && Spaced(log, MAX_FAILED_ATTEMPTS, LOCKOUT_WINDOW)
  }

  /** Old entries before position k, counting ones from there on: the tail is what still counts. */
  lemma {:induction false} RecentIsFrom(times: seq<real>, k: nat, now: real)
    requires k <= |times|
    requires forall i :: 0 <= i < k ==> now - times[i] >= LOCKOUT_WINDOW
    requires forall i :: k <= i < |times| ==> now - times[i] < LOCKOUT_WINDOW
    ensures Recent(times, now) == times[k..]
  {
    if times != [] {
      RecentIsFrom(times[..|times| - 1], if k < |times| then k else |times| - 1, now);
    }
  }

  /** On a sorted list such a position exists. */
  lemma {:induction false} RecentIsTail(times: seq<real>, now: real) returns (k: nat)
    requires Sorted(times)
    ensures k <= |times| && Recent(times, now) == times[k..]
    ensures forall i :: 0 <= i < k ==> now - times[i] >= LOCKOUT_WINDOW
    ensures forall i :: k <= i < |times| ==> now - times[i] < LOCKOUT_WINDOW
  {
    k := |times|;
    while k > 0 && now - times[k - 1] < LOCKOUT_WINDOW
      invariant k <= |times| && forall i :: k <= i < |times| ==> now - times[i] < LOCKOUT_WINDOW
    {
      k := k - 1;
    }
    RecentIsFrom(times, k, now);
  }

  /** Looking at the address keeps the tail and drops only what is out of the window. */
  lemma LookKeeps(log: seq<real>, kept: seq<real>, before: real, now: real)
    requires Stored(log, kept, before) && before <= now
    ensures Stored(log, Recent(kept, now), now)
    ensures |log| > |Recent(kept, now)| ==> now - log[|log| - |Recent(kept, now)| - 1] >= LOCKOUT_WINDOW
  {
    hide Spaced, Sorted, Recent;
    KeptIsSorted(log, kept, before);
    var k := RecentIsTail(kept, now);
    var first := |log| - |kept|;
    OldIsOut(log, kept, before, now, k);
    assert kept[k..] == log[first + k..];
    StoredFrom(log, kept, before, first + k, now);
    hide Stored;
  }

  /** Times recorded before the first one that still counts are all out of the window. */
  lemma OldIsOut(log: seq<real>, kept: seq<real>, before: real, now: real, k: nat)
    requires Stored(log, kept, before) && before <= now && k <= |kept|
    requires forall i :: 0 <= i < k ==> now - kept[i] >= LOCKOUT_WINDOW
    ensures forall i :: 0 <= i < |log| - |kept| + k ==> now - log[i] >= LOCKOUT_WINDOW
  {
    hide Spaced, Sorted;
    var first := |log| - |kept|;
    forall i | 0 <= i < first + k ensures now - log[i] >= LOCKOUT_WINDOW {
      if i >= first { assert kept[i - first] == log[i]; }
    }
  }

  lemma StoredFrom(log: seq<real>, kept: seq<real>, before: real, j: nat, now: real)
    requires Stored(log, kept, before) && before <= now && j <= |log|
    requires forall i :: 0 <= i < j ==> now - log[i] >= LOCKOUT_WINDOW
    ensures Stored(log, log[j..], now)
  {
    hide Spaced, Sorted;
  }

  lemma KeptIsSorted(log: seq<real>, kept: seq<real>, now: real)
    requires Stored(log, kept, now)
    ensures Sorted(kept)
  {
    hide Spaced;
    assert forall i :: 0 <= i < |kept| ==> kept[i] == log[|log| - |kept| + i];
  }

  /** A failure is recorded only when fewer than five still count, so the fifth before it is out of the window. */
  lemma FailureKeeps(log: seq<real>, kept: seq<real>, looked: real, time: real)
    requires Stored(log, kept, looked) && looked <= time && |kept| < MAX_FAILED_ATTEMPTS
    ensures Stored(log + [time], kept + [time], time)
  {
    var longer := log + [time];
    forall i, j | 0 <= i < j < |longer| && j - i >= MAX_FAILED_ATTEMPTS
      ensures longer[j] - longer[i] >= LOCKOUT_WINDOW
    {
      if j == |log| { assert looked - log[i] >= LOCKOUT_WINDOW; }
    }
  }

  lemma {:induction false} StoredThroughout(s: State, t: Trace<Call>, ip: string, now: real)
    requires Fresh(s) && ClockOrdered(t, now)
    ensures Stored(FailureLog(s, t, ip), Attempts(Run(s, t), ip), now)
  {
    hide Respond, Stored;
    if t.Begin? {
      NothingStored(now);
    } else {
      StoredThroughout(s, t.earlier, ip, t.last.at.first);
      StoredStep(Run(s, t.earlier), t.last, ip, FailureLog(s, t.earlier, ip), now);
    }
  }

  lemma NothingStored(now: real)
    ensures Stored([], [], now)
  {
  }

  /** What a call does to the attempts of an address. */
  lemma AttemptsChange(s: State, c: Call, ip: string)
    requires c.at.Ordered()
    ensures var kept, after, added := Attempts(s, ip), Attempts(Respond(s, c).after, ip), NewFailures(s, c, ip);
            && (Resets(s, c, ip) ==> after == [])
            && (!Resets(s, c, ip) ==>
                  || (after == kept && added == [])
                  || (after == Recent(kept, c.at.first) + added && |added| <= 1
                      && (added != [] ==> !Locked(s, ip, c.at.first) && c.at.first <= added[0] <= c.at.third)))
  {
    hide Recent, Locked, RetryAfter;
    AboutAddress(s, c, ip);
    if !AboutIp(c, ip) { hide Respond, Resets; }
  }

  /** The call is about this address. */
  predicate AboutIp(c: Call, ip: string) {
    !c.request.Revoke? && !c.request.Validate? && c.request.ip == ip
  }

  /** A call about another address leaves the attempts of this one alone. */
  lemma AboutAddress(s: State, c: Call, ip: string)
    ensures !AboutIp(c, ip) ==>
              && Attempts(Respond(s, c).after, ip) == Attempts(s, ip)
              && NewFailures(s, c, ip) == [] && !Resets(s, c, ip)
  {
    hide Recent, Locked, RetryAfter;
  }

  lemma StoredStep(s: State, c: Call, ip: string, log: seq<real>, now: real)
    requires Stored(log, Attempts(s, ip), c.at.first) && c.at.Ordered() && c.at.third <= now
    ensures Stored(if Resets(s, c, ip) then [] else log + NewFailures(s, c, ip), Attempts(Respond(s, c).after, ip), now)
  {
    hide Stored, Respond, Resets, NewFailures;
    AttemptsChange(s, c, ip);
    var kept, added := Attempts(s, ip), NewFailures(s, c, ip);
    StoredLater(log, kept, c.at.first, now);
    LookKeeps(log, kept, c.at.first, c.at.first);
    var recent := Recent(kept, c.at.first);
    StoredLater(log, recent, c.at.first, now);
    NothingStored(now);
    assert log + [] == log && recent + [] == recent;
    if added != [] && !Resets(s, c, ip) {
      assert added == [added[0]];
      FailureKeeps(log, recent, c.at.first, added[0]);
      StoredLater(log + added, recent + added, added[0], now);
    }
  }

  lemma StoredLater(log: seq<real>, kept: seq<real>, before: real, now: real)
    requires Stored(log, kept, before) && before <= now
    ensures Stored(log, kept, now)
  {
    hide Spaced;
  }

  /** No address ever records more than five failures in a quarter of an hour without a successful login in between. */
  lemma FailuresAreCapped(s: State, t: Trace<Call>, ip: string, now: real)
    requires Fresh(s) && ClockOrdered(t, now)
    ensures WindowRespected(FailureLog(s, t, ip), 5, 900.0)
    ensures |Recent(Attempts(Run(s, t), ip), now)| <= MAX_FAILED_ATTEMPTS && Sorted(Attempts(Run(s, t), ip))
  {
    StoredThroughout(s, t, ip, now);
    var log, kept := FailureLog(s, t, ip), Attempts(Run(s, t), ip);
    StoredMeans(log, kept, now);
    SpacedIsWindowRespected(log, MAX_FAILED_ATTEMPTS, LOCKOUT_WINDOW);
  }

  lemma StoredMeans(log: seq<real>, kept: seq<real>, now: real)
    requires Stored(log, kept, now)
    ensures Sorted(log) && Spaced(log, MAX_FAILED_ATTEMPTS, LOCKOUT_WINDOW) && Sorted(kept)
    ensures |Recent(kept, now)| <= MAX_FAILED_ATTEMPTS
  {
    assert forall i :: 0 <= i < |kept| ==> kept[i] == log[|log| - |kept| + i];
    var k := RecentIsTail(kept, now);
    assert k < |kept| ==> kept[k] == log[|log| - |kept| + k] && log[|log| - 1] <= now;
  }

  // ---------------------------------------------------------------- how long a lockout lasts

  /** When a locked-out address is let in again: a quarter of an hour after the first attempt that counts. */
  function LockedUntil(s: State, ip: string, now: real): real
    requires Locked(s, ip, now)
  {
    Recent(Attempts(s, ip), now)[0] + LOCKOUT_WINDOW
  }

  /** The lockout of an address ends exactly then, whatever else was remembered. */
  lemma LockoutEndsExactly(s: State, ip: string, now: real, later: real)
    requires Sorted(Attempts(s, ip)) && |Recent(Attempts(s, ip), now)| == MAX_FAILED_ATTEMPTS && now <= later
    ensures Locked(s, ip, later) <==> later < LockedUntil(s, ip, now)
  {
    var times := Attempts(s, ip);
    var k := RecentIsTail(times, now);
    assert times[k..][0] == times[k];
    if later < LockedUntil(s, ip, now) {
      RecentIsFrom(times, k, later);
    } else {
      var l := RecentIsTail(times, later);
      assert later - times[k] >= LOCKOUT_WINDOW;
    }
  }

  /** Nothing happens before `now`. */
  predicate After(t: Trace<Call>, now: real) {
    t.Then? ==> now <= t.last.at.first && After(t.earlier, now)
  }

  /** The address logged in successfully at some point. */
  predicate LoggedIn(s: State, t: Trace<Call>, ip: string) {
    t.Then? && (Resets(Run(s, t.earlier), t.last, ip) || LoggedIn(s, t.earlier, ip))
  }

  /**
     Until then no call of anybody changes the attempts of the address: every call for it is refused and leaves no
     mark.
     */
  lemma {:induction false} LockoutHolds(s: State, ip: string, now: real, t: Trace<Call>, later: real)
    requires Sorted(Attempts(s, ip)) && |Recent(Attempts(s, ip), now)| == MAX_FAILED_ATTEMPTS
    requires ClockOrdered(t, later) && After(t, now) && now <= later < LockedUntil(s, ip, now)
    ensures Recent(Attempts(Run(s, t), ip), later) == Recent(Attempts(s, ip), now)
    ensures Sorted(Attempts(Run(s, t), ip)) && Locked(Run(s, t), ip, later)
    ensures !LoggedIn(s, t, ip)
  {
    hide Respond, Recent, Resets, NewFailures;
    StillCount(Attempts(s, ip), now, later);
    if t.Then? {
      var before, first := Run(s, t.earlier), t.last.at.first;
      LockoutHolds(s, ip, now, t.earlier, first);
      StillCount(Attempts(before, ip), first, later);
      AttemptsChange(before, t.last, ip);
      assert Recent(Attempts(before, ip), first) + [] == Recent(Attempts(before, ip), first);
      LockedIsRefused(before, t.last, ip);
    }
  }

  /** Attempts that count keep counting until the first of them is a quarter of an hour old. */
  lemma StillCount(times: seq<real>, now: real, later: real)
    requires Sorted(times) && Recent(times, now) != [] && now <= later < Recent(times, now)[0] + LOCKOUT_WINDOW
    ensures var r := Recent(times, now); Recent(times, later) == r && Recent(r, later) == r && Sorted(r)
  {
    var k := RecentIsTail(times, now);
    var r := times[k..];
    assert r[0] == times[k];
    RecentIsFrom(times, k, later);
    RecentIsFrom(r, 0, later);
  }

  lemma LockedIsRefused(s: State, c: Call, ip: string)
    requires Locked(s, ip, c.at.first)
    ensures !Resets(s, c, ip)
  {
    hide Recent, RetryAfter;
  }

  /**
   The wait a locked-out caller is told is truncated to whole seconds.  Trying again after exactly that wait is
   refused if and only if more than a second was left and it was not a whole number.
   */
  lemma TruncatedHintIsTooShort(s: State, ip: string, now: real)
    requires Sorted(Attempts(s, ip)) && |Recent(Attempts(s, ip), now)| == MAX_FAILED_ATTEMPTS
    ensures var remaining := LockedUntil(s, ip, now) - now;
            Locked(s, ip, now + RetryAfter(s, ip, now) as real)
            <==> remaining > 1.0 && remaining != remaining.Floor as real
  {
    hide Recent;
    LockoutEndsExactly(s, ip, now, now + RetryAfter(s, ip, now) as real);
  }

  /** Five wrong passwords at once. */
  const WRONG := Call(Login("ip", false, ""), Readings(0.0, 0.0, 0.0))

  function WrongPasswords(n: nat): Trace<Call> {
    if n == 0 then Begin else Then(WrongPasswords(n - 1), WRONG)
  }

  lemma {:induction false} WrongPasswordsAreKept(s: State, n: nat)
    requires Fresh(s) && n <= MAX_FAILED_ATTEMPTS
    ensures Attempts(Run(s, WrongPasswords(n)), "ip") == Repeat(0.0, n)
  {
    hide Respond, Attempts, Repeat, Fresh;
    if n == 0 {
      NothingIsKept(s);
    } else {
      WrongPasswordsAreKept(s, n - 1);
      OneMoreIsKept(Run(s, WrongPasswords(n - 1)), n - 1);
    }
  }

  lemma NothingIsKept(s: State)
    requires Fresh(s)
    ensures Attempts(s, "ip") == Repeat(0.0, 0)
  {
  }

  lemma OneMoreIsKept(s: State, n: nat)
    requires Attempts(s, "ip") == Repeat(0.0, n) && n < MAX_FAILED_ATTEMPTS
    ensures Attempts(Respond(s, WRONG).after, "ip") == Repeat(0.0, n + 1)
  {
    AllRecent(n, 0.0);
    assert Repeat(0.0, n) + [0.0] == Repeat(0.0, n + 1);
    hide Recent, Repeat;
  }

  lemma {:induction false} AllRecent(n: nat, now: real)
    requires now < LOCKOUT_WINDOW
    ensures Recent(Repeat(0.0, n), now) == Repeat(0.0, n)
  {
    if n > 0 {
      AllRecent(n - 1, now);
      assert Repeat(0.0, n)[..n - 1] == Repeat(0.0, n - 1);
      assert Repeat(0.0, n) == Repeat(0.0, n - 1) + [0.0];
    }
  }

  /** After five wrong passwords a caller told at 1.5 seconds to wait 898 is refused again 898 seconds later. */
  lemma WaitingAsToldIsRefused(s: State)
    requires Fresh(s)
    ensures var locked := Run(s, WrongPasswords(MAX_FAILED_ATTEMPTS));
            var told := Respond(locked, Call(Login("ip", true, "t"), Readings(1.5, 1.5, 1.5)));
            var again := Respond(told.after, Call(Login("ip", true, "t"), Readings(899.5, 899.5, 899.5)));
            told.reply == LockedOut(898) && again.reply == LockedOut(1)
  {
    WrongPasswordsAreKept(s, MAX_FAILED_ATTEMPTS);
    var locked := Run(s, WrongPasswords(MAX_FAILED_ATTEMPTS));
    hide Run, WrongPasswords;
    FiveAreLocked(locked, 1.5, 898);
    var told := Respond(locked, Call(Login("ip", true, "t"), Readings(1.5, 1.5, 1.5))).after;
    FiveAreLocked(told, 899.5, 1);
    hide Respond;
  }

  lemma FiveAreLocked(s: State, now: real, wait: int)
    requires Attempts(s, "ip") == Repeat(0.0, MAX_FAILED_ATTEMPTS) && 0.0 <= now < LOCKOUT_WINDOW
    requires wait == if now > LOCKOUT_WINDOW - 1.0 then 1 else (LOCKOUT_WINDOW - now).Floor
    ensures var out := Respond(s, Call(Login("ip", true, "t"), Readings(now, now, now)));
            out.reply == LockedOut(wait) && Attempts(out.after, "ip") == Repeat(0.0, MAX_FAILED_ATTEMPTS)
  {
    AllRecent(MAX_FAILED_ATTEMPTS, now);
    hide Recent;
  }
}

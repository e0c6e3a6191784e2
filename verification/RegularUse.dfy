/** A session in regular use lives to its absolute end, as long as no step-up moves the time it
    was last seen too far past its idle deadline: exactly which step-ups do. */
module RegularUse {
  import opened Prelude
  import opened Text
  import opened Permissions
  import opened AuthModels
  import opened AuthStore
  import opened AuthCalls
  import opened AuthRuns
  import opened AuthInvariants
  import opened AuthSafety
  import opened AuthGuarantees
  import opened SessionLifetimes

  /** When the idle deadline was last set. */
  function TouchedAt(cfg: Config, x: Session): Time
    requires x.idleExpiresAt.Some?
  {
    x.idleExpiresAt.value - cfg.idleTtl
  }

  /** The session was last seen at most one tick after its deadline was set, and last used at most
      one touch interval after that. */
  predicate Safe(cfg: Config, x: Session, last: Time) {
    && x.lastSeenAt.Some? && x.idleExpiresAt.Some?
    && TouchedAt(cfg, x) <= x.lastSeenAt.value <= TouchedAt(cfg, x) + 1
    && x.lastSeenAt.value <= last <= TouchedAt(cfg, x) + cfg.touchInterval
  }

  /** The call steps up the session of the token. */
  predicate StepsUp(cfg: Config, s: Store, call: Call, env: Env, h: Hash) {
    IsStepUp(call) && VerifiedHash(cfg, s, call, env.now) == Some(h) && Step(cfg, s, call, env).1.Ok?
  }

  /** A step-up at `now` comes when a touch is due, or at most one tick after the last one. */
  predicate Harmless(cfg: Config, x: Session, now: Time) {
    TouchDue(cfg, x, now) || (x.idleExpiresAt.Some? && now <= TouchedAt(cfg, x) + 1)
  }

  predicate HarmlessCall(cfg: Config, s: Store, call: Call, env: Env, h: Hash) {
    StepsUp(cfg, s, call, env, h) && Known(s, h) ==> Harmless(cfg, SessionOf(s, h), env.now)
  }

  /** Every step-up of the session of the token is harmless when it comes. */
  predicate OnlyHarmlessStepUps(cfg: Config, s: Store, h: Hash, events: seq<Event>) {
    events != [] ==>
      var init, e := events[..|events| - 1], events[|events| - 1];
      OnlyHarmlessStepUps(cfg, s, h, init) && HarmlessCall(cfg, Run(cfg, s, init), e.call, e.env, h)
  }

  lemma RefreshedSession(cfg: Config, s: Store, h: Hash, now: Time)
    requires Inv(cfg, s) && Known(s, h) && SessionOf(s, h).revokedAt == None
    ensures var s1 := Refresh(cfg, s, SessionOf(s, h), now).0;
      && Known(s1, h)
      && SessionOf(s1, h) ==
        if TouchDue(cfg, SessionOf(s, h), now) then
          SessionOf(s, h).(lastSeenAt := Some(now), idleExpiresAt := IdleDeadline(cfg, now)) else SessionOf(s, h)
  {
    hide UsersIndexed, Snapshots, IdentitiesKeyed, FlowsIndexed, CredentialsIndexed, FactorsListed, CodesListed,
      TouchDue, IdleDeadline;
  }

  /** The session of the token after the verification of a call. */
  lemma CheckedSession(cfg: Config, s: Store, call: Call, h: Hash, now: Time)
    requires Inv(cfg, s) && VerifiedHash(cfg, s, call, now) == Some(h) && Known(s, h)
    ensures var s1 := Checked(cfg, s, call, now);
      && Known(s1, h)
      && SessionOf(s1, h) ==
        if TouchDue(cfg, SessionOf(s, h), now) then
          SessionOf(s, h).(lastSeenAt := Some(now), idleExpiresAt := IdleDeadline(cfg, now)) else SessionOf(s, h)
  {
    hide Inv, Allows, Expired, Refresh, TouchDue, IdleDeadline;
    var p := Presented(call).value;
    VerifyOutcome(cfg, s, p.0, p.1, now);
    RefreshedSession(cfg, s, h, now);
  }

  /** A successful verification keeps the session safe. */
  lemma CheckedIsSafe(cfg: Config, s: Store, call: Call, h: Hash, now: Time, last: Time)
    requires cfg.idleTtl > 0 && cfg.touchInterval >= 0 && Inv(cfg, s) && last <= now
    requires VerifiedHash(cfg, s, call, now) == Some(h) && Known(s, h) && Safe(cfg, SessionOf(s, h), last)
    ensures var s1 := Checked(cfg, s, call, now);
      Known(s1, h) && Safe(cfg, SessionOf(s1, h), now)
  {
    hide Inv, VerifiedHash, Checked, Known, SessionOf;
    CheckedSession(cfg, s, call, h, now);
  }

  lemma StoredIsKnown(cfg: Config, s: Store, x: Session)
    requires Inv(cfg, s) && x.id in s.sessions && s.sessions[x.id] == x
    ensures Known(s, x.tokenHash) && SessionOf(s, x.tokenHash) == x
  {
    hide UsersIndexed, Snapshots, IdentitiesKeyed, FlowsIndexed, CredentialsIndexed, FactorsListed, CodesListed;
  }

  lemma RaisedSession(cfg: Config, s1: Store, s2: Store, p: Principal, now: Time)
    requires Inv(cfg, s1) && s2.sessions == s1.sessions && s2.sessionsByHash == s1.sessionsByHash
    requires p.session.id in s1.sessions && s1.sessions[p.session.id] == p.session
    ensures var (s', r) := RaiseAssurance(s2, p, now);
      && Known(s2, p.session.tokenHash) && SessionOf(s2, p.session.tokenHash) == p.session
      && Known(s', p.session.tokenHash)
      && SessionOf(s', p.session.tokenHash) == if r.Ok? then p.session.(assurance := AAL2, lastSeenAt := Some(now))
           else p.session
  {
    hide UsersIndexed, Snapshots, IdentitiesKeyed, FlowsIndexed, CredentialsIndexed, FactorsListed, CodesListed;
    if Unrevoked(s2, p.session.id) {
    }
  }

  /** What a step-up that has verified the token does to its session after that verification. */
  lemma StepUpSession(cfg: Config, s: Store, call: Call, env: Env, h: Hash)
    requires Inv(cfg, s) && Unused(s, env.drawn) && IsStepUp(call) && VerifiedHash(cfg, s, call, env.now) == Some(h)
    ensures var s1, (s', r) := Checked(cfg, s, call, env.now), Step(cfg, s, call, env);
      && Known(s1, h) && Known(s', h)
      && SessionOf(s', h) == if r.Ok? then SessionOf(s1, h).(assurance := AAL2, lastSeenAt := Some(env.now))
           else SessionOf(s1, h)
  {
    hide Inv, Unused, VerifySession, VerifyTotpIn, FactorsOf, FindCode, CodesOf, MarkCode, RaiseAssurance, Known,
      SessionOf;
    var at := MomentOf(cfg, s, call, env);
    CheckedKeeps(cfg, s, call, env, at);
    Begin(cfg, s, at);
    var token := HashOf(Presented(call).value.0).secret;
    VerifiedSession(cfg, s, s, token, "", at);
    var (s1, p) := VerifySession(cfg, s, token, "", env.now);
    ReachedIsValid(cfg, s, s1, at);
    StoredIsKnown(cfg, s1, p.value.session);
    match call.factorCall
    case StepUpWithTotp(_, code) =>
      var listed := FactorsOf(s1, p.value.user.id);
      VerifyTotpFrame(cfg, s1, listed, code, env.now);
      RaisedSession(cfg, s1, VerifyTotpIn(cfg, s1, listed, code, env.now).0, p.value, env.now);
    case StepUpWithCode(_, recovery) =>
      var found := FindCode(CodesOf(s1, p.value.user.id), HashOf(recovery));
      if found.Some? {
        MarkCodeFrame(s1, found.value.id, env.now);
        RaisedSession(cfg, s1, MarkCode(s1, found.value.id, env.now).0, p.value, env.now);
      }
      RaisedSession(cfg, s1, s1, p.value, env.now);
  }

  /** On a safe session, a successful step-up keeps it safe exactly when it is harmless. */
  lemma StepUpSafeIff(cfg: Config, s: Store, call: Call, env: Env, h: Hash, last: Time)
    requires cfg.idleTtl > 0 && cfg.touchInterval >= 0 && Inv(cfg, s) && Unused(s, env.drawn) && last <= env.now
    requires StepsUp(cfg, s, call, env, h) && Known(s, h) && Safe(cfg, SessionOf(s, h), last)
    ensures var s' := Step(cfg, s, call, env).0;
      Known(s', h) && (Safe(cfg, SessionOf(s', h), env.now) <==> Harmless(cfg, SessionOf(s, h), env.now))
  {
    hide Inv, Unused, Step, Checked, VerifiedHash, IsStepUp;
    StepUpSession(cfg, s, call, env, h);
    CheckedSession(cfg, s, call, h, env.now);
  }

  /** A call keeps a session safe if its step-ups are harmless. */
  lemma StepIsSafe(cfg: Config, s: Store, call: Call, env: Env, h: Hash, last: Time)
    requires cfg.idleTtl > 0 && cfg.touchInterval >= 0 && Inv(cfg, s) && Unused(s, env.drawn) && last <= env.now
    requires (Known(s, h) ==> Safe(cfg, SessionOf(s, h), last)) && HarmlessCall(cfg, s, call, env, h)
    ensures var s' := Step(cfg, s, call, env).0;
      Known(s', h) ==> Safe(cfg, SessionOf(s', h),
                            if !Known(s, h) || VerifiedHash(cfg, s, call, env.now) == Some(h) then env.now else last)
  {
    hide Inv, Unused, Step, Checked, VerifiedHash, Known, SessionOf, IsStepUp, Harmless;
    var at := MomentOf(cfg, s, call, env);
    var s', s1 := Step(cfg, s, call, env).0, Checked(cfg, s, call, env.now);
    CheckedKeeps(cfg, s, call, env, at);
    StepEvolves(cfg, s, call, env);
    SessionOfSteps(cfg, s, s', h, at);
    if at.verified == Some(h) {
      VerifiedIsAlive(cfg, s, call, h, env.now);
      CheckedIsSafe(cfg, s, call, h, env.now, last);
      if IsStepUp(call) {
        StepUpSession(cfg, s, call, env, h);
        if StepsUp(cfg, s, call, env, h) {
          StepUpSafeIff(cfg, s, call, env, h, last);
        }
      } else {
        ReachedIsValid(cfg, s, s1, at);
        Begin(cfg, s1, at);
        StepKeeps(cfg, s1, s, call, env, at);
        SessionOfSteps(cfg, s1, s', h, at);
      }
    }
  }

  lemma {:induction false} RegularUseIsSafe(cfg: Config, s: Store, h: Hash, start: Time, events: seq<Event>)
    requires cfg.idleTtl > 0 && cfg.touchInterval >= 0 && Inv(cfg, s) && FreshRun(cfg, s, events)
    requires Clocked(start, events)
    requires OnlyHarmlessStepUps(cfg, s, h, events) && (Known(s, h) ==> Safe(cfg, SessionOf(s, h), start))
    ensures var s' := Run(cfg, s, events);
      Known(s', h) ==> Safe(cfg, SessionOf(s', h), LastUse(cfg, s, h, start, events))
    decreases |events|
  {
    hide Inv, Unused, Step, VerifiedHash, Known, SessionOf, Safe, HarmlessCall;
    if events != [] {
      var init, e := events[..|events| - 1], events[|events| - 1];
      RegularUseIsSafe(cfg, s, h, start, init);
      LastUseIsPast(cfg, s, h, start, init);
      RunKeeps(cfg, s, init);
      StepIsSafe(cfg, Run(cfg, s, init), e.call, e.env, h, LastUse(cfg, s, h, start, init));
    }
  }

  /** An unrevoked session of an active user, with the permission. */
  predicate Granted(s: Store, x: Session, permission: string) {
    && x.revokedAt == None && x.userId in s.users && s.users[x.userId].status == Active
    && (permission == "" || Allows(x.permissions, permission))
  }

  /** With harmless step-ups only, a session whose last use lies less than the idle lifetime less
      the touch interval back has not idled out. Before its absolute end a cleanup leaves it
      alone, and unrevoked it verifies for an active user with the permission. */
  lemma RegularUseSurvives(cfg: Config, s: Store, token: Secret, start: Time, events: seq<Event>, permission: string,
                           now: Time)
    requires cfg.idleTtl > 0 && cfg.touchInterval >= 0 && Inv(cfg, s) && FreshRun(cfg, s, events)
    requires Clocked(start, events)
    requires OnlyHarmlessStepUps(cfg, s, HashOf(token), events)
    requires Known(s, HashOf(token)) ==> Safe(cfg, SessionOf(s, HashOf(token)), start)
    requires Known(Run(cfg, s, events), HashOf(token))
    requires now - LastUse(cfg, s, HashOf(token), start, events) < cfg.idleTtl - cfg.touchInterval
    ensures var s' := Run(cfg, s, events);
      var x := SessionOf(s', HashOf(token));
      && (VerifySession(cfg, s', token, permission, now).1 == Err(AuthenticationFailed(SessionExpired)) ==>
          x.expiresAt <= now)
      && (now < x.expiresAt ==> Cleanup(s', now).sessions[s'.sessionsByHash[HashOf(token)]] == x)
      && (now < x.expiresAt && Granted(s', x, permission) ==> VerifySession(cfg, s', token, permission, now).1.Ok?)
  {
    hide Inv, FreshRun, Clocked, Run, LastUse, OnlyHarmlessStepUps, Refresh, Allows;
    RegularUseIsSafe(cfg, s, HashOf(token), start, events);
    RunKeeps(cfg, s, events);
    VerifyOutcome(cfg, Run(cfg, s, events), token, permission, now);
  }

  // ----- What a harmful step-up does -----

  /** The storage after the token was verified at each of these times. */
  function VerifyAll(cfg: Config, s: Store, token: Secret, times: seq<Time>): Store {
    if times == [] then s
    else VerifySession(cfg, VerifyAll(cfg, s, token, times[..|times| - 1]), token, "", times[|times| - 1]).0
  }

  function LastOf(from: Time, times: seq<Time>): Time {
    if times == [] then from else times[|times| - 1]
  }

  /** The next use comes within the idle lifetime less the touch interval. */
  predicate Soon(cfg: Config, last: Time, now: Time) {
    last <= now < last + cfg.idleTtl - cfg.touchInterval
  }

  /** Successful verifications, each soon after the one before. */
  predicate Uses(cfg: Config, s: Store, token: Secret, from: Time, times: seq<Time>) {
    times != [] ==>
      var init, now := times[..|times| - 1], times[|times| - 1];
      && Uses(cfg, s, token, from, init) && Soon(cfg, LastOf(from, init), now)
      && VerifySession(cfg, VerifyAll(cfg, s, token, init), token, "", now).1.Ok?
  }

  predicate RefusedAsExpired(cfg: Config, s: Store, token: Secret, now: Time) {
    VerifySession(cfg, s, token, "", now).1 == Err(AuthenticationFailed(SessionExpired))
  }

  /** However it is used from now on, as long as each use comes soon, the token is never refused
      as expired before the absolute end of its session. */
  ghost predicate Outlives(cfg: Config, s: Store, token: Secret, from: Time) {
    Known(s, HashOf(token)) &&
    forall times, now :: Uses(cfg, s, token, from, times) && Soon(cfg, LastOf(from, times), now) ==>
      (RefusedAsExpired(cfg, VerifyAll(cfg, s, token, times), token, now) ==>
       SessionOf(s, HashOf(token)).expiresAt <= now)
  }

  /** Safe, or sure to reach the absolute end before the idle deadline; where the touch interval
      leaves no time at all between two uses, it is enough that the session is alive. */
  predicate Sound(cfg: Config, x: Session, last: Time) {
    || Safe(cfg, x, last)
    || (x.idleExpiresAt.Some? && x.expiresAt <= x.idleExpiresAt.value)
    || (cfg.idleTtl <= cfg.touchInterval + 1 && x.idleExpiresAt.Some? && last < x.idleExpiresAt.value)
  }

  lemma SoundIsNotIdle(cfg: Config, x: Session, last: Time, now: Time)
    requires cfg.idleTtl > 0 && Sound(cfg, x, last) && Soon(cfg, last, now) && Expired(x, now)
    ensures x.expiresAt <= now
  {
  }

  lemma TouchIsSound(cfg: Config, x: Session, last: Time, now: Time)
    requires cfg.idleTtl > 0 && cfg.touchInterval >= 0 && Sound(cfg, x, last) && Soon(cfg, last, now)
    requires !Expired(x, now)
    ensures var touched := x.(lastSeenAt := Some(now), idleExpiresAt := IdleDeadline(cfg, now));
      var y := if TouchDue(cfg, x, now) then touched else x;
      Sound(cfg, y, now)
  {
  }

  /** One verification: the session it leaves, and when it is refused as expired. */
  lemma VerifiedOnce(cfg: Config, s: Store, token: Secret, now: Time)
    requires Inv(cfg, s) && Known(s, HashOf(token))
    ensures var (s', p) := VerifySession(cfg, s, token, "", now);
      var x := SessionOf(s, HashOf(token));
      && Inv(cfg, s') && Known(s', HashOf(token)) && s'.users == s.users
      && (p.Ok? <==>
            x.revokedAt == None && !Expired(x, now) && x.userId in s.users && s.users[x.userId].status == Active)
      && (RefusedAsExpired(cfg, s, token, now) <==> x.revokedAt == None && Expired(x, now))
      && (p.Err? ==> s' == s)
      && (p.Ok? && !TouchDue(cfg, x, now) ==> s' == s)
      && SessionOf(s', HashOf(token)) ==
        if p.Ok? && TouchDue(cfg, x, now) then x.(lastSeenAt := Some(now), idleExpiresAt := IdleDeadline(cfg, now))
        else x
  {
    hide Inv, Allows, Expired, TouchSession, IdleDeadline;
    var at := At(now).(verified := Some(HashOf(token)));
    Begin(cfg, s, at);
    VerifyKeeps(cfg, s, s, token, "", at);
    ReachedIsValid(cfg, s, VerifySession(cfg, s, token, "", now).0, at);
    VerifyOutcome(cfg, s, token, "", now);
    if SessionOf(s, HashOf(token)).revokedAt == None {
      RefreshedSession(cfg, s, HashOf(token), now);
    }
  }

  /** Regular uses keep a session sound, and its absolute end. */
  lemma {:induction false} UsesKeepSound(cfg: Config, s: Store, token: Secret, from: Time, times: seq<Time>)
    requires cfg.idleTtl > 0 && cfg.touchInterval >= 0 && Inv(cfg, s) && Known(s, HashOf(token))
    requires Sound(cfg, SessionOf(s, HashOf(token)), from) && Uses(cfg, s, token, from, times)
    ensures var s' := VerifyAll(cfg, s, token, times);
      && Inv(cfg, s') && Known(s', HashOf(token)) && Sound(cfg, SessionOf(s', HashOf(token)), LastOf(from, times))
      && SessionOf(s', HashOf(token)).expiresAt == SessionOf(s, HashOf(token)).expiresAt
    decreases |times|
  {
    hide Inv, VerifySession, Known, SessionOf, Sound, Soon, TouchDue, Expired;
    if times != [] {
      var init, now := times[..|times| - 1], times[|times| - 1];
      UsesKeepSound(cfg, s, token, from, init);
      var before := VerifyAll(cfg, s, token, init);
      VerifiedOnce(cfg, before, token, now);
      TouchIsSound(cfg, SessionOf(before, HashOf(token)), LastOf(from, init), now);
    }
  }

  lemma SoundOutlives(cfg: Config, s: Store, token: Secret, from: Time)
    requires cfg.idleTtl > 0 && cfg.touchInterval >= 0 && Inv(cfg, s) && Known(s, HashOf(token))
    requires Sound(cfg, SessionOf(s, HashOf(token)), from)
    ensures Outlives(cfg, s, token, from)
  {
    hide Inv, VerifySession, Known, SessionOf, Sound, Soon, Expired, Uses, VerifyAll, RefusedAsExpired;
    forall times, now | Uses(cfg, s, token, from, times) && Soon(cfg, LastOf(from, times), now)
      && RefusedAsExpired(cfg, VerifyAll(cfg, s, token, times), token, now)
      ensures SessionOf(s, HashOf(token)).expiresAt <= now
    {
      UsesKeepSound(cfg, s, token, from, times);
      var after := VerifyAll(cfg, s, token, times);
      VerifiedOnce(cfg, after, token, now);
      SoundIsNotIdle(cfg, SessionOf(after, HashOf(token)), LastOf(from, times), now);
    }
  }

  /** Every tick after `from`, `n` times. */
  function Ticks(from: Time, n: nat): seq<Time> {
    if n == 0 then [] else Ticks(from, n - 1) + [from + n]
  }

  /** Until a touch is due, using a session every tick leaves everything alone. */
  lemma {:induction false} UntouchedUses(cfg: Config, s: Store, token: Secret, from: Time, n: nat)
    requires cfg.idleTtl >= cfg.touchInterval + 2 && cfg.touchInterval > 0 && Inv(cfg, s) && Known(s, HashOf(token))
    requires var x := SessionOf(s, HashOf(token));
      && x.revokedAt == None && x.userId in s.users && s.users[x.userId].status == Active
      && x.lastSeenAt == Some(from) && n < cfg.touchInterval && !Expired(x, from + n)
    ensures VerifyAll(cfg, s, token, Ticks(from, n)) == s && Uses(cfg, s, token, from, Ticks(from, n))
    ensures LastOf(from, Ticks(from, n)) == from + n
  {
    hide Inv, VerifySession, Known, SessionOf;
    if n > 0 {
      UntouchedUses(cfg, s, token, from, n - 1);
      VerifiedOnce(cfg, s, token, from + n);
      var times := Ticks(from, n);
      assert times[..|times| - 1] == Ticks(from, n - 1) && times[|times| - 1] == from + n;
    }
  }

  /** A session last seen later than one tick after its deadline was set runs into that deadline
      in regular use, unless its absolute end comes first. */
  lemma LateIsStranded(cfg: Config, s: Store, token: Secret, from: Time)
    requires cfg.idleTtl >= cfg.touchInterval + 2 && cfg.touchInterval > 0 && Inv(cfg, s) && Known(s, HashOf(token))
    requires var x := SessionOf(s, HashOf(token));
      && x.revokedAt == None && x.userId in s.users && s.users[x.userId].status == Active && !Expired(x, from)
      && x.lastSeenAt == Some(from) && x.idleExpiresAt.Some? && TouchedAt(cfg, x) + 1 < from
      && x.idleExpiresAt.value < x.expiresAt
    ensures !Outlives(cfg, s, token, from)
  {
    hide Inv, VerifySession, Known, SessionOf, Uses, VerifyAll;
    var x := SessionOf(s, HashOf(token));
    var deadline := x.idleExpiresAt.value;
    var n := if from + cfg.touchInterval <= deadline then cfg.touchInterval - 1 else deadline - 1 - from;
    UntouchedUses(cfg, s, token, from, n);
    VerifiedOnce(cfg, s, token, deadline);
    assert RefusedAsExpired(cfg, VerifyAll(cfg, s, token, Ticks(from, n)), token, deadline);
  }

  /** When a session in regular use survives a successful step-up, exactly: the step-up is
      harmless, or the absolute end comes no later than the idle deadline, or the touch interval
      leaves no room between two uses. */
  lemma StepUpOutlivedIff(cfg: Config, s: Store, call: Call, env: Env, token: Secret, last: Time)
    requires cfg.idleTtl > 0 && cfg.touchInterval >= 0 && Inv(cfg, s) && Unused(s, env.drawn) && last <= env.now
    requires StepsUp(cfg, s, call, env, HashOf(token)) && Known(s, HashOf(token))
    requires Safe(cfg, SessionOf(s, HashOf(token)), last)
    ensures var x := SessionOf(s, HashOf(token));
      Outlives(cfg, Step(cfg, s, call, env).0, token, env.now) <==>
        || Harmless(cfg, x, env.now)
        || x.expiresAt <= x.idleExpiresAt.value
        || cfg.idleTtl <= cfg.touchInterval + 1
  {
    hide Inv, Unused, Step, Checked, VerifiedHash, Outlives, Known, SessionOf, IsStepUp;
    var h := HashOf(token);
    var s' := Step(cfg, s, call, env).0;
    StepEvolves(cfg, s, call, env);
    StepUpSession(cfg, s, call, env, h);
    CheckedSession(cfg, s, call, h, env.now);
    StepUpSafeIff(cfg, s, call, env, h, last);
    RaisedIsAlive(cfg, s, call, env, h);
    if Sound(cfg, SessionOf(s', h), env.now) {
      SoundOutlives(cfg, s', token, env.now);
    } else {
      LateIsStranded(cfg, s', token, env.now);
    }
  }

  lemma {:induction false} TotpLeavesUsers(cfg: Config, s: Store, listed: seq<Factor>, code: string, now: Time)
    ensures VerifyTotpIn(cfg, s, listed, code, now).0.users == s.users
    decreases |listed|
  {
    hide CodeCounter;
    if listed != [] {
      TotpLeavesUsers(cfg, s, listed[1..], code, now);
      if Usable(cfg, s, listed[0], code, now) {
        var s1 := MarkCounter(s, listed[0].id, CodeCounter(cfg, s, listed[0], code, now).value, now).0;
        TotpLeavesUsers(cfg, s1, listed[1..], code, now);
      }
    }
  }

  lemma SpendingLeavesUsers(s: Store, id: CodeId, p: Principal, now: Time)
    ensures MarkCode(s, id, now).0.users == s.users && RaiseAssurance(s, p, now).0.users == s.users
  {
  }

  lemma StepUpLeavesUsers(cfg: Config, s: Store, call: Call, env: Env)
    requires IsStepUp(call)
    ensures Step(cfg, s, call, env).0.users == Checked(cfg, s, call, env.now).users
  {
    hide VerifySession, VerifyTotpIn, FactorsOf, FindCode, CodesOf, MarkCode, RaiseAssurance;
    var token := Presented(call).value.0;
    var (s1, p) := VerifySession(cfg, s, token, "", env.now);
    if p.Ok? {
      SpendingLeavesUsers(s1, 0, p.value, env.now);
      match call.factorCall
      case StepUpWithTotp(_, code) =>
        var listed := FactorsOf(s1, p.value.user.id);
        TotpLeavesUsers(cfg, s1, listed, code, env.now);
        SpendingLeavesUsers(VerifyTotpIn(cfg, s1, listed, code, env.now).0, 0, p.value, env.now);
      case StepUpWithCode(_, recovery) =>
        var found := FindCode(CodesOf(s1, p.value.user.id), HashOf(recovery));
        if found.Some? {
          SpendingLeavesUsers(s1, found.value.id, p.value, env.now);
          SpendingLeavesUsers(MarkCode(s1, found.value.id, env.now).0, 0, p.value, env.now);
        }
    }
  }

  /** A session that has just been stepped up is unrevoked and unexpired, and its user active. */
  lemma RaisedIsAlive(cfg: Config, s: Store, call: Call, env: Env, h: Hash)
    requires cfg.idleTtl > 0 && Inv(cfg, s) && Unused(s, env.drawn) && StepsUp(cfg, s, call, env, h)
    ensures var s' := Step(cfg, s, call, env).0;
      && Known(s', h) && SessionOf(s', h).revokedAt == None && !Expired(SessionOf(s', h), env.now)
      && SessionOf(s', h).userId in s'.users && s'.users[SessionOf(s', h).userId].status == Active
  {
    hide Inv, Unused, Step, Known, SessionOf, VerifySession;
    VerifiedIsAlive(cfg, s, call, h, env.now);
    VerifiedOnce(cfg, s, Presented(call).value.0, env.now);
    StepUpSession(cfg, s, call, env, h);
    StepUpLeavesUsers(cfg, s, call, env);
  }

  // ----- A harmful step-up that can be reached -----

  function OneOwner(lastLogin: Option<Time>): User {
    AuthModels.User.User(0, "a", true, Owner, Active, 0, lastLogin)
  }

  /** One active owner with two recovery codes. */
  function OneAccount(): Store {
    EMPTY.(users := map[0 := OneOwner(None)], usersByEmail := map["a" := 0], codes := TwoCodes(None),
           codeOrder := [0, 1])
  }

  function TwoCodes(used: Option<Time>): map<CodeId, RecoveryCode> {
    map[0 := RecoveryCode(0, 0, HashOf(9), used), 1 := RecoveryCode(1, 0, HashOf(8), None)]
  }

  /** The storage after that owner has logged in. */
  function OneSession(cfg: Config, login: Env): Store {
    FinishLogin(cfg, OneAccount(), OneOwner(None), "email", login).0
  }

  lemma OneAccountIsValid(cfg: Config)
    ensures Inv(cfg, OneAccount()) && EmailKey("a") == "a"
  {
    assert EmailKey("a") == "a" by {
      assert Strip("a") == "a";
      assert Lower("a") == "a";
    }
  }

  /** `x` is the one session, that of the one owner. */
  predicate Sole(s: Store, x: Session) {
    && s.sessions == map[x.id := x] && s.sessionsByHash == map[x.tokenHash := x.id] && x.revokedAt == None
    && x.userId == 0 && 0 in s.users && s.users[0].id == 0 && s.users[0].status == Active
  }

  predicate HasCodes(s: Store, used: Option<Time>) {
    s.codes == TwoCodes(used) && s.codeOrder == [0, 1]
  }

  lemma LoggedIn(cfg: Config, login: Env)
    ensures Sole(OneSession(cfg, login), NewSession(cfg, OneOwner(None), "email", login))
    ensures HasCodes(OneSession(cfg, login), None)
    ensures Inv(cfg, OneSession(cfg, login))
  {
    hide PermissionsFor, EmailKey, Inv;
    OneAccountIsValid(cfg);
    var at := At(login.now);
    Begin(cfg, OneAccount(), at);
    FinishLoginKeeps(cfg, OneAccount(), OneAccount(), OneOwner(None), "email", login, at);
    ReachedIsValid(cfg, OneAccount(), OneSession(cfg, login), at);
  }

  /** A verification of the one session: it touches, or leaves it alone. */
  lemma SoleVerifies(cfg: Config, s: Store, x: Session, token: Secret, now: Time)
    requires Sole(s, x) && x.tokenHash == HashOf(token) && !Expired(x, now)
    ensures var (s', p) := VerifySession(cfg, s, token, "", now);
      var touched := x.(lastSeenAt := Some(now), idleExpiresAt := IdleDeadline(cfg, now));
      var y := if TouchDue(cfg, x, now) then touched else x;
      p == Ok(Principal(s.users[0], y)) && Sole(s', y) && s'.codes == s.codes && s'.codeOrder == s.codeOrder
  {
    hide Allows, TouchDue, IdleDeadline, Expired;
  }

  /** The first unused code with the hash is the one of that secret. */
  lemma CodeIsFound(s: Store, used: Option<Time>)
    requires HasCodes(s, used)
    ensures used == None ==> FindCode(CodesOf(s, 0), HashOf(9)) == Some(s.codes[0])
    ensures FindCode(CodesOf(s, 0), HashOf(8)) == Some(s.codes[1])
  {
    var a, b := s.codes[0], s.codes[1];
    assert CodesIn(s, [1], 0) == [b];
    assert [0, 1][1..] == [1] && CodesIn(s, [0, 1], 0) == [a] + [b] == [a, b];
    assert FindCode([b], HashOf(8)) == Some(b);
    assert [a, b][1..] == [b];
  }

  lemma CodeIsSpent(s: Store, x: Session, used: Option<Time>, now: Time)
    requires Sole(s, x) && HasCodes(s, used)
    ensures Sole(MarkCode(s, 0, now).0, x) && Sole(MarkCode(s, 1, now).0, x)
    ensures used == None ==> MarkCode(s, 0, now).1.Ok? && HasCodes(MarkCode(s, 0, now).0, Some(now))
    ensures MarkCode(s, 1, now).1.Ok?
  {
  }

  lemma SoleRaises(s: Store, x: Session, user: User, now: Time)
    requires Sole(s, x)
    ensures var (s', p) := RaiseAssurance(s, Principal(user, x), now);
      && p.Ok? && Sole(s', x.(assurance := AAL2, lastSeenAt := Some(now))) && s'.codes == s.codes
      && s'.codeOrder == s.codeOrder
  {
  }

  /** A step-up that comes before a touch is due, with the first code or then with the second. */
  lemma SoleStepsUp(cfg: Config, s: Store, x: Session, token: Secret, used: Option<Time>, env: Env)
    requires Sole(s, x) && HasCodes(s, used) && x.tokenHash == HashOf(token)
    requires !Expired(x, env.now) && !TouchDue(cfg, x, env.now) && env.allowed
    ensures var (s', p) := StepUpRecovery(cfg, s, token, if used == None then 9 else 8, env);
      && p.Ok? && Sole(s', x.(assurance := AAL2, lastSeenAt := Some(env.now)))
      && (used == None ==> HasCodes(s', Some(env.now)))
  {
    hide VerifySession, TouchDue, Expired, Sole, CodesOf, FindCode, MarkCode, RaiseAssurance, TwoCodes;
    SoleVerifies(cfg, s, x, token, env.now);
    SoleOwner(s, x);
    var s1 := VerifySession(cfg, s, token, "", env.now).0;
    CodeIds(s1, used);
    CodeIsFound(s1, used);
    CodeIsSpent(s1, x, used, env.now);
    SoleRaises(MarkCode(s1, if used == None then 0 else 1, env.now).0, x, s.users[0], env.now);
  }

  lemma CodeIds(s: Store, used: Option<Time>)
    requires HasCodes(s, used)
    ensures 0 in s.codes && 1 in s.codes && s.codes[0].id == 0 && s.codes[1].id == 1
  {
  }

  lemma SoleOwner(s: Store, x: Session)
    requires Sole(s, x)
    ensures 0 in s.users && s.users[0].id == 0
  {
  }

  lemma SoleIsKnown(s: Store, x: Session)
    requires Sole(s, x)
    ensures Known(s, x.tokenHash) && SessionOf(s, x.tokenHash) == x
    ensures x.revokedAt == None && x.userId in s.users && s.users[x.userId].status == Active
  {
  }

  function StepUpCall(token: Secret, recovery: Secret): Call {
    Second(StepUpWithCode(token, recovery))
  }

  /** A step-up of the one session, as a call of a run. */
  lemma StepUpCallSucceeds(cfg: Config, s: Store, x: Session, token: Secret, used: Option<Time>, env: Env)
    requires Sole(s, x) && HasCodes(s, used) && x.tokenHash == HashOf(token) && Inv(cfg, s) && Unused(s, env.drawn)
    requires !Expired(x, env.now) && !TouchDue(cfg, x, env.now) && env.allowed
    ensures var (s', r) := Step(cfg, s, StepUpCall(token, if used == None then 9 else 8), env);
      && r.Ok? && Inv(cfg, s') && Sole(s', x.(assurance := AAL2, lastSeenAt := Some(env.now)))
      && (used == None ==> HasCodes(s', Some(env.now)))
  {
    hide Inv, Unused, Sole, HasCodes, StepUpRecovery, TouchDue, Expired;
    SoleStepsUp(cfg, s, x, token, used, env);
    StepEvolves(cfg, s, StepUpCall(token, if used == None then 9 else 8), env);
  }

  lemma VerificationsOutlive(cfg: Config, s: Store, x: Session, token: Secret)
    requires cfg.touchInterval >= 2 && cfg.idleTtl >= cfg.touchInterval + 2
    requires Inv(cfg, s) && Sole(s, x) && x.tokenHash == HashOf(token)
    requires x.lastSeenAt == Some(0) && x.idleExpiresAt == Some(cfg.idleTtl) && x.expiresAt > cfg.idleTtl
    ensures Outlives(cfg, VerifyAll(cfg, s, token, [1, 2]), token, 2)
  {
    hide Inv, Sole, VerifySession, VerifyAll, Outlives, Known, SessionOf;
    SoleIsKnown(s, x);
    VerifiedTwice(cfg, s, token, 1, 2);
    VerifiedOnce(cfg, s, token, 1);
    VerifiedOnce(cfg, VerifySession(cfg, s, token, "", 1).0, token, 2);
    SoundOutlives(cfg, VerifyAll(cfg, s, token, [1, 2]), token, 2);
  }

  /** Harm can be reached for every touch interval of at least two ticks that leaves room between
      two uses: after a login at 0, step-ups at 1 and 2 make regular use run into the idle
      deadline. With verifications in their place it does not. */
  lemma StepUpsStrand(cfg: Config, login: Env, env1: Env, env2: Env)
    requires cfg.touchInterval >= 2 && cfg.idleTtl >= cfg.touchInterval + 2 && cfg.sessionTtl > cfg.idleTtl
    requires login.now == 0 && env1.now == 1 && env2.now == 2 && env1.allowed && env2.allowed
    requires Unused(OneSession(cfg, login), env1.drawn)
    requires Unused(Step(cfg, OneSession(cfg, login), StepUpCall(login.drawn.sessionToken, 9), env1).0, env2.drawn)
    ensures var token := login.drawn.sessionToken;
      var (s1, first) := Step(cfg, OneSession(cfg, login), StepUpCall(token, 9), env1);
      var (s2, second) := Step(cfg, s1, StepUpCall(token, 8), env2);
      first.Ok? && second.Ok? && !Outlives(cfg, s2, token, 2)
    ensures var token := login.drawn.sessionToken;
      Outlives(cfg, VerifyAll(cfg, OneSession(cfg, login), token, [1, 2]), token, 2)
  {
    hide OneSession, PermissionsFor, Step, VerifyAll, Sole, HasCodes, Outlives, Inv, Unused, StepUpCall, Known,
      SessionOf;
    var token := login.drawn.sessionToken;
    var s, x := OneSession(cfg, login), NewSession(cfg, OneOwner(None), "email", login);
    LoggedIn(cfg, login);
    VerificationsOutlive(cfg, s, x, token);
    StepUpCallSucceeds(cfg, s, x, token, None, env1);
    var s1, x1 := Step(cfg, s, StepUpCall(token, 9), env1).0, x.(assurance := AAL2, lastSeenAt := Some(1));
    StepUpCallSucceeds(cfg, s1, x1, token, Some(1), env2);
    var s2, x2 := Step(cfg, s1, StepUpCall(token, 8), env2).0, x1.(lastSeenAt := Some(2));
    SoleIsKnown(s2, x2);
    LateIsStranded(cfg, s2, token, 2);
  }

  lemma VerifiedTwice(cfg: Config, s: Store, token: Secret, a: Time, b: Time)
    ensures VerifyAll(cfg, s, token, [a, b])
      == VerifySession(cfg, VerifySession(cfg, s, token, "", a).0, token, "", b).0
  {
    hide VerifySession;
    assert [a, b][..1] == [a] && [a][..0] == [];
    assert VerifyAll(cfg, s, token, [a]) == VerifySession(cfg, VerifyAll(cfg, s, token, []), token, "", a).0;
  }
}

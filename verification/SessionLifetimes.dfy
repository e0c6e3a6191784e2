/** How long a session lives over whole runs: revocation and expiry are final, and an unused
    session dies after one idle lifetime. */
module SessionLifetimes {
  import opened Prelude
  import opened Permissions
  import opened AuthModels
  import opened AuthStore
  import opened AuthCalls
  import opened AuthRuns
  import opened AuthInvariants
  import opened AuthSafety
  import opened AuthGuarantees

  predicate Known(s: Store, h: Hash) {
    h in s.sessionsByHash && s.sessionsByHash[h] in s.sessions
  }

  function SessionOf(s: Store, h: Hash): Session
    requires Known(s, h)
  {
    s.sessions[s.sessionsByHash[h]]
  }

  /** What a call does to the session of one token. */
  lemma SessionOfSteps(cfg: Config, s0: Store, s: Store, h: Hash, at: Moment)
    requires Inv(cfg, s0) && Reached(cfg, s0, s, at)
    ensures Known(s0, h) ==>
      Known(s, h) && SessionStep(cfg, SessionOf(s0, h), SessionOf(s, h), at) && SessionOf(s0, h).tokenHash == h
    ensures !Known(s0, h) && Known(s, h) ==> SessionOf(s, h).tokenHash == h && Issued(cfg, SessionOf(s, h), at)
  {
    hide UsersIndexed, Snapshots, UsersEvolve, IdentitiesKeyed, FlowsIndexed, CredentialsIndexed, FactorsListed,
      CodesListed, IdentitiesEvolve;
    forall id | id in s0.sessions ensures id in s.sessions && s.sessions[id].tokenHash == s0.sessions[id].tokenHash {
      assert SessionStep(cfg, s0.sessions[id], s.sessions[id], at);
    }
    if Known(s0, h) {
      assert s.sessionsByHash[h] == s0.sessionsByHash[h];
    }
  }

  // ----- Dead sessions -----

  /** The session of the token is revoked or expired. */
  predicate Dead(s: Store, h: Hash, now: Time) {
    Known(s, h) && (SessionOf(s, h).revokedAt.Some? || Expired(SessionOf(s, h), now))
  }

  lemma DeadNeverVerifies(cfg: Config, s: Store, token: Secret, permission: string, then_: Time, now: Time)
    requires Dead(s, HashOf(token), then_) && then_ <= now
    ensures VerifySession(cfg, s, token, permission, now).1.Err?
  {
    hide Refresh;
  }

  lemma VerifiedIsAlive(cfg: Config, s: Store, call: Call, h: Hash, now: Time)
    requires Inv(cfg, s) && VerifiedHash(cfg, s, call, now) == Some(h)
    ensures Known(s, h) && !Dead(s, h, now)
  {
    hide Inv, VerifySession, Allows;
    var p := Presented(call).value;
    VerifyOutcome(cfg, s, p.0, p.1, now);
  }

  lemma DeadStays(cfg: Config, s: Store, call: Call, env: Env, h: Hash, then_: Time)
    requires Inv(cfg, s) && Unused(s, env.drawn) && Dead(s, h, then_) && then_ <= env.now
    ensures Dead(Step(cfg, s, call, env).0, h, env.now)
  {
    hide Inv, Unused, Step, VerifiedHash;
    StepEvolves(cfg, s, call, env);
    SessionOfSteps(cfg, s, Step(cfg, s, call, env).0, h, MomentOf(cfg, s, call, env));
    if VerifiedHash(cfg, s, call, env.now) == Some(h) {
      VerifiedIsAlive(cfg, s, call, h, env.now);
    }
  }

  /** Once dead, dead after every run. */
  lemma {:induction false} DeadForever(cfg: Config, s: Store, h: Hash, start: Time, events: seq<Event>)
    requires Inv(cfg, s) && FreshRun(cfg, s, events) && Clocked(start, events) && Dead(s, h, start)
    ensures Dead(Run(cfg, s, events), h, Last(start, events))
    decreases |events|
  {
    hide Inv, Unused, Step, Dead;
    if events != [] {
      var init, e := events[..|events| - 1], events[|events| - 1];
      DeadForever(cfg, s, h, start, init);
      RunKeeps(cfg, s, init);
      DeadStays(cfg, Run(cfg, s, init), e.call, e.env, h, Last(start, init));
    }
  }

  /** A token whose session is revoked or expired is refused after every later run. */
  lemma DeadTokenIsRefused(cfg: Config, s: Store, token: Secret, start: Time, events: seq<Event>, permission: string,
                           now: Time)
    requires Inv(cfg, s) && FreshRun(cfg, s, events) && Clocked(start, events) && Dead(s, HashOf(token), start)
    requires Last(start, events) <= now
    ensures VerifySession(cfg, Run(cfg, s, events), token, permission, now).1.Err?
  {
    hide Inv, Run, FreshRun, Clocked, VerifySession, Dead;
    DeadForever(cfg, s, HashOf(token), start, events);
    DeadNeverVerifies(cfg, Run(cfg, s, events), token, permission, Last(start, events), now);
  }

  /** A logout ends the session of its token for good. */
  lemma LogoutKills(cfg: Config, s: Store, token: Secret, now: Time, events: seq<Event>, env: Env, permission: string,
                    later: Time)
    requires Inv(cfg, s) && Known(s, HashOf(token)) && Unused(s, env.drawn) && env.now == now
    requires FreshRun(cfg, Logout(s, token, now).0, events) && Clocked(now, events) && Last(now, events) <= later
    ensures VerifySession(cfg, Run(cfg, Logout(s, token, now).0, events), token, permission, later).1.Err?
  {
    hide Inv, Unused, Run, FreshRun, Clocked, VerifySession, Logout, Known, Dead;
    StepEvolves(cfg, s, OnSession(LogoutWith(token)), env);
    LogoutIsDeath(cfg, s, token, now);
    DeadTokenIsRefused(cfg, Logout(s, token, now).0, token, now, events, permission, later);
  }

  lemma LogoutIsDeath(cfg: Config, s: Store, token: Secret, now: Time)
    requires Inv(cfg, s) && Known(s, HashOf(token))
    ensures Dead(Logout(s, token, now).0, HashOf(token), now)
  {
    hide UsersIndexed, Snapshots, IdentitiesKeyed, FlowsIndexed, CredentialsIndexed, FactorsListed, CodesListed,
      Expired;
    var x := SessionOf(s, HashOf(token));
    if Unrevoked(s, x.id) {
    }
  }

  // ----- Revoking every session of a user -----

  lemma RevokeForUserKills(cfg: Config, s: Store, user: UserId, h: Hash, now: Time, then_: Time)
    requires Known(s, h) && SessionOf(s, h).userId == user
    ensures Dead(RevokeForUser(s, user, None, now), h, then_)
  {
  }

  lemma SetPasswordLeavesSessions(cfg: Config, s: Store, id: UserId, password: string, env: Env)
    ensures var s' := SetPassword(cfg, s, id, password, Some(false), None, env).0;
      s'.sessions == s.sessions && s'.sessionsByHash == s.sessionsByHash
  {
    hide PasswordCredential, HashPassword, RevokeForUser;
  }

  lemma ResetKillsSessions(cfg: Config, s: Store, reset: Secret, password: string, env: Env, h: Hash, now: Time)
    requires cfg.revokeOnPasswordChange && ConsumeReset(cfg, s, reset, password, env).1.Ok?
    requires Known(s, h) && SessionOf(s, h).userId == ConsumeReset(cfg, s, reset, password, env).1.value.id
    ensures Dead(ConsumeReset(cfg, s, reset, password, env).0, h, now)
  {
    hide SetPassword, FlowUser, RevokeForUser, FlowByHash;
    var (s1, consumed) := ConsumeFlow(s, HashOf(reset), PasswordReset, "email", env.now);
    var user := FlowUser(s1, consumed.value).value;
    SetPasswordLeavesSessions(cfg, s1, user.id, password, env);
    RevokeForUserKills(cfg, SetPassword(cfg, s1, user.id, password, Some(false), None, env).0, user.id, h,
                       env.now, now);
  }

  /** After a password reset, every token the user held is refused after every run. */
  lemma ResetKillsForever(cfg: Config, s: Store, reset: Secret, password: string, env: Env, token: Secret,
                          events: seq<Event>, permission: string, now: Time)
    requires Inv(cfg, s) && Unused(s, env.drawn) && cfg.revokeOnPasswordChange
    requires ConsumeReset(cfg, s, reset, password, env).1.Ok?
    requires Known(s, HashOf(token))
    requires SessionOf(s, HashOf(token)).userId == ConsumeReset(cfg, s, reset, password, env).1.value.id
    requires FreshRun(cfg, ConsumeReset(cfg, s, reset, password, env).0, events) && Clocked(env.now, events)
    requires Last(env.now, events) <= now
    ensures var s' := Run(cfg, ConsumeReset(cfg, s, reset, password, env).0, events);
      VerifySession(cfg, s', token, permission, now).1.Err?
  {
    hide Inv, Unused, ConsumeReset, Run, FreshRun, Clocked, VerifySession, Dead;
    StepEvolves(cfg, s, Account(UseReset(reset, password)), env);
    ResetKillsSessions(cfg, s, reset, password, env, HashOf(token), env.now);
    DeadTokenIsRefused(cfg, ConsumeReset(cfg, s, reset, password, env).0, token, env.now, events, permission, now);
  }

  /** A change of role kills every session issued under the old one. */
  lemma RoleChangeKills(cfg: Config, s: Store, actor: Secret, id: UserId, role: Role, env: Env, h: Hash, now: Time)
    requires Inv(cfg, s) && Unused(s, env.drawn) && UpdateRole(cfg, s, actor, id, role, env).1.Ok?
    requires Known(s, h) && SessionOf(s, h).userId == id
    ensures Dead(UpdateRole(cfg, s, actor, id, role, env).0, h, now)
  {
    hide Inv, Unused, VerifySession, RevokeForUser, AnotherPrivileged, SessionOf, Known;
    var (s1, p) := VerifySession(cfg, s, actor, USERS_WRITE, env.now);
    var call := Administer(SetRole(actor, id, role));
    var at := MomentOf(cfg, s, call, env);
    CheckedKeeps(cfg, s, call, env, at);
    SessionOfSteps(cfg, s, s1, h, at);
    UserIds(cfg, s, s1, id, at);
    var s2 := UpdateUser(s1, s1.users[id].(role := role, updatedAt := env.now)).0;
    SameSessions(s1, s2, h);
    RevokeForUserKills(cfg, s2, id, h, env.now, now);
  }

  lemma SameSessions(a: Store, b: Store, h: Hash)
    requires a.sessions == b.sessions && a.sessionsByHash == b.sessionsByHash
    ensures Known(a, h) <==> Known(b, h)
    ensures Known(a, h) ==> SessionOf(a, h) == SessionOf(b, h)
  {
  }

  // ----- Use and idle expiry -----

  /** The time at which the session was issued or last verified by any call. */
  function LastUse(cfg: Config, s: Store, h: Hash, start: Time, events: seq<Event>): Time {
    if events == [] then start
    else
      var init, e := events[..|events| - 1], events[|events| - 1];
      var before := Run(cfg, s, init);
      if !Known(before, h) || VerifiedHash(cfg, before, e.call, e.env.now) == Some(h) then e.env.now
      else LastUse(cfg, s, h, start, init)
  }

  lemma {:induction false} LastUseIsPast(cfg: Config, s: Store, h: Hash, start: Time, events: seq<Event>)
    requires Clocked(start, events)
    ensures LastUse(cfg, s, h, start, events) <= Last(start, events)
    decreases |events|
  {
    hide Run, VerifiedHash, Known;
    if events != [] {
      LastUseIsPast(cfg, s, h, start, events[..|events| - 1]);
    }
  }

  /** The idle deadline is at most one idle lifetime, and the absolute one exactly one session
      lifetime, away. */
  predicate WithinLimits(cfg: Config, x: Session, last: Time) {
    && (cfg.idleTtl != 0 ==> x.idleExpiresAt.Some? && x.idleExpiresAt.value <= last + cfg.idleTtl)
    && x.expiresAt == x.createdAt + cfg.sessionTtl
  }

  lemma {:induction false} LimitsFollowUse(cfg: Config, s: Store, h: Hash, start: Time, events: seq<Event>)
    requires Inv(cfg, s) && FreshRun(cfg, s, events) && Clocked(start, events)
    requires Known(s, h) ==> WithinLimits(cfg, SessionOf(s, h), start)
    ensures var s' := Run(cfg, s, events);
      Known(s', h) ==> WithinLimits(cfg, SessionOf(s', h), LastUse(cfg, s, h, start, events))
    decreases |events|
  {
    hide Inv, Unused, Step, VerifiedHash, Known, SessionOf;
    if events != [] {
      var init, e := events[..|events| - 1], events[|events| - 1];
      var before := Run(cfg, s, init);
      LimitsFollowUse(cfg, s, h, start, init);
      LastUseIsPast(cfg, s, h, start, init);
      RunKeeps(cfg, s, init);
      StepEvolves(cfg, before, e.call, e.env);
      SessionOfSteps(cfg, before, Step(cfg, before, e.call, e.env).0, h, MomentOf(cfg, before, e.call, e.env));
    }
  }

  /** Unused for an idle lifetime, or past the session lifetime. */
  predicate RunOut(cfg: Config, s: Store, h: Hash, last: Time, now: Time) {
    && Known(s, h)
    && ((cfg.idleTtl != 0 && last + cfg.idleTtl <= now) || SessionOf(s, h).createdAt + cfg.sessionTtl <= now)
  }

  /** In every run, step-ups included, a token not verified for an idle lifetime, or past the
      session lifetime, is refused. */
  lemma UnusedTokenIsRefused(cfg: Config, s: Store, token: Secret, start: Time, events: seq<Event>, permission: string,
                             now: Time)
    requires Inv(cfg, s) && FreshRun(cfg, s, events) && Clocked(start, events)
    requires Known(s, HashOf(token)) ==> WithinLimits(cfg, SessionOf(s, HashOf(token)), start)
    ensures var s' := Run(cfg, s, events);
      RunOut(cfg, s', HashOf(token), LastUse(cfg, s, HashOf(token), start, events), now) ==>
        Dead(s', HashOf(token), now) && VerifySession(cfg, s', token, permission, now).1.Err?
  {
    hide Inv, FreshRun, Clocked, Run, LastUse, VerifySession, Known, SessionOf;
    LimitsFollowUse(cfg, s, HashOf(token), start, events);
    if RunOut(cfg, Run(cfg, s, events), HashOf(token), LastUse(cfg, s, HashOf(token), start, events), now) {
      DeadNeverVerifies(cfg, Run(cfg, s, events), token, permission, now, now);
    }
  }

  lemma ReachedIsValid(cfg: Config, s0: Store, s: Store, at: Moment)
    requires Reached(cfg, s0, s, at)
    ensures Inv(cfg, s)
  {
    hide Inv, Evolves;
  }
}

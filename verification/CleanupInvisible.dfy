/** The simulation of CleanupSimulation call by call, and over runs. */
module CleanupInvisible {
  import opened Prelude
  import opened Permissions
  import opened AuthModels
  import opened AuthStore
  import opened AuthCalls
  import opened AuthRuns
  import opened AuthInvariants
  import opened AuthSafety
  import opened AuthGuarantees
  import opened CleanupSimulation

  /** Both sides end related, with agreeing answers. */
  ghost predicate Sims<T>(a: (Store, Res<T>), b: (Store, Res<T>), now: Time) {
    Sim(a.0, b.0, now) && Agree(a.1, b.1)
  }

  // ----- Users and passwords -----

  lemma SetPasswordSim(cfg: Config, c: Store, p: Store, id: UserId, password: string, revoke: Option<bool>,
                       except: Option<SessionId>, env: Env)
    requires Sim(c, p, env.now)
    ensures Sims(SetPassword(cfg, c, id, password, revoke, except, env),
                 SetPassword(cfg, p, id, password, revoke, except, env), env.now)
  {
    hide SessionsMatch, FlowsMatch, UpsertCredential, RevokeForUser, HashPassword;
    var hashed := HashPassword(password);
    if id in c.users && hashed.Ok? {
      assert PasswordCredential(c, id) == PasswordCredential(p, id);
      var existing := PasswordCredential(c, id);
      var x := if existing.Some? then existing.value.(hash := Some(hashed.value), revokedAt := None)
               else Credential(env.drawn.credential, id, Some(hashed.value), None);
      UpsertCredentialSim(c, p, x, env.now);
      RevokeForUserSim(UpsertCredential(c, x), UpsertCredential(p, x), id, except, env.now);
    }
  }

  lemma StoreUserSim(cfg: Config, c: Store, p: Store, u: User, password: string, env: Env)
    requires Sim(c, p, env.now)
    ensures Sims(StoreUser(cfg, c, u, password, env), StoreUser(cfg, p, u, password, env), env.now)
  {
    hide Sim, CreateUser, UpsertIdentity, SetPassword;
    CreateUserSim(c, p, u, env.now);
    var c1, p1 := CreateUser(c, u).0, CreateUser(p, u).0;
    var i := Identity(u.id, "email", u.email, u.email, u.verified);
    UpsertSim(c1, p1, i, env.now);
    SetPasswordSim(cfg, UpsertIdentity(c1, i), UpsertIdentity(p1, i), u.id, password, Some(false), None, env);
  }

  lemma CreateUserCallSim(cfg: Config, c: Store, p: Store, email: string, role: Role, password: string, verified: bool,
                          env: Env)
    requires Sim(c, p, env.now)
    ensures Sims(CreateUserCall(cfg, c, email, role, password, verified, env),
                 CreateUserCall(cfg, p, email, role, password, verified, env), env.now)
  {
    hide Sim, StoreUser, NewUser, IsOwnerEmail;
    if cfg.normalize(email).Some? {
      StoreUserSim(cfg, c, p, NewUser(cfg, cfg.normalize(email).value, role, verified, env), password, env);
    }
  }

  lemma UserByEmailSim(c: Store, p: Store, email: string, now: Time)
    requires Sim(c, p, now)
    ensures UserByEmail(c, email) == UserByEmail(p, email)
  {
    hide SessionsMatch, FlowsMatch, EmailKey;
  }

  lemma BootstrapSim(cfg: Config, c: Store, p: Store, email: string, password: string, env: Env)
    requires Sim(c, p, env.now)
    ensures Sims(BootstrapOwner(cfg, c, email, password, env), BootstrapOwner(cfg, p, email, password, env), env.now)
  {
    hide Sim, CreateUserCall, SetPassword, UserByEmail, IsOwnerEmail;
    var normal := cfg.normalize(email);
    if normal.Some? {
      UserByEmailSim(c, p, normal.value, env.now);
      CreateUserCallSim(cfg, c, p, normal.value, Owner, password, true, env);
      var found := UserByEmail(c, normal.value);
      if found.Some? {
        SetPasswordSim(cfg, c, p, found.value.id, password, Some(false), None, env);
      }
    }
  }

  // ----- Logins -----

  lemma FinishLoginSim(cfg: Config, c: Store, p: Store, u: User, provider: string, env: Env)
    requires Sim(c, p, env.now)
    ensures Sims(FinishLogin(cfg, c, u, provider, env), FinishLogin(cfg, p, u, provider, env), env.now)
  {
    hide Sim, CreateSession, UpdateUser, NewSession;
    var x := NewSession(cfg, u, provider, env);
    CreateSessionSim(c, p, x, env.now);
    UpdateUserSim(CreateSession(c, x).0, CreateSession(p, x).0, u.(lastLoginAt := Some(env.now), updatedAt := env.now),
                  env.now);
  }

  lemma LoginWithSim(cfg: Config, c: Store, p: Store, u: User, provider: string, env: Env)
    requires Sim(c, p, env.now)
    ensures Sims(LoginWith(cfg, c, u, provider, env), LoginWith(cfg, p, u, provider, env), env.now)
  {
    hide Sim, FinishLogin, ProfileObjection;
    FinishLoginSim(cfg, c, p, u, provider, env);
  }

  lemma PasswordCredentialSim(c: Store, p: Store, user: UserId, now: Time)
    requires Sim(c, p, now)
    ensures PasswordCredential(c, user) == PasswordCredential(p, user)
  {
    hide SessionsMatch, FlowsMatch;
  }

  lemma LoginPasswordSim(cfg: Config, c: Store, p: Store, email: string, password: string, env: Env)
    requires Sim(c, p, env.now)
    ensures Sims(LoginPassword(cfg, c, email, password, env), LoginPassword(cfg, p, email, password, env), env.now)
  {
    hide Sim, FinishLogin, ProfileObjection, UserByEmail, PasswordCredential;
    var normal := cfg.normalize(email);
    if normal.Some? {
      UserByEmailSim(c, p, normal.value, env.now);
      var found := UserByEmail(c, normal.value);
      if found.Some? {
        PasswordCredentialSim(c, p, found.value.id, env.now);
        FinishLoginSim(cfg, c, p, found.value, "email", env);
      }
    }
  }

  // ----- One-time flows -----

  lemma RequestSim(cfg: Config, c: Store, p: Store, kind: FlowKind, provider: string, nonce: Option<Secret>,
                   email: Option<string>, user: Option<UserId>, env: Env)
    requires Sim(c, p, env.now) && Unused(p, env.drawn)
    ensures var f := NewFlow(cfg, kind, provider, nonce, email, user, env);
      Sims(CreateFlow(c, f), CreateFlow(p, f), env.now)
  {
    hide Sim;
    CreateFlowSim(c, p, NewFlow(cfg, kind, provider, nonce, email, user, env), env.now);
  }

  lemma RequestVerificationSim(cfg: Config, c: Store, p: Store, id: Option<UserId>, email: Option<string>, env: Env)
    requires Sim(c, p, env.now) && Unused(p, env.drawn)
    ensures Sims(RequestVerification(cfg, c, id, email, env), RequestVerification(cfg, p, id, email, env), env.now)
  {
    hide Unused, SessionsMatch, FlowsMatch, CreateFlow, NewFlow, UserByEmail, IsOwnerEmail;
    if email.Some? && cfg.normalize(email.value).Some? {
      UserByEmailSim(c, p, cfg.normalize(email.value).value, env.now);
    }
    if id.Some? != email.Some? && (id.Some? || cfg.normalize(email.value).Some?) {
      var found := if id.Some? then Lookup(c.users, id.value) else UserByEmail(c, cfg.normalize(email.value).value);
      if found.Some? {
        RequestSim(cfg, c, p, EmailVerification, "email", None, Some(found.value.email), Some(found.value.id), env);
      }
    }
  }

  lemma RequestResetSim(cfg: Config, c: Store, p: Store, email: string, env: Env)
    requires Sim(c, p, env.now) && Unused(p, env.drawn)
    ensures Sims(RequestReset(cfg, c, email, env), RequestReset(cfg, p, email, env), env.now)
  {
    hide Unused, Sim, CreateFlow, NewFlow, UserByEmail;
    var normal := cfg.normalize(email);
    if normal.Some? {
      UserByEmailSim(c, p, normal.value, env.now);
      var found := UserByEmail(c, normal.value);
      if found.Some? {
        RequestSim(cfg, c, p, PasswordReset, "email", None, normal, Some(found.value.id), env);
      }
    }
  }

  lemma ConsumeMagicLinkSim(cfg: Config, c: Store, p: Store, token: Secret, env: Env)
    requires Sim(c, p, env.now) && FlowsIndexed(c.flows, c.flowsByHash)
    ensures Sims(ConsumeMagicLink(cfg, c, token, env), ConsumeMagicLink(cfg, p, token, env), env.now)
  {
    hide Sim, ConsumeFlow, UserByEmail, CreateUserCall, LoginWith, FlowsIndexed;
    ConsumeFlowSim(cfg, c, p, HashOf(token), MagicLink, "email", env.now);
    var (c1, consumed) := ConsumeFlow(c, HashOf(token), MagicLink, "email", env.now);
    var p1 := ConsumeFlow(p, HashOf(token), MagicLink, "email", env.now).0;
    if consumed.Some? && consumed.value.email.Some? {
      var email := consumed.value.email.value;
      UserByEmailSim(c1, p1, email, env.now);
      var found := UserByEmail(c1, email);
      if found.Some? {
        LoginWithSim(cfg, c1, p1, found.value, "email", env);
      } else {
        var role := if cfg.profile == SingleOwner then Owner else Role.User;
        CreateUserCallSim(cfg, c1, p1, email, role, "", true, env);
        var (c2, created) := CreateUserCall(cfg, c1, email, role, "", true, env);
        if created.Ok? {
          LoginWithSim(cfg, c2, CreateUserCall(cfg, p1, email, role, "", true, env).0, created.value, "email", env);
        }
      }
    }
  }

  lemma FlowUserSim(c: Store, p: Store, f: Flow, now: Time)
    requires Sim(c, p, now)
    ensures FlowUser(c, f) == FlowUser(p, f)
  {
    hide SessionsMatch, FlowsMatch, EmailKey;
  }

  /** The writes of `consume_email_verification` once its checks have passed. */
  lemma VerifiedUserSim(cfg: Config, c: Store, p: Store, u: User, now: Time)
    requires Sim(c, p, now)
    ensures var (c1, a) := UpdateUser(c, u); var (p1, b) := UpdateUser(p, u);
      && Sim(c1, p1, now) && a == b && GetIdentity(c1, "email", u.email) == GetIdentity(p1, "email", u.email)
      && (forall i :: Sim(UpsertIdentity(c1, i), UpsertIdentity(p1, i), now))
  {
    UpdateUserSim(c, p, u, now);
    var c1, p1 := UpdateUser(c, u).0, UpdateUser(p, u).0;
    hide SessionsMatch, FlowsMatch, EmailKey, IdentityKey, UpdateUser, UpsertIdentity;
    forall i ensures Sim(UpsertIdentity(c1, i), UpsertIdentity(p1, i), now) {
      UpsertSim(c1, p1, i, now);
    }
  }

  lemma ConsumeVerificationSim(cfg: Config, c: Store, p: Store, token: Secret, env: Env)
    requires Sim(c, p, env.now) && FlowsIndexed(c.flows, c.flowsByHash)
    ensures Sims(ConsumeVerification(cfg, c, token, env), ConsumeVerification(cfg, p, token, env), env.now)
  {
    hide Sim, ConsumeFlow, FlowUser, UpdateUser, GetIdentity, UpsertIdentity, FlowsIndexed;
    ConsumeFlowSim(cfg, c, p, HashOf(token), EmailVerification, "email", env.now);
    var (c1, consumed) := ConsumeFlow(c, HashOf(token), EmailVerification, "email", env.now);
    var p1 := ConsumeFlow(p, HashOf(token), EmailVerification, "email", env.now).0;
    if consumed.Some? {
      FlowUserSim(c1, p1, consumed.value, env.now);
      var found := FlowUser(c1, consumed.value);
      if found.Some? {
        VerifiedUserSim(cfg, c1, p1, found.value.(verified := true, updatedAt := env.now), env.now);
      }
    }
  }

  lemma ConsumeResetSim(cfg: Config, c: Store, p: Store, token: Secret, password: string, env: Env)
    requires Sim(c, p, env.now) && FlowsIndexed(c.flows, c.flowsByHash)
    ensures Sims(ConsumeReset(cfg, c, token, password, env), ConsumeReset(cfg, p, token, password, env), env.now)
  {
    hide Sim, ConsumeFlow, FlowUser, SetPassword, RevokeForUser, FlowsIndexed, IsOwnerEmail;
    ConsumeFlowSim(cfg, c, p, HashOf(token), PasswordReset, "email", env.now);
    var (c1, consumed) := ConsumeFlow(c, HashOf(token), PasswordReset, "email", env.now);
    var p1 := ConsumeFlow(p, HashOf(token), PasswordReset, "email", env.now).0;
    if consumed.Some? {
      FlowUserSim(c1, p1, consumed.value, env.now);
      var found := FlowUser(c1, consumed.value);
      if found.Some? {
        var id := found.value.id;
        SetPasswordSim(cfg, c1, p1, id, password, Some(false), None, env);
        RevokeForUserSim(SetPassword(cfg, c1, id, password, Some(false), None, env).0,
                         SetPassword(cfg, p1, id, password, Some(false), None, env).0, id, None, env.now);
      }
    }
  }

  // ----- Social login -----

  lemma ConsumeSocialSim(cfg: Config, c: Store, p: Store, provider: string, state: Secret, nonce: Option<Secret>,
                         env: Env)
    requires Sim(c, p, env.now) && FlowsIndexed(c.flows, c.flowsByHash)
    ensures Sims(ConsumeSocialState(cfg, c, provider, state, nonce, env),
                 ConsumeSocialState(cfg, p, provider, state, nonce, env), env.now)
  {
    hide Sim, ConsumeFlow, FlowByHash, FlowsIndexed, NonceMatches;
    LookupFlowSim(c, p, HashOf(state), env.now);
    ConsumeFlowSim(cfg, c, p, HashOf(state), OAuth, provider, env.now);
  }

  lemma IdentitySim(c: Store, p: Store, provider: string, subject: string, user: UserId, now: Time)
    requires Sim(c, p, now)
    ensures GetIdentity(c, provider, subject) == GetIdentity(p, provider, subject)
    ensures RequireUser(c, user) == RequireUser(p, user)
  {
    hide SessionsMatch, FlowsMatch, IdentityKey;
  }

  lemma SocialUserSim(cfg: Config, c: Store, p: Store, profile: SocialProfile, env: Env)
    requires Sim(c, p, env.now)
    ensures Sims(SocialUser(cfg, c, profile, env), SocialUser(cfg, p, profile, env), env.now)
  {
    hide Sim, GetIdentity, RequireUser, UserByEmail, CreateUserCall, UpsertIdentity;
    var known := GetIdentity(c, profile.provider, profile.subject);
    IdentitySim(c, p, profile.provider, profile.subject, if known.Some? then known.value.userId else 0, env.now);
    UserByEmailSim(c, p, profile.email, env.now);
    var existing := UserByEmail(c, profile.email);
    if existing.Some? {
      var i := Identity(existing.value.id, profile.provider, profile.subject, profile.email, profile.emailVerified);
      UpsertSim(c, p, i, env.now);
    } else {
      var role := if cfg.profile == SingleOwner then Owner else Role.User;
      CreateUserCallSim(cfg, c, p, profile.email, role, "", profile.emailVerified, env);
      var (c1, created) := CreateUserCall(cfg, c, profile.email, role, "", profile.emailVerified, env);
      if created.Ok? {
        var p1 := CreateUserCall(cfg, p, profile.email, role, "", profile.emailVerified, env).0;
        var i := Identity(created.value.id, profile.provider, profile.subject, profile.email, profile.emailVerified);
        UpsertSim(c1, p1, i, env.now);
      }
    }
  }

  lemma LoginSocialSim(cfg: Config, c: Store, p: Store, profile: SocialProfile, given: Option<Secret>,
                       nonce: Option<Secret>, env: Env)
    requires Sim(c, p, env.now) && FlowsIndexed(c.flows, c.flowsByHash)
    ensures Sims(LoginSocial(cfg, c, profile, given, nonce, env),
                 LoginSocial(cfg, p, profile, given, nonce, env), env.now)
  {
    hide Sim, ConsumeSocialState, SocialUser, LoginWith, FlowsIndexed;
    if given.Some? {
      ConsumeSocialSim(cfg, c, p, profile.provider, given.value, nonce, env);
    }
    var c1 := if given.Some? then ConsumeSocialState(cfg, c, profile.provider, given.value, nonce, env).0 else c;
    var p1 := if given.Some? then ConsumeSocialState(cfg, p, profile.provider, given.value, nonce, env).0 else p;
    SocialUserSim(cfg, c1, p1, profile, env);
    var (c2, user) := SocialUser(cfg, c1, profile, env);
    if user.Ok? {
      LoginWithSim(cfg, c2, SocialUser(cfg, p1, profile, env).0, user.value, profile.provider, env);
    }
  }

  // ----- Second factors -----

  lemma EnrollmentSim(cfg: Config, c: Store, p: Store, user: UserId, id: FactorId, code: string, env: Env)
    requires Sim(c, p, env.now)
    ensures Sims(BeginEnrollment(cfg, c, user, env), BeginEnrollment(cfg, p, user, env), env.now)
    ensures Sims(VerifyEnrollment(cfg, c, user, id, code, env), VerifyEnrollment(cfg, p, user, id, code, env), env.now)
  {
    hide SessionsMatch, FlowsMatch, CreateFactor, StoreSecret, UpdateFactor;
    var f := Factor(env.drawn.factor, user, Totp, Some(HashOf(env.drawn.secret)), false, None, None);
    FactorWritesSim(c, p, f, env.drawn.secret, 0, 0, env.now);
    if id in c.factors {
      FactorWritesSim(c, p, c.factors[id].(enabled := true, lastUsedAt := Some(env.now)), 0, 0, 0, env.now);
    }
  }

  lemma CounterSim(cfg: Config, c: Store, p: Store, f: Factor, code: string, now: Time)
    requires Sim(c, p, now)
    ensures CodeCounter(cfg, c, f, code, now) == CodeCounter(cfg, p, f, code, now)
  {
    hide SessionsMatch, FlowsMatch;
  }

  lemma {:induction false} VerifyTotpSim(cfg: Config, c: Store, p: Store, listed: seq<Factor>, code: string, now: Time)
    requires Sim(c, p, now)
    ensures Sims(VerifyTotpIn(cfg, c, listed, code, now), VerifyTotpIn(cfg, p, listed, code, now), now)
    decreases |listed|
  {
    hide Sim, CodeCounter, MarkCounter;
    if listed != [] {
      CounterSim(cfg, c, p, listed[0], code, now);
      if Usable(cfg, c, listed[0], code, now) {
        var counter := CodeCounter(cfg, c, listed[0], code, now).value;
        MarkCounterSim(c, p, listed[0].id, counter, now);
        VerifyTotpSim(cfg, MarkCounter(c, listed[0].id, counter, now).0, MarkCounter(p, listed[0].id, counter, now).0,
                      listed[1..], code, now);
      } else {
        VerifyTotpSim(cfg, c, p, listed[1..], code, now);
      }
    }
  }

  lemma {:induction false} ListsSim(c: Store, p: Store, factors: seq<FactorId>, codes: seq<CodeId>, user: UserId)
    requires Alike(c, p)
    ensures FactorsIn(c, factors, user) == FactorsIn(p, factors, user)
    ensures CodesIn(c, codes, user) == CodesIn(p, codes, user)
    decreases |factors| + |codes|
  {
    if factors != [] {
      ListsSim(c, p, factors[1..], codes, user);
    } else if codes != [] {
      ListsSim(c, p, [], codes[1..], user);
    }
  }

  lemma ListedSim(c: Store, p: Store, user: UserId, now: Time)
    requires Sim(c, p, now)
    ensures FactorsOf(c, user) == FactorsOf(p, user) && CodesOf(c, user) == CodesOf(p, user)
  {
    hide SessionsMatch, FlowsMatch;
    ListsSim(c, p, c.factorOrder, c.codeOrder, user);
  }

  /** The session a verification answers with is stored and unrevoked. */
  lemma VerifiedUnrevoked(cfg: Config, s: Store, token: Secret, permission: string, now: Time)
    requires Inv(cfg, s) && VerifySession(cfg, s, token, permission, now).1.Ok?
    ensures var (s', q) := VerifySession(cfg, s, token, permission, now);
      Unrevoked(s', q.value.session.id)
  {
    hide Inv, SessionByHash, Allows, Expired, Refresh;
    var at := At(now);
    Begin(cfg, s, at);
    SessionFound(cfg, s, s, HashOf(token), at);
    Refreshed(cfg, s, s, SessionByHash(s, HashOf(token)).value, now, at);
  }

  lemma RaiseAssuranceSim(c: Store, p: Store, q: Principal, now: Time)
    requires Sim(c, p, now) && Unrevoked(c, q.session.id)
    ensures Sims(RaiseAssurance(c, q, now), RaiseAssurance(p, q, now), now)
  {
    hide Sim, SetAssurance;
    RaiseSim(c, p, q.session.id, now);
  }

  lemma StepUpTotpSim(cfg: Config, c: Store, p: Store, token: Secret, code: string, env: Env)
    requires Sim(c, p, env.now) && Inv(cfg, c)
    ensures Sims(StepUpTotp(cfg, c, token, code, env), StepUpTotp(cfg, p, token, code, env), env.now)
  {
    hide Inv, Sim, VerifySession, FactorsOf, VerifyTotpIn, RaiseAssurance;
    VerifySim(cfg, c, p, token, "", env.now);
    var (c1, q) := VerifySession(cfg, c, token, "", env.now);
    var p1 := VerifySession(cfg, p, token, "", env.now).0;
    if q.Ok? {
      VerifiedUnrevoked(cfg, c, token, "", env.now);
      ListedSim(c1, p1, q.value.user.id, env.now);
      var listed := FactorsOf(c1, q.value.user.id);
      VerifyTotpSim(cfg, c1, p1, listed, code, env.now);
      VerifyTotpFrame(cfg, c1, listed, code, env.now);
      var c2, p2 := VerifyTotpIn(cfg, c1, listed, code, env.now).0, VerifyTotpIn(cfg, p1, listed, code, env.now).0;
      RaiseAssuranceSim(c2, p2, q.value, env.now);
    }
  }

  lemma StepUpRecoverySim(cfg: Config, c: Store, p: Store, token: Secret, code: Secret, env: Env)
    requires Sim(c, p, env.now) && Inv(cfg, c)
    ensures Sims(StepUpRecovery(cfg, c, token, code, env), StepUpRecovery(cfg, p, token, code, env), env.now)
  {
    hide Inv, Sim, VerifySession, CodesOf, FindCode, MarkCode, RaiseAssurance;
    VerifySim(cfg, c, p, token, "", env.now);
    var (c1, q) := VerifySession(cfg, c, token, "", env.now);
    var p1 := VerifySession(cfg, p, token, "", env.now).0;
    if q.Ok? {
      VerifiedUnrevoked(cfg, c, token, "", env.now);
      ListedSim(c1, p1, q.value.user.id, env.now);
      var found := FindCode(CodesOf(c1, q.value.user.id), HashOf(code));
      if found.Some? {
        MarkCodeSim(c1, p1, found.value.id, env.now);
        MarkCodeFrame(c1, found.value.id, env.now);
        RaiseAssuranceSim(MarkCode(c1, found.value.id, env.now).0, MarkCode(p1, found.value.id, env.now).0, q.value,
                          env.now);
      }
    }
  }

  lemma {:induction false} CreateCodesSim(c: Store, p: Store, user: UserId, codes: seq<(CodeId, Secret)>, now: Time)
    requires Sim(c, p, now)
    ensures Sim(CreateCodes(c, user, codes), CreateCodes(p, user, codes), now)
    decreases |codes|
  {
    hide Sim, CreateCode;
    if codes != [] {
      var init, last := codes[..|codes| - 1], codes[|codes| - 1];
      CreateCodesSim(c, p, user, init, now);
      CreateCodeSim(CreateCodes(c, user, init), CreateCodes(p, user, init),
                    RecoveryCode(last.0, user, HashOf(last.1), None), now);
    }
  }

  lemma GenerateCodesSim(cfg: Config, c: Store, p: Store, user: UserId, env: Env)
    requires Sim(c, p, env.now)
    ensures Sims(GenerateCodes(c, user, env), GenerateCodes(p, user, env), env.now)
  {
    hide SessionsMatch, FlowsMatch, CreateCodes;
    CreateCodesSim(c, p, user, env.drawn.codes, env.now);
  }

  // ----- Administration -----

  lemma UserReadSim(c: Store, p: Store, id: UserId, now: Time)
    requires Sim(c, p, now)
    ensures RequireUser(c, id) == RequireUser(p, id)
    ensures (forall t :: AnotherPrivileged(c, t) <==> AnotherPrivileged(p, t))
  {
    hide SessionsMatch, FlowsMatch;
    assert c.users == p.users;
  }

  /** Updating a user and revoking that user's sessions. */
  lemma UpdateAndRevokeSim(c: Store, p: Store, u: User, now: Time)
    requires Sim(c, p, now)
    ensures var (c1, a) := UpdateUser(c, u); var (p1, b) := UpdateUser(p, u);
      Sim(c1, p1, now) && a == b && Sim(RevokeForUser(c1, u.id, None, now), RevokeForUser(p1, u.id, None, now), now)
  {
    hide Sim, UpdateUser, RevokeForUser;
    UpdateUserSim(c, p, u, now);
    RevokeForUserSim(UpdateUser(c, u).0, UpdateUser(p, u).0, u.id, None, now);
  }

  lemma UpdateRoleSim(cfg: Config, c: Store, p: Store, actor: Secret, id: UserId, role: Role, env: Env)
    requires Sim(c, p, env.now) && Inv(cfg, c)
    ensures Sims(UpdateRole(cfg, c, actor, id, role, env), UpdateRole(cfg, p, actor, id, role, env), env.now)
  {
    hide Inv, Sim, VerifySession, RequireUser, AnotherPrivileged, UpdateUser, RevokeForUser;
    VerifySim(cfg, c, p, actor, USERS_WRITE, env.now);
    var c1, p1 :=
      VerifySession(cfg, c, actor, USERS_WRITE, env.now).0, VerifySession(cfg, p, actor, USERS_WRITE, env.now).0;
    UserReadSim(c1, p1, id, env.now);
    var user := RequireUser(c1, id);
    if user.Ok? {
      UpdateAndRevokeSim(c1, p1, user.value.(role := role, updatedAt := env.now), env.now);
    }
  }

  lemma SuspendSim(cfg: Config, c: Store, p: Store, actor: Secret, id: UserId, status: UserStatus, env: Env)
    requires Sim(c, p, env.now) && Inv(cfg, c)
    ensures Sims(Suspend(cfg, c, actor, id, status, env), Suspend(cfg, p, actor, id, status, env), env.now)
  {
    hide Inv, Sim, VerifySession, RequireUser, AnotherPrivileged, UpdateUser, RevokeForUser;
    var permission := if status == Banned then USERS_BAN else USERS_WRITE;
    VerifySim(cfg, c, p, actor, permission, env.now);
    var c1, p1 :=
      VerifySession(cfg, c, actor, permission, env.now).0, VerifySession(cfg, p, actor, permission, env.now).0;
    UserReadSim(c1, p1, id, env.now);
    var user := RequireUser(c1, id);
    if user.Ok? {
      UpdateAndRevokeSim(c1, p1, user.value.(status := status, updatedAt := env.now), env.now);
    }
  }

  lemma ReinstateSim(cfg: Config, c: Store, p: Store, actor: Secret, id: UserId, permission: string, env: Env)
    requires Sim(c, p, env.now) && Inv(cfg, c)
    ensures Sims(Reinstate(cfg, c, actor, id, permission, env), Reinstate(cfg, p, actor, id, permission, env), env.now)
  {
    hide Inv, Sim, VerifySession, RequireUser, UpdateUser;
    VerifySim(cfg, c, p, actor, permission, env.now);
    var c1, p1 :=
      VerifySession(cfg, c, actor, permission, env.now).0, VerifySession(cfg, p, actor, permission, env.now).0;
    UserReadSim(c1, p1, id, env.now);
    var user := RequireUser(c1, id);
    if user.Ok? {
      UpdateUserSim(c1, p1, user.value.(status := Active, updatedAt := env.now), env.now);
    }
  }

  lemma AdminPasswordSim(cfg: Config, c: Store, p: Store, actor: Secret, id: UserId, password: string, env: Env)
    requires Sim(c, p, env.now) && Inv(cfg, c)
    ensures Sims(AdminSetPassword(cfg, c, actor, id, password, env),
                 AdminSetPassword(cfg, p, actor, id, password, env), env.now)
  {
    hide Inv, Sim, VerifySession, SetPassword, RevokeForUser;
    VerifySim(cfg, c, p, actor, USERS_WRITE, env.now);
    var c1, p1 :=
      VerifySession(cfg, c, actor, USERS_WRITE, env.now).0, VerifySession(cfg, p, actor, USERS_WRITE, env.now).0;
    SetPasswordSim(cfg, c1, p1, id, password, Some(false), None, env);
    RevokeForUserSim(SetPassword(cfg, c1, id, password, Some(false), None, env).0,
                     SetPassword(cfg, p1, id, password, Some(false), None, env).0, id, None, env.now);
  }

  lemma AdminRevokeSim(cfg: Config, c: Store, p: Store, actor: Secret, id: SessionId, env: Env)
    requires Sim(c, p, env.now) && Inv(cfg, c)
    ensures Sims(AdminRevokeSession(cfg, c, actor, id, env), AdminRevokeSession(cfg, p, actor, id, env), env.now)
  {
    hide Inv, Sim, VerifySession, RevokeSession;
    VerifySim(cfg, c, p, actor, SESSIONS_REVOKE, env.now);
    RevokeSim(VerifySession(cfg, c, actor, SESSIONS_REVOKE, env.now).0,
              VerifySession(cfg, p, actor, SESSIONS_REVOKE, env.now).0, id, env.now);
  }

  // ----- Steps -----

  lemma AccountSim(cfg: Config, c: Store, p: Store, call: AccountCall, env: Env)
    requires Sim(c, p, env.now) && FlowsIndexed(c.flows, c.flowsByHash) && Unused(p, env.drawn)
    ensures Sims(AccountStep(cfg, c, call, env), AccountStep(cfg, p, call, env), env.now)
  {
    hide Sim, FlowsIndexed, Unused, CreateUserCall, BootstrapOwner, SetPassword, LoginPassword, CreateFlow, NewFlow,
      ConsumeMagicLink, RequestVerification, ConsumeVerification, RequestReset, ConsumeReset, IsOwnerEmail;
    match call
    case CreateUserWith(email, role, password, verified) =>
      CreateUserCallSim(cfg, c, p, email, role, password, verified, env);
    case Bootstrap(email, password) => BootstrapSim(cfg, c, p, email, password, env);
    case ChangePassword(user, password, revoke, except) =>
      SetPasswordSim(cfg, c, p, user, password, revoke, except, env);
    case PasswordLogin(email, password) => LoginPasswordSim(cfg, c, p, email, password, env);
    case AskMagicLink(email, _) => RequestSim(cfg, c, p, MagicLink, "email", None, cfg.normalize(email), None, env);
    case UseMagicLink(token) => ConsumeMagicLinkSim(cfg, c, p, token, env);
    case AskVerification(id, address) => RequestVerificationSim(cfg, c, p, id, address, env);
    case UseVerification(token) => ConsumeVerificationSim(cfg, c, p, token, env);
    case AskReset(email) => RequestResetSim(cfg, c, p, email, env);
    case UseReset(token, password) => ConsumeResetSim(cfg, c, p, token, password, env);
  }

  lemma SessionCallSim(cfg: Config, c: Store, p: Store, call: SessionCall, env: Env)
    requires Sim(c, p, env.now) && Inv(cfg, c) && FlowsIndexed(c.flows, c.flowsByHash) && Unused(p, env.drawn)
    requires call != CleanupExpired
    ensures Sims(SessionCallStep(cfg, c, call, env), SessionCallStep(cfg, p, call, env), env.now)
  {
    hide Sim, Inv, FlowsIndexed, Unused, CreateFlow, NewFlow, ConsumeSocialState, LoginSocial, VerifySession,
      RevokeSession, Cleanup, SessionByHash, SameSession;
    match call
    case BeginSocial(provider, _, nonce) => RequestSim(cfg, c, p, OAuth, provider, nonce, None, None, env);
    case UseSocialState(provider, state, nonce) => ConsumeSocialSim(cfg, c, p, provider, state, nonce, env);
    case SocialLogin(profile, given, nonce) => LoginSocialSim(cfg, c, p, profile, given, nonce, env);
    case Verify(token, permission) => VerifySim(cfg, c, p, token, permission, env.now);
    case LogoutWith(token) =>
      LookupSessionSim(c, p, HashOf(token), env.now);
      if SessionByHash(c, HashOf(token)).Some? {
        SameSessionId(SessionByHash(c, HashOf(token)).value, SessionByHash(p, HashOf(token)).value, env.now);
        RevokeSim(c, p, SessionByHash(c, HashOf(token)).value.id, env.now);
      }
    case Revoke(session) => RevokeSim(c, p, session, env.now);
  }

  lemma SameSessionId(x: Session, y: Session, now: Time)
    requires SameSession(x, y, now)
    ensures x.id == y.id
  {
  }

  lemma FactorCallSim(cfg: Config, c: Store, p: Store, call: FactorCall, env: Env)
    requires Sim(c, p, env.now) && Inv(cfg, c)
    ensures Sims(FactorStep(cfg, c, call, env), FactorStep(cfg, p, call, env), env.now)
  {
    hide Sim, Inv, VerifySession, BeginEnrollment, VerifyEnrollment, StepUpTotp, GenerateCodes, StepUpRecovery;
    match call
    case NeedAal2(token) => VerifySim(cfg, c, p, token, "", env.now);
    case BeginTotp(user) => EnrollmentSim(cfg, c, p, user, 0, "", env);
    case ConfirmTotp(user, factor, code) => EnrollmentSim(cfg, c, p, user, factor, code, env);
    case StepUpWithTotp(token, code) => StepUpTotpSim(cfg, c, p, token, code, env);
    case MakeCodes(user) => GenerateCodesSim(cfg, c, p, user, env);
    case StepUpWithCode(token, recovery) => StepUpRecoverySim(cfg, c, p, token, recovery, env);
  }

  lemma AdminCallSim(cfg: Config, c: Store, p: Store, call: AdminCall, env: Env)
    requires Sim(c, p, env.now) && Inv(cfg, c)
    ensures Sims(AdminStep(cfg, c, call, env), AdminStep(cfg, p, call, env), env.now)
  {
    hide Sim, Inv, UpdateRole, Suspend, Reinstate, AdminSetPassword, AdminRevokeSession;
    match call
    case SetRole(actor, user, role) => UpdateRoleSim(cfg, c, p, actor, user, role, env);
    case Ban(actor, user) => SuspendSim(cfg, c, p, actor, user, Banned, env);
    case Unban(actor, user) => ReinstateSim(cfg, c, p, actor, user, USERS_BAN, env);
    case Disable(actor, user) => SuspendSim(cfg, c, p, actor, user, Disabled, env);
    case Enable(actor, user) => ReinstateSim(cfg, c, p, actor, user, USERS_WRITE, env);
    case SetUserPassword(actor, user, password) => AdminPasswordSim(cfg, c, p, actor, user, password, env);
    case RevokeAsAdmin(actor, session) => AdminRevokeSim(cfg, c, p, actor, session, env);
  }

  predicate IsCleanup(call: Call) {
    call == OnSession(CleanupExpired)
  }

  /** Every call but cleanup answers alike on both sides and keeps them related. */
  lemma StepSim(cfg: Config, c: Store, p: Store, call: Call, env: Env)
    requires Sim(c, p, env.now) && Inv(cfg, c) && Unused(p, env.drawn) && !IsCleanup(call)
    ensures Sims(Step(cfg, c, call, env), Step(cfg, p, call, env), env.now)
  {
    hide Sim, Inv, Unused, AccountStep, SessionCallStep, FactorStep, AdminStep;
    ValidFlows(cfg, c);
    match call
    case Account(a) => AccountSim(cfg, c, p, a, env);
    case OnSession(a) => SessionCallSim(cfg, c, p, a, env);
    case Second(a) => FactorCallSim(cfg, c, p, a, env);
    case Administer(a) => AdminCallSim(cfg, c, p, a, env);
  }

  lemma ValidFlows(cfg: Config, s: Store)
    requires Inv(cfg, s)
    ensures FlowsIndexed(s.flows, s.flowsByHash)
  {
    hide UsersIndexed, SessionsIndexed, FlowsIndexed, CredentialsIndexed, IdentitiesKeyed, FactorsListed, CodesListed,
      Snapshots;
  }

  // ----- Runs -----

  /** The run without its cleanups. */
  function Plain(events: seq<Event>): seq<Event> {
    if events == [] then []
    else
      var init, e := events[..|events| - 1], events[|events| - 1];
      if IsCleanup(e.call) then Plain(init) else Plain(init) + [e]
  }

  lemma {:induction false} RunsSim(cfg: Config, s: Store, start: Time, events: seq<Event>)
    requires Inv(cfg, s) && Clocked(start, events) && FreshRun(cfg, s, Plain(events))
    ensures Sim(Run(cfg, s, events), Run(cfg, s, Plain(events)), Last(start, events)) && Inv(cfg, Run(cfg, s, events))
    decreases |events|
  {
    hide Sim, Inv, Unused, Step, MomentOf;
    if events == [] {
      SimStarts(cfg, s, start);
    } else {
      var init, e := events[..|events| - 1], events[|events| - 1];
      assert Plain(events) == if IsCleanup(e.call) then Plain(init) else Plain(init) + [e];
      if !IsCleanup(e.call) {
        PlainLast(cfg, s, Plain(init), e);
      }
      RunsSim(cfg, s, start, init);
      var c, p := Run(cfg, s, init), Run(cfg, s, Plain(init));
      SimLasts(c, p, Last(start, init), e.env.now);
      if IsCleanup(e.call) {
        CleanupStep(cfg, c, p, e.env);
      } else {
        UnusedInBoth(c, p, e.env.drawn, e.env.now);
        StepEvolves(cfg, c, e.call, e.env);
        StepSim(cfg, c, p, e.call, e.env);
      }
    }
  }

  lemma PlainLast(cfg: Config, s: Store, init: seq<Event>, e: Event)
    ensures FreshRun(cfg, s, init + [e]) <==> FreshRun(cfg, s, init) && Unused(Run(cfg, s, init), e.env.drawn)
    ensures Run(cfg, s, init + [e]) == Step(cfg, Run(cfg, s, init), e.call, e.env).0
    ensures Answer(cfg, s, init + [e]) == Step(cfg, Run(cfg, s, init), e.call, e.env).1
  {
    hide Unused, Step;
    assert (init + [e])[..|init + [e]| - 1] == init;
  }

  lemma CleanupStep(cfg: Config, c: Store, p: Store, env: Env)
    requires Sim(c, p, env.now) && Inv(cfg, c)
    ensures var c1 := Step(cfg, c, OnSession(CleanupExpired), env).0;
      Sim(c1, p, env.now) && Inv(cfg, c1)
  {
    hide Sim, Inv, Cleanup;
    ValidFlows(cfg, c);
    CleanupSim(cfg, c, p, env.now);
    var at := At(env.now);
    Begin(cfg, c, at);
    CleanupKeeps(cfg, c, c, at);
  }

  /** Cleanups inserted anywhere change no other answer, but for the message of an error. */
  lemma CleanupChangesNoAnswer(cfg: Config, s: Store, start: Time, events: seq<Event>)
    requires Inv(cfg, s) && Clocked(start, events) && FreshRun(cfg, s, Plain(events))
    requires events != [] && !IsCleanup(events[|events| - 1].call)
    ensures Plain(events) != [] && Agree(Answer(cfg, s, events), Answer(cfg, s, Plain(events)))
  {
    hide Sim, Inv, Unused, Step;
    var init, e := events[..|events| - 1], events[|events| - 1];
    PlainLast(cfg, s, Plain(init), e);
    RunsSim(cfg, s, start, init);
    var c, p := Run(cfg, s, init), Run(cfg, s, Plain(init));
    SimLasts(c, p, Last(start, init), e.env.now);
    StepSim(cfg, c, p, e.call, e.env);
  }

  // ----- The limiter is asked at the same calls -----

  /** What the limiter's key is made of. */
  datatype LimitKey =
    | ForLogin(email: string)
    | ForMagicLink(email: string)
    | ForVerification(address: string)
    | ForReset(email: string)
    | ForStepUp(user: UserId)

  /** The key a call asks the limiter about, if it comes to that. */
  function Consulted(cfg: Config, s: Store, call: Call, now: Time): Option<LimitKey> {
    match call
    case Account(PasswordLogin(email, _)) =>
      if cfg.normalize(email).Some? then Some(ForLogin(cfg.normalize(email).value)) else None
    case Account(AskMagicLink(email, safe)) =>
      if cfg.normalize(email) == None || !safe then None
      else if cfg.profile == SingleOwner && !IsOwnerEmail(cfg, cfg.normalize(email).value) then None
      else Some(ForMagicLink(cfg.normalize(email).value))
    case Account(AskVerification(id, address)) =>
      var found :=
        if id.Some? == address.Some? then None
        else if id.Some? then Lookup(s.users, id.value)
        else if cfg.normalize(address.value).Some? then UserByEmail(s, cfg.normalize(address.value).value) else None;
      if found == None || found.value.status != Active then None
      else if cfg.profile == SingleOwner && !IsOwnerEmail(cfg, found.value.email) then None
      else Some(ForVerification(found.value.email))
    case Account(AskReset(email)) =>
      if cfg.normalize(email).Some? then Some(ForReset(cfg.normalize(email).value)) else None
    case Second(StepUpWithTotp(token, _)) => StepUpKey(VerifySession(cfg, s, token, "", now).1)
    case Second(StepUpWithCode(token, _)) => StepUpKey(VerifySession(cfg, s, token, "", now).1)
    case _ => None
  }

  function StepUpKey(p: Res<Principal>): Option<LimitKey> {
    if p.Ok? then Some(ForStepUp(p.value.user.id)) else None
  }

  /** The limiter has a say in these calls only. */
  predicate MayAsk(call: Call) {
    match call
    case Account(a) => a.PasswordLogin? || a.AskMagicLink? || a.AskVerification? || a.AskReset?
    case Second(a) => a.StepUpWithTotp? || a.StepUpWithCode?
    case _ => false
  }

  lemma LoginIgnores(cfg: Config, s: Store, u: User, provider: string, env: Env, b: bool)
    ensures LoginWith(cfg, s, u, provider, env.(allowed := b)) == LoginWith(cfg, s, u, provider, env)
  {
    hide CreateSession, UpdateUser, ProfileObjection, PermissionsFor, IsOwnerEmail;
  }

  lemma PasswordIgnores(cfg: Config, s: Store, id: UserId, password: string, revoke: Option<bool>,
                        except: Option<SessionId>, env: Env, b: bool)
    ensures SetPassword(cfg, s, id, password, revoke, except, env.(allowed := b))
      == SetPassword(cfg, s, id, password, revoke, except, env)
  {
    hide PasswordCredential, UpsertCredential, RevokeForUser;
  }

  lemma NewUserIgnores(cfg: Config, s: Store, email: string, role: Role, password: string, verified: bool, env: Env,
                       b: bool)
    ensures CreateUserCall(cfg, s, email, role, password, verified, env.(allowed := b))
      == CreateUserCall(cfg, s, email, role, password, verified, env)
  {
    hide CreateUser, UpsertIdentity, SetPassword, IsOwnerEmail;
    if cfg.normalize(email).Some? {
      var u := NewUser(cfg, cfg.normalize(email).value, role, verified, env);
      var s2 := UpsertIdentity(CreateUser(s, u).0, Identity(u.id, "email", u.email, u.email, u.verified));
      PasswordIgnores(cfg, s2, u.id, password, Some(false), None, env, b);
    }
  }

  lemma BootstrapIgnores(cfg: Config, s: Store, email: string, password: string, env: Env, b: bool)
    ensures BootstrapOwner(cfg, s, email, password, env.(allowed := b)) == BootstrapOwner(cfg, s, email, password, env)
  {
    hide UserByEmail, SetPassword, CreateUserCall, IsOwnerEmail;
    if cfg.normalize(email).Some? {
      var normal := cfg.normalize(email).value;
      NewUserIgnores(cfg, s, normal, Owner, password, true, env, b);
      if UserByEmail(s, normal).Some? {
        PasswordIgnores(cfg, s, UserByEmail(s, normal).value.id, password, Some(false), None, env, b);
      }
    }
  }

  lemma MagicLinkIgnores(cfg: Config, s: Store, token: Secret, env: Env, b: bool)
    ensures ConsumeMagicLink(cfg, s, token, env.(allowed := b)) == ConsumeMagicLink(cfg, s, token, env)
  {
    hide ConsumeFlow, UserByEmail, LoginWith, CreateUserCall;
    var (s1, consumed) := ConsumeFlow(s, HashOf(token), MagicLink, "email", env.now);
    if consumed.Some? && consumed.value.email.Some? {
      var email := consumed.value.email.value;
      var role := if cfg.profile == SingleOwner then Owner else Role.User;
      NewUserIgnores(cfg, s1, email, role, "", true, env, b);
      if UserByEmail(s1, email).Some? {
        LoginIgnores(cfg, s1, UserByEmail(s1, email).value, "email", env, b);
      }
      var (s2, created) := CreateUserCall(cfg, s1, email, role, "", true, env);
      if created.Ok? {
        LoginIgnores(cfg, s2, created.value, "email", env, b);
      }
    }
  }

  lemma ResetIgnores(cfg: Config, s: Store, token: Secret, password: string, env: Env, b: bool)
    ensures ConsumeReset(cfg, s, token, password, env.(allowed := b)) == ConsumeReset(cfg, s, token, password, env)
  {
    hide ConsumeFlow, FlowUser, SetPassword, RevokeForUser, IsOwnerEmail;
    var (s1, consumed) := ConsumeFlow(s, HashOf(token), PasswordReset, "email", env.now);
    if consumed.Some? && FlowUser(s1, consumed.value).Some? {
      PasswordIgnores(cfg, s1, FlowUser(s1, consumed.value).value.id, password, Some(false), None, env, b);
    }
  }

  lemma VerificationIgnores(cfg: Config, s: Store, token: Secret, env: Env, b: bool)
    ensures ConsumeVerification(cfg, s, token, env.(allowed := b)) == ConsumeVerification(cfg, s, token, env)
  {
    hide ConsumeFlow, FlowUser, UpdateUser, UpsertIdentity, GetIdentity;
  }

  lemma SocialStateIgnores(cfg: Config, s: Store, provider: string, state: Secret, nonce: Option<Secret>, env: Env,
                           b: bool)
    ensures ConsumeSocialState(cfg, s, provider, state, nonce, env.(allowed := b))
      == ConsumeSocialState(cfg, s, provider, state, nonce, env)
  {
    hide ConsumeFlow, FlowByHash, Consumable, NonceMatches;
  }

  lemma BeginSocialIgnores(cfg: Config, s: Store, provider: string, safe: bool, nonce: Option<Secret>, env: Env,
                           b: bool)
    ensures BeginSocialLogin(cfg, s, provider, safe, nonce, env.(allowed := b))
      == BeginSocialLogin(cfg, s, provider, safe, nonce, env)
  {
    hide CreateFlow;
  }

  lemma SocialUserIgnores(cfg: Config, s: Store, p: SocialProfile, env: Env, b: bool)
    ensures SocialUser(cfg, s, p, env.(allowed := b)) == SocialUser(cfg, s, p, env)
  {
    hide GetIdentity, UserByEmail, CreateUserCall, UpsertIdentity, RequireUser;
    NewUserIgnores(cfg, s, p.email, if cfg.profile == SingleOwner then Owner else Role.User, "",
                   p.emailVerified, env, b);
  }

  lemma SocialLoginIgnores(cfg: Config, s: Store, p: SocialProfile, given: Option<Secret>, nonce: Option<Secret>,
                           env: Env, b: bool)
    ensures LoginSocial(cfg, s, p, given, nonce, env.(allowed := b)) == LoginSocial(cfg, s, p, given, nonce, env)
  {
    hide ConsumeSocialState, SocialUser, LoginWith;
    if given.Some? {
      SocialStateIgnores(cfg, s, p.provider, given.value, nonce, env, b);
    }
    var s1 := if given.Some? then ConsumeSocialState(cfg, s, p.provider, given.value, nonce, env).0 else s;
    SocialUserIgnores(cfg, s1, p, env, b);
    var (s2, user) := SocialUser(cfg, s1, p, env);
    if user.Ok? {
      LoginIgnores(cfg, s2, user.value, p.provider, env, b);
    }
  }

  lemma EnrollmentIgnores(cfg: Config, s: Store, user: UserId, id: FactorId, code: string, env: Env, b: bool)
    ensures BeginEnrollment(cfg, s, user, env.(allowed := b)) == BeginEnrollment(cfg, s, user, env)
    ensures VerifyEnrollment(cfg, s, user, id, code, env.(allowed := b))
      == VerifyEnrollment(cfg, s, user, id, code, env)
  {
    hide CodeCounter, CreateFactor, StoreSecret, UpdateFactor;
  }

  lemma AdminIgnores(cfg: Config, s: Store, call: AdminCall, env: Env, b: bool)
    ensures AdminStep(cfg, s, call, env.(allowed := b)) == AdminStep(cfg, s, call, env)
  {
    hide VerifySession, UpdateUser, RevokeForUser, SetPassword, RevokeSession, AnotherPrivileged;
    if call.SetUserPassword? {
      PasswordIgnores(cfg, VerifySession(cfg, s, call.actor, USERS_WRITE, env.now).0, call.user, call.password,
                      Some(false), None, env, b);
    }
  }

  lemma OthersIgnore(cfg: Config, s: Store, call: Call, env: Env, b: bool)
    requires !MayAsk(call)
    ensures Step(cfg, s, call, env.(allowed := b)) == Step(cfg, s, call, env)
  {
    hide AdminStep, CreateUserCall, BootstrapOwner, SetPassword, ConsumeMagicLink, ConsumeVerification, ConsumeReset,
      BeginSocialLogin, ConsumeSocialState, LoginSocial, VerifySession, Logout, RevokeSession, Cleanup, RequireAal2,
      BeginEnrollment, VerifyEnrollment, CreateCodes;
    match call
    case Account(a) =>
      match a {
        case CreateUserWith(email, role, password, verified) =>
          NewUserIgnores(cfg, s, email, role, password, verified, env, b);
        case Bootstrap(email, password) => BootstrapIgnores(cfg, s, email, password, env, b);
        case ChangePassword(user, password, revoke, except) =>
          PasswordIgnores(cfg, s, user, password, revoke, except, env, b);
        case UseMagicLink(token) => MagicLinkIgnores(cfg, s, token, env, b);
        case UseVerification(token) => VerificationIgnores(cfg, s, token, env, b);
        case UseReset(token, password) => ResetIgnores(cfg, s, token, password, env, b);
      }
    case OnSession(a) =>
      match a {
        case BeginSocial(provider, safe, nonce) => BeginSocialIgnores(cfg, s, provider, safe, nonce, env, b);
        case UseSocialState(provider, state, nonce) => SocialStateIgnores(cfg, s, provider, state, nonce, env, b);
        case SocialLogin(profile, given, nonce) => SocialLoginIgnores(cfg, s, profile, given, nonce, env, b);
        case _ =>
      }
    case Second(a) =>
      if a.BeginTotp? {
        EnrollmentIgnores(cfg, s, a.user, 0, "", env, b);
      } else if a.ConfirmTotp? {
        EnrollmentIgnores(cfg, s, a.user, a.factor, a.code, env, b);
      }
    case Administer(a) => AdminIgnores(cfg, s, a, env, b);
  }

  lemma AskersDecide(cfg: Config, s: Store, call: Call, env: Env, b: bool)
    requires MayAsk(call)
    ensures Consulted(cfg, s, call, env.now).Some? ==>
      Step(cfg, s, call, env.(allowed := false)).1 == Err(AuthenticationFailed(RateLimited))
    ensures Consulted(cfg, s, call, env.now) == None ==>
      Step(cfg, s, call, env.(allowed := b)) == Step(cfg, s, call, env)
  {
    hide VerifySession, UserByEmail, FinishLogin, CreateFlow, NewFlow, VerifyTotpIn, FactorsOf, FindCode, CodesOf,
      MarkCode, RaiseAssurance, ProfileObjection, PasswordCredential, IsOwnerEmail;
  }

  /** A refusal of the limiter decides exactly the calls that ask it. */
  lemma ConsultedDecides(cfg: Config, s: Store, call: Call, env: Env, b: bool)
    ensures Consulted(cfg, s, call, env.now).Some? ==>
      Step(cfg, s, call, env.(allowed := false)).1 == Err(AuthenticationFailed(RateLimited))
    ensures Consulted(cfg, s, call, env.now) == None ==>
      Step(cfg, s, call, env.(allowed := b)) == Step(cfg, s, call, env)
  {
    hide Step, VerifySession;
    if MayAsk(call) {
      AskersDecide(cfg, s, call, env, b);
    } else {
      OthersIgnore(cfg, s, call, env, b);
    }
  }

  lemma ConsultedSim(cfg: Config, c: Store, p: Store, call: Call, now: Time)
    requires Sim(c, p, now) && Inv(cfg, c)
    ensures Consulted(cfg, c, call, now) == Consulted(cfg, p, call, now)
  {
    hide VerifySession, IsOwnerEmail, EmailKey, SessionsMatch, FlowsMatch, Inv;
    if call.Second? && (call.factorCall.StepUpWithTotp? || call.factorCall.StepUpWithCode?) {
      VerifySim(cfg, c, p, call.factorCall.token, "", now);
    }
  }

  /** With and without the cleanups the limiter is asked at the same calls with the same keys, so
      that it gives both runs one verdict. */
  lemma CleanupChangesNoLimit(cfg: Config, s: Store, start: Time, events: seq<Event>, call: Call, now: Time)
    requires Inv(cfg, s) && Clocked(start, events) && FreshRun(cfg, s, Plain(events)) && Last(start, events) <= now
    ensures Consulted(cfg, Run(cfg, s, events), call, now) == Consulted(cfg, Run(cfg, s, Plain(events)), call, now)
  {
    hide Sim, Inv, Run, Plain, FreshRun, Clocked, Consulted;
    RunsSim(cfg, s, start, events);
    SimLasts(Run(cfg, s, events), Run(cfg, s, Plain(events)), Last(start, events), now);
    ConsultedSim(cfg, Run(cfg, s, events), Run(cfg, s, Plain(events)), call, now);
  }
}

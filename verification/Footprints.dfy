/** What each operation leaves alone among users, sessions, second factors, flows and codes. */
module Footprints {
  import opened Prelude
  import opened Permissions
  import opened AuthModels
  import opened AuthStore
  import opened AuthCalls
  import opened AuthRuns
  import opened AuthSafety

  predicate SameUsers(a: Store, b: Store) {
    b.users == a.users
  }

  predicate SameSessions(a: Store, b: Store) {
    b.sessions == a.sessions && b.sessionsByHash == a.sessionsByHash
  }

  predicate SameFactors(a: Store, b: Store) {
    b.factors == a.factors && b.factorOrder == a.factorOrder && b.vault == a.vault
  }

  predicate SameRecords(a: Store, b: Store) {
    SameUsers(a, b) && SameSessions(a, b) && SameFactors(a, b)
  }

  /** The flows and recovery codes stay. */
  predicate Untouched(a: Store, b: Store) {
    b.flows == a.flows && b.codes == a.codes
  }

  // ----- Storage operations -----

  lemma CreateUserLeaves(s: Store, u: User)
    ensures SameSessions(s, CreateUser(s, u).0) && SameFactors(s, CreateUser(s, u).0)
    ensures Untouched(s, CreateUser(s, u).0)
  {
    hide EmailKey;
    if EmailKey(u.email) in s.usersByEmail {
    }
  }

  lemma UpdateUserLeaves(s: Store, u: User)
    ensures SameSessions(s, UpdateUser(s, u).0) && SameFactors(s, UpdateUser(s, u).0)
    ensures Untouched(s, UpdateUser(s, u).0)
    ensures SameUsers(s.(users := s.users[u.id := u]), UpdateUser(s, u).0) || u.id !in s.users
  {
    hide EmailKey;
    if u.id in s.users {
    }
  }

  lemma IdentityLeaves(s: Store, i: Identity)
    ensures SameRecords(s, UpsertIdentity(s, i)) && Untouched(s, UpsertIdentity(s, i))
  {
    hide IdentityKey;
    if i.subject == "" {
    }
  }

  lemma CredentialLeaves(s: Store, c: Credential)
    ensures SameRecords(s, UpsertCredential(s, c)) && Untouched(s, UpsertCredential(s, c))
  {
  }

  lemma CreateFlowLeaves(s: Store, f: Flow)
    ensures SameRecords(s, CreateFlow(s, f).0)
  {
    if f.stateHash in s.flowsByHash {
    }
  }

  lemma ConsumeFlowLeaves(s: Store, h: Hash, kind: FlowKind, provider: string, now: Time)
    ensures SameRecords(s, ConsumeFlow(s, h, kind, provider, now).0)
  {
    hide FlowByHash, Consumable;
    if FlowByHash(s, h).Some? && Consumable(FlowByHash(s, h).value, kind, provider, now) {
    }
  }

  lemma CreateSessionLeaves(s: Store, x: Session)
    ensures SameUsers(s, CreateSession(s, x).0) && SameFactors(s, CreateSession(s, x).0)
    ensures Untouched(s, CreateSession(s, x).0)
  {
    if x.tokenHash in s.sessionsByHash {
    }
  }

  lemma RaiseLeaves(s: Store, p: Principal, now: Time)
    ensures SameUsers(s, RaiseAssurance(s, p, now).0) && SameFactors(s, RaiseAssurance(s, p, now).0)
    ensures Untouched(s, RaiseAssurance(s, p, now).0)
  {
    if Unrevoked(s, p.session.id) {
    }
  }

  lemma RevokeLeaves(s: Store, id: SessionId, now: Time)
    ensures SameUsers(s, RevokeSession(s, id, now)) && SameFactors(s, RevokeSession(s, id, now))
    ensures Untouched(s, RevokeSession(s, id, now))
  {
    if Unrevoked(s, id) {
    }
  }

  lemma RevokeForUserLeaves(s: Store, user: UserId, except: Option<SessionId>, now: Time)
    ensures SameUsers(s, RevokeForUser(s, user, except, now)) && SameFactors(s, RevokeForUser(s, user, except, now))
    ensures Untouched(s, RevokeForUser(s, user, except, now))
  {
  }

  lemma CleanupLeaves(s: Store, now: Time)
    ensures SameUsers(s, Cleanup(s, now)) && SameFactors(s, Cleanup(s, now))
  {
  }

  lemma MarkCodeLeaves(s: Store, id: CodeId, now: Time)
    ensures SameRecords(s, MarkCode(s, id, now).0) && MarkCode(s, id, now).0.flows == s.flows
  {
    if id in s.codes && s.codes[id].usedAt.Some? {
    }
  }

  lemma {:induction false} CreateCodesLeaves(s: Store, user: UserId, codes: seq<(CodeId, Secret)>)
    ensures SameRecords(s, CreateCodes(s, user, codes)) && CreateCodes(s, user, codes).flows == s.flows
    decreases |codes|
  {
    if codes != [] {
      CreateCodesLeaves(s, user, codes[..|codes| - 1]);
    }
  }

  lemma MarkCounterLeaves(s: Store, id: FactorId, counter: int, now: Time)
    ensures SameUsers(s, MarkCounter(s, id, counter, now).0) && SameSessions(s, MarkCounter(s, id, counter, now).0)
    ensures Untouched(s, MarkCounter(s, id, counter, now).0)
  {
    if id in s.factors && Replayed(s.factors[id], counter) {
    }
  }

  lemma {:induction false} VerifyTotpLeaves(cfg: Config, s: Store, listed: seq<Factor>, code: string, now: Time)
    ensures var s' := VerifyTotpIn(cfg, s, listed, code, now).0;
      SameUsers(s, s') && SameSessions(s, s') && Untouched(s, s')
    decreases |listed|
  {
    hide CodeCounter, MarkCounter, Replayed;
    if listed != [] {
      VerifyTotpLeaves(cfg, s, listed[1..], code, now);
      if Usable(cfg, s, listed[0], code, now) {
        var counter := CodeCounter(cfg, s, listed[0], code, now).value;
        MarkCounterLeaves(s, listed[0].id, counter, now);
        VerifyTotpLeaves(cfg, MarkCounter(s, listed[0].id, counter, now).0, listed[1..], code, now);
      }
    }
  }

  lemma BeginEnrollmentLeaves(cfg: Config, s: Store, user: UserId, env: Env)
    ensures var s' := BeginEnrollment(cfg, s, user, env).0;
      SameUsers(s, s') && SameSessions(s, s') && Untouched(s, s')
  {
    if user in s.users && cfg.vaultAccepted {
    }
  }

  lemma EnrollmentLeaves(cfg: Config, s: Store, user: UserId, id: FactorId, code: string, env: Env)
    ensures var s' := VerifyEnrollment(cfg, s, user, id, code, env).0;
      SameUsers(s, s') && SameSessions(s, s') && Untouched(s, s')
  {
    hide CodeCounter, UpdateFactor;
    if id in s.factors {
      UpdateFactorLeaves(s, s.factors[id].(enabled := true, lastUsedAt := Some(env.now)));
    }
  }

  lemma UpdateFactorLeaves(s: Store, f: Factor)
    ensures SameUsers(s, UpdateFactor(s, f).0) && SameSessions(s, UpdateFactor(s, f).0)
    ensures Untouched(s, UpdateFactor(s, f).0)
  {
    if f.id in s.factors {
    }
  }

  // ----- Parts of calls -----

  lemma VerifyLeaves(cfg: Config, s: Store, token: Secret, permission: string, now: Time)
    ensures var s' := VerifySession(cfg, s, token, permission, now).0;
      SameUsers(s, s') && SameFactors(s, s') && Untouched(s, s')
  {
    hide SessionByHash, Expired, Allows, Refresh;
    var found := SessionByHash(s, HashOf(token));
    if found.Some? {
      RefreshFrame(cfg, s, found.value, now);
    }
  }

  lemma LoginLeaves(cfg: Config, s: Store, u: User, provider: string, env: Env)
    ensures var s' := FinishLogin(cfg, s, u, provider, env).0; SameFactors(s, s') && Untouched(s, s')
    ensures var s' := LoginWith(cfg, s, u, provider, env).0; SameFactors(s, s') && Untouched(s, s')
  {
    hide CreateSession, UpdateUser, NewSession, ProfileObjection, CreateUser, UpsertIdentity, UpsertCredential;
    var x := NewSession(cfg, u, provider, env);
    CreateSessionLeaves(s, x);
    UpdateUserLeaves(CreateSession(s, x).0, u.(lastLoginAt := Some(env.now), updatedAt := env.now));
  }

  lemma SetPasswordLeaves(cfg: Config, s: Store, id: UserId, password: string, revoke: Option<bool>,
                          except: Option<SessionId>, env: Env)
    ensures var s' := SetPassword(cfg, s, id, password, revoke, except, env).0;
      && SameUsers(s, s') && SameFactors(s, s') && Untouched(s, s')
      && (revoke == Some(false) ==> SameSessions(s, s'))
  {
    hide PasswordCredential, UpsertCredential, RevokeForUser, HashPassword;
    AnyCredentialLeaves(s, id, except, env.now);
  }

  lemma AnyCredentialLeaves(s: Store, user: UserId, except: Option<SessionId>, now: Time)
    ensures forall c :: SameRecords(s, UpsertCredential(s, c)) && Untouched(s, UpsertCredential(s, c))
    ensures forall c :: SameUsers(s, RevokeForUser(UpsertCredential(s, c), user, except, now))
    ensures forall c :: SameFactors(s, RevokeForUser(UpsertCredential(s, c), user, except, now))
    ensures forall c :: Untouched(s, RevokeForUser(UpsertCredential(s, c), user, except, now))
  {
    hide UpsertCredential, RevokeForUser;
    forall c
      ensures SameRecords(s, UpsertCredential(s, c)) && Untouched(s, UpsertCredential(s, c))
      ensures SameUsers(s, RevokeForUser(UpsertCredential(s, c), user, except, now))
      ensures SameFactors(s, RevokeForUser(UpsertCredential(s, c), user, except, now))
      ensures Untouched(s, RevokeForUser(UpsertCredential(s, c), user, except, now))
    {
      CredentialLeaves(s, c);
      RevokeForUserLeaves(UpsertCredential(s, c), user, except, now);
    }
  }

  lemma StoreUserLeaves(cfg: Config, s: Store, u: User, password: string, env: Env)
    ensures var s' := StoreUser(cfg, s, u, password, env).0;
      SameSessions(s, s') && SameFactors(s, s') && Untouched(s, s') && SameUsers(CreateUser(s, u).0, s')
  {
    hide CreateUser, UpdateUser, UpsertIdentity, UpsertCredential, SetPassword;
    var i := Identity(u.id, "email", u.email, u.email, u.verified);
    CreateUserLeaves(s, u);
    var s1 := CreateUser(s, u).0;
    IdentityLeaves(s1, i);
    SetPasswordLeaves(cfg, UpsertIdentity(s1, i), u.id, password, Some(false), None, env);
  }

  lemma CreateUserCallLeaves(cfg: Config, s: Store, email: string, role: Role, password: string, verified: bool,
                             env: Env)
    ensures var s' := CreateUserCall(cfg, s, email, role, password, verified, env).0;
      SameSessions(s, s') && SameFactors(s, s') && Untouched(s, s')
  {
    hide StoreUser, IsOwnerEmail;
    if cfg.normalize(email).Some? {
      StoreUserLeaves(cfg, s, NewUser(cfg, cfg.normalize(email).value, role, verified, env), password, env);
    }
  }

  lemma BootstrapLeaves(cfg: Config, s: Store, email: string, password: string, env: Env)
    ensures var s' := BootstrapOwner(cfg, s, email, password, env).0;
      SameSessions(s, s') && SameFactors(s, s') && Untouched(s, s')
  {
    hide UserByEmail, SetPassword, CreateUserCall, IsOwnerEmail;
    if cfg.normalize(email).Some? {
      var normal := cfg.normalize(email).value;
      CreateUserCallLeaves(cfg, s, normal, Owner, password, true, env);
      if UserByEmail(s, normal).Some? {
        SetPasswordLeaves(cfg, s, UserByEmail(s, normal).value.id, password, Some(false), None, env);
      }
    }
  }

  lemma RequestsLeave(cfg: Config, s: Store, email: string, returnToSafe: bool, id: Option<UserId>,
                      address: Option<string>, env: Env)
    ensures SameRecords(s, RequestMagicLink(cfg, s, email, returnToSafe, env).0)
    ensures SameRecords(s, RequestVerification(cfg, s, id, address, env).0)
    ensures SameRecords(s, RequestReset(cfg, s, email, env).0)
  {
    hide CreateFlow, NewFlow, UserByEmail, IsOwnerEmail, SameRecords;
    AnyFlowLeaves(s);
    Unchanged(s);
  }

  lemma AnyFlowLeaves(s: Store)
    ensures forall f :: SameRecords(s, CreateFlow(s, f).0)
  {
    hide SameRecords, CreateFlow;
    forall f ensures SameRecords(s, CreateFlow(s, f).0) {
      CreateFlowLeaves(s, f);
    }
  }

  lemma Unchanged(s: Store)
    ensures SameRecords(s, s)
  {
  }

  lemma BeginSocialLeaves(cfg: Config, s: Store, provider: string, safe: bool, nonce: Option<Secret>, env: Env)
    ensures SameRecords(s, BeginSocialLogin(cfg, s, provider, safe, nonce, env).0)
  {
    hide CreateFlow, NewFlow, SameRecords;
    AnyFlowLeaves(s);
    Unchanged(s);
  }

  lemma SocialStateLeaves(cfg: Config, s: Store, provider: string, state: Secret, nonce: Option<Secret>, env: Env)
    ensures SameRecords(s, ConsumeSocialState(cfg, s, provider, state, nonce, env).0)
  {
    hide ConsumeFlow, FlowByHash, Consumable, NonceMatches, SameRecords;
    ConsumeFlowLeaves(s, HashOf(state), OAuth, provider, env.now);
    Unchanged(s);
  }

  lemma SocialUserLeaves(cfg: Config, s: Store, p: SocialProfile, env: Env)
    ensures var s' := SocialUser(cfg, s, p, env).0; SameSessions(s, s') && SameFactors(s, s') && Untouched(s, s')
  {
    hide CreateUserCall, UpsertIdentity, GetIdentity, UserByEmail, CreateUser, UpdateUser, UpsertCredential;
    var role := if cfg.profile == SingleOwner then Owner else Role.User;
    var created := CreateUserCall(cfg, s, p.email, role, "", p.emailVerified, env).0;
    CreateUserCallLeaves(cfg, s, p.email, role, "", p.emailVerified, env);
    ProfileLeaves(s, p);
    ProfileLeaves(created, p);
  }

  lemma ProfileLeaves(s: Store, p: SocialProfile)
    ensures forall id ::
      var s' := UpsertIdentity(s, Identity(id, p.provider, p.subject, p.email, p.emailVerified));
      SameRecords(s, s') && Untouched(s, s')
  {
    hide UpsertIdentity, SameRecords;
    forall id
      ensures var s' := UpsertIdentity(s, Identity(id, p.provider, p.subject, p.email, p.emailVerified));
        SameRecords(s, s') && Untouched(s, s')
    {
      IdentityLeaves(s, Identity(id, p.provider, p.subject, p.email, p.emailVerified));
    }
  }

  // ----- Calls -----

  lemma PasswordLoginLeaves(cfg: Config, s: Store, email: string, password: string, env: Env)
    ensures var s' := LoginPassword(cfg, s, email, password, env).0; SameFactors(s, s') && Untouched(s, s')
  {
    hide UserByEmail, ProfileObjection, PasswordCredential, FinishLogin, LoginWith;
    if cfg.normalize(email).Some? && UserByEmail(s, cfg.normalize(email).value).Some? {
      LoginLeaves(cfg, s, UserByEmail(s, cfg.normalize(email).value).value, "email", env);
    }
  }

  lemma VerificationLeaves(cfg: Config, s: Store, token: Secret, env: Env)
    ensures var s' := ConsumeVerification(cfg, s, token, env).0; SameSessions(s, s') && SameFactors(s, s')
  {
    hide ConsumeFlow, FlowUser, UpdateUser, UpsertIdentity, GetIdentity;
    ConsumeFlowLeaves(s, HashOf(token), EmailVerification, "email", env.now);
    var (s1, consumed) := ConsumeFlow(s, HashOf(token), EmailVerification, "email", env.now);
    if consumed.Some? && FlowUser(s1, consumed.value).Some? {
      var u := FlowUser(s1, consumed.value).value.(verified := true, updatedAt := env.now);
      UpdateUserLeaves(s1, u);
      var s2 := UpdateUser(s1, u).0;
      var found := GetIdentity(s2, "email", u.email);
      if found.Some? {
        IdentityLeaves(s2, found.value.(verified := true));
      }
    }
  }

  lemma TotpStepUpLeaves(cfg: Config, s: Store, token: Secret, code: string, env: Env)
    ensures var s' := StepUpTotp(cfg, s, token, code, env).0; SameUsers(s, s') && Untouched(s, s')
  {
    hide VerifySession, VerifyTotpIn, FactorsOf, RaiseAssurance;
    VerifyLeaves(cfg, s, token, "", env.now);
    var (s1, p) := VerifySession(cfg, s, token, "", env.now);
    if p.Ok? {
      var listed := FactorsOf(s1, p.value.user.id);
      VerifyTotpLeaves(cfg, s1, listed, code, env.now);
      RaiseLeaves(VerifyTotpIn(cfg, s1, listed, code, env.now).0, p.value, env.now);
    }
  }

  lemma RecoveryStepUpLeaves(cfg: Config, s: Store, token: Secret, code: Secret, env: Env)
    ensures var s' := StepUpRecovery(cfg, s, token, code, env).0;
      SameUsers(s, s') && SameFactors(s, s') && s'.flows == s.flows
  {
    hide VerifySession, FindCode, CodesOf, MarkCode, RaiseAssurance;
    VerifyLeaves(cfg, s, token, "", env.now);
    var (s1, p) := VerifySession(cfg, s, token, "", env.now);
    if p.Ok? {
      var found := FindCode(CodesOf(s1, p.value.user.id), HashOf(code));
      if found.Some? {
        MarkCodeLeaves(s1, found.value.id, env.now);
        RaiseLeaves(MarkCode(s1, found.value.id, env.now).0, p.value, env.now);
      }
    }
  }

  lemma AdminCallLeaves(cfg: Config, s: Store, call: AdminCall, env: Env)
    ensures var s' := AdminStep(cfg, s, call, env).0; SameFactors(s, s') && Untouched(s, s')
  {
    hide VerifySession, UpdateUser, RevokeForUser, SetPassword, RevokeSession, AnotherPrivileged, Privileged;
    var p := Presented(Administer(call)).value;
    VerifyLeaves(cfg, s, p.0, p.1, env.now);
    var s1 := VerifySession(cfg, s, p.0, p.1, env.now).0;
    match call
    case SetRole(_, user, role) =>
      if user in s1.users {
        WriteLeaves(s1, s1.users[user].(role := role, updatedAt := env.now), env.now);
      }
    case Ban(_, user) => StatusLeaves(s1, user, Banned, env.now);
    case Disable(_, user) => StatusLeaves(s1, user, Disabled, env.now);
    case Unban(_, user) => StatusLeaves(s1, user, Active, env.now);
    case Enable(_, user) => StatusLeaves(s1, user, Active, env.now);
    case SetUserPassword(_, user, password) =>
      SetPasswordLeaves(cfg, s1, user, password, Some(false), None, env);
      RevokeForUserLeaves(SetPassword(cfg, s1, user, password, Some(false), None, env).0, user, None, env.now);
    case RevokeAsAdmin(_, session) => RevokeLeaves(s1, session, env.now);
  }

  lemma WriteLeaves(s: Store, u: User, now: Time)
    ensures SameFactors(s, UpdateUser(s, u).0) && Untouched(s, UpdateUser(s, u).0)
    ensures SameFactors(s, RevokeForUser(UpdateUser(s, u).0, u.id, None, now))
    ensures Untouched(s, RevokeForUser(UpdateUser(s, u).0, u.id, None, now))
  {
    hide UpdateUser, RevokeForUser;
    UpdateUserLeaves(s, u);
    RevokeForUserLeaves(UpdateUser(s, u).0, u.id, None, now);
  }

  lemma StatusLeaves(s: Store, id: UserId, status: UserStatus, now: Time)
    ensures id in s.users ==>
      var u := s.users[id].(status := status, updatedAt := now);
      && SameFactors(s, UpdateUser(s, u).0) && Untouched(s, UpdateUser(s, u).0)
      && SameFactors(s, RevokeForUser(UpdateUser(s, u).0, u.id, None, now))
      && Untouched(s, RevokeForUser(UpdateUser(s, u).0, u.id, None, now))
  {
    hide UpdateUser, RevokeForUser;
    if id in s.users {
      WriteLeaves(s, s.users[id].(status := status, updatedAt := now), now);
    }
  }
}

/** Flows and recovery codes are used up for good: what a call may do to them, and that a consumed
    flow or a spent code is refused after every later run. */
module OneTime {
  import opened Prelude
  import opened Permissions
  import opened AuthModels
  import opened AuthStore
  import opened AuthCalls
  import opened AuthRuns
  import opened AuthInvariants
  import opened AuthSafety
  import opened AuthGuarantees
  import opened AuthMeaning
  import opened Footprints
  import SessionLifetimes

  // ----- What a call may do to flows and codes -----

  predicate FlowAges(f: Flow, g: Flow) {
    g.id == f.id && g.stateHash == f.stateHash && (f.consumedAt.Some? ==> g.consumedAt.Some?)
  }

  /** Flows are forgotten, consumed, or created under the token drawn. */
  ghost predicate FlowsAge(a: map<FlowId, Flow>, b: map<FlowId, Flow>, drawn: Hash) {
    forall id :: id in b ==> b[id].stateHash == drawn || (id in a && FlowAges(a[id], b[id]))
  }

  predicate CodeAges(c: RecoveryCode, d: RecoveryCode) {
    d.userId == c.userId && d.codeHash == c.codeHash && (c.usedAt.Some? ==> d.usedAt.Some?)
  }

  predicate Draws(codes: seq<(CodeId, Secret)>, h: Hash) {
    exists i :: 0 <= i < |codes| && HashOf(codes[i].1) == h
  }

  /** Codes are used, or created from the secrets drawn. */
  ghost predicate CodesAge(a: map<CodeId, RecoveryCode>, b: map<CodeId, RecoveryCode>, drawn: seq<(CodeId, Secret)>) {
    forall id :: id in b ==> Draws(drawn, b[id].codeHash) || (id in a && CodeAges(a[id], b[id]))
  }

  ghost predicate Ages(s: Store, s': Store, n: New) {
    FlowsAge(s.flows, s'.flows, HashOf(n.token)) && CodesAge(s.codes, s'.codes, n.codes)
  }

  lemma UntouchedAges(s: Store, s1: Store, s': Store, n: New)
    requires Ages(s, s1, n) && Untouched(s1, s')
    ensures Ages(s, s', n)
  {
    hide FlowsAge, CodesAge;
  }

  lemma AgesItself(s: Store, n: New)
    ensures Ages(s, s, n)
  {
  }

  // ----- Operations on flows and codes -----

  lemma CreateFlowAges(cfg: Config, s: Store, kind: FlowKind, provider: string, nonce: Option<Secret>,
                       email: Option<string>,
                       user: Option<UserId>, env: Env)
    ensures Ages(s, CreateFlow(s, NewFlow(cfg, kind, provider, nonce, email, user, env)).0, env.drawn)
  {
    var f := NewFlow(cfg, kind, provider, nonce, email, user, env);
    if f.stateHash in s.flowsByHash {
    }
  }

  lemma ConsumeFlowAges(cfg: Config, s: Store, h: Hash, kind: FlowKind, provider: string, now: Time, n: New)
    requires Inv(cfg, s)
    ensures Ages(s, ConsumeFlow(s, h, kind, provider, now).0, n)
  {
    hide Inv, FlowByHash, CodesAge;
    AgesItself(s, n);
    FlowFound(cfg, s, h);
    if FlowByHash(s, h).Some? && Consumable(FlowByHash(s, h).value, kind, provider, now) {
      var f := FlowByHash(s, h).value;
      FlowRewritten(s.flows, f, f.(consumedAt := Some(now)), HashOf(n.token));
    }
  }

  lemma FlowFound(cfg: Config, s: Store, h: Hash)
    requires Inv(cfg, s)
    ensures FlowByHash(s, h).Some? ==>
      FlowByHash(s, h).value.id in s.flows && s.flows[FlowByHash(s, h).value.id] == FlowByHash(s, h).value
  {
    hide UsersIndexed, Snapshots, IdentitiesKeyed, SessionsIndexed, CredentialsIndexed, FactorsListed, CodesListed;
  }

  lemma FlowRewritten(flows: map<FlowId, Flow>, f: Flow, g: Flow, drawn: Hash)
    requires f.id in flows && flows[f.id] == f && FlowAges(f, g)
    ensures FlowsAge(flows, flows[f.id := g], drawn)
  {
  }

  lemma CleanupAges(s: Store, now: Time, n: New)
    ensures Ages(s, Cleanup(s, now), n)
  {
  }

  lemma {:induction false} CreateCodesAges(s: Store, user: UserId, codes: seq<(CodeId, Secret)>, n: New)
    requires |codes| <= |n.codes| && codes == n.codes[..|codes|]
    ensures Ages(s, CreateCodes(s, user, codes), n)
    decreases |codes|
  {
    if codes != [] {
      var last := |codes| - 1;
      CreateCodesAges(s, user, codes[..last], n);
      assert codes[last] == n.codes[last];
      assert Draws(n.codes, HashOf(codes[last].1));
    }
  }

  lemma MarkCodeAges(s: Store, id: CodeId, now: Time, n: New)
    ensures Ages(s, MarkCode(s, id, now).0, n)
  {
    if id in s.codes && s.codes[id].usedAt.Some? {
    }
  }

  // ----- Calls -----

  lemma RequestsAge(cfg: Config, s: Store, call: AccountCall, env: Env)
    requires call.AskMagicLink? || call.AskVerification? || call.AskReset?
    ensures Ages(s, AccountStep(cfg, s, call, env).0, env.drawn)
  {
    hide Ages, CreateFlow, NewFlow, UserByEmail, IsOwnerEmail;
    AgesItself(s, env.drawn);
    match call
    case AskMagicLink(email, _) => CreateFlowAges(cfg, s, MagicLink, "email", None, cfg.normalize(email), None, env);
    case AskVerification(id, address) =>
      var found := if id.Some? then Lookup(s.users, id.value)
                   else if address.Some? && cfg.normalize(address.value).Some? then
                     UserByEmail(s, cfg.normalize(address.value).value) else None;
      if found.Some? {
        CreateFlowAges(cfg, s, EmailVerification, "email", None, Some(found.value.email), Some(found.value.id), env);
      }
    case AskReset(email) =>
      if cfg.normalize(email).Some? && UserByEmail(s, cfg.normalize(email).value).Some? {
        CreateFlowAges(cfg, s, PasswordReset, "email", None, cfg.normalize(email),
                       Some(UserByEmail(s, cfg.normalize(email).value).value.id), env);
      }
  }

  lemma MagicLinkAges(cfg: Config, s: Store, token: Secret, env: Env)
    requires Inv(cfg, s)
    ensures Ages(s, ConsumeMagicLink(cfg, s, token, env).0, env.drawn)
  {
    hide Ages, Untouched, ConsumeFlow, UserByEmail, LoginWith, CreateUserCall, Inv;
    ConsumeFlowAges(cfg, s, HashOf(token), MagicLink, "email", env.now, env.drawn);
    var (s1, consumed) := ConsumeFlow(s, HashOf(token), MagicLink, "email", env.now);
    if consumed.Some? && consumed.value.email.Some? {
      var email := consumed.value.email.value;
      var found := UserByEmail(s1, email);
      if found.Some? {
        LoginLeaves(cfg, s1, found.value, "email", env);
        UntouchedAges(s, s1, LoginWith(cfg, s1, found.value, "email", env).0, env.drawn);
      } else {
        var role := if cfg.profile == SingleOwner then Owner else Role.User;
        CreateUserCallLeaves(cfg, s1, email, role, "", true, env);
        var (s2, created) := CreateUserCall(cfg, s1, email, role, "", true, env);
        UntouchedAges(s, s1, s2, env.drawn);
        if created.Ok? {
          LoginLeaves(cfg, s2, created.value, "email", env);
          UntouchedAges(s, s2, LoginWith(cfg, s2, created.value, "email", env).0, env.drawn);
        }
      }
    }
  }

  lemma VerificationAges(cfg: Config, s: Store, token: Secret, env: Env)
    requires Inv(cfg, s)
    ensures Ages(s, ConsumeVerification(cfg, s, token, env).0, env.drawn)
  {
    hide Ages, Untouched, ConsumeFlow, FlowUser, UpdateUser, UpsertIdentity, GetIdentity, Inv, CreateUser,
      UpsertCredential;
    ConsumeFlowAges(cfg, s, HashOf(token), EmailVerification, "email", env.now, env.drawn);
    var (s1, consumed) := ConsumeFlow(s, HashOf(token), EmailVerification, "email", env.now);
    if consumed.Some? && FlowUser(s1, consumed.value).Some? {
      var u := FlowUser(s1, consumed.value).value.(verified := true, updatedAt := env.now);
      var s2 := UpdateUser(s1, u).0;
      var found := GetIdentity(s2, "email", u.email);
      var i := if found.Some? then found.value.(verified := true) else Identity(0, "", "", "", false);
      UpdateUserLeaves(s1, u);
      UntouchedAges(s, s1, s2, env.drawn);
      IdentityLeaves(s2, i);
      UntouchedAges(s, s2, UpsertIdentity(s2, i), env.drawn);
    }
  }

  lemma ResetAges(cfg: Config, s: Store, token: Secret, password: string, env: Env)
    requires Inv(cfg, s)
    ensures Ages(s, ConsumeReset(cfg, s, token, password, env).0, env.drawn)
  {
    hide Ages, Untouched, ConsumeFlow, FlowUser, SetPassword, RevokeForUser, IsOwnerEmail, Inv;
    ConsumeFlowAges(cfg, s, HashOf(token), PasswordReset, "email", env.now, env.drawn);
    var (s1, consumed) := ConsumeFlow(s, HashOf(token), PasswordReset, "email", env.now);
    if consumed.Some? && FlowUser(s1, consumed.value).Some? {
      var id := FlowUser(s1, consumed.value).value.id;
      SetPasswordLeaves(cfg, s1, id, password, Some(false), None, env);
      var s2 := SetPassword(cfg, s1, id, password, Some(false), None, env).0;
      UntouchedAges(s, s1, s2, env.drawn);
      RevokeForUserLeaves(s2, id, None, env.now);
      UntouchedAges(s, s2, RevokeForUser(s2, id, None, env.now), env.drawn);
    }
  }

  lemma AccountAges(cfg: Config, s: Store, call: AccountCall, env: Env)
    requires Inv(cfg, s)
    ensures Ages(s, AccountStep(cfg, s, call, env).0, env.drawn)
  {
    hide Ages, Untouched, Inv, CreateUserCall, BootstrapOwner, SetPassword, LoginPassword, RequestMagicLink,
      ConsumeMagicLink, RequestVerification, ConsumeVerification, RequestReset, ConsumeReset;
    AgesItself(s, env.drawn);
    match call
    case CreateUserWith(email, role, password, verified) =>
      CreateUserCallLeaves(cfg, s, email, role, password, verified, env);
      UntouchedAges(s, s, CreateUserCall(cfg, s, email, role, password, verified, env).0, env.drawn);
    case Bootstrap(email, password) =>
      BootstrapLeaves(cfg, s, email, password, env);
      UntouchedAges(s, s, BootstrapOwner(cfg, s, email, password, env).0, env.drawn);
    case ChangePassword(user, password, revoke, except) =>
      SetPasswordLeaves(cfg, s, user, password, revoke, except, env);
      UntouchedAges(s, s, SetPassword(cfg, s, user, password, revoke, except, env).0, env.drawn);
    case PasswordLogin(email, password) =>
      PasswordLoginLeaves(cfg, s, email, password, env);
      UntouchedAges(s, s, LoginPassword(cfg, s, email, password, env).0, env.drawn);
    case AskMagicLink(_, _) => RequestsAge(cfg, s, call, env);
    case AskVerification(_, _) => RequestsAge(cfg, s, call, env);
    case AskReset(_) => RequestsAge(cfg, s, call, env);
    case UseMagicLink(token) => MagicLinkAges(cfg, s, token, env);
    case UseVerification(token) => VerificationAges(cfg, s, token, env);
    case UseReset(token, password) => ResetAges(cfg, s, token, password, env);
  }

  lemma SocialStateAges(cfg: Config, s: Store, provider: string, state: Secret, nonce: Option<Secret>, env: Env)
    requires Inv(cfg, s)
    ensures Ages(s, ConsumeSocialState(cfg, s, provider, state, nonce, env).0, env.drawn)
  {
    hide Ages, ConsumeFlow, FlowByHash, Consumable, NonceMatches, Inv;
    AgesItself(s, env.drawn);
    ConsumeFlowAges(cfg, s, HashOf(state), OAuth, provider, env.now, env.drawn);
  }

  lemma SocialLoginAges(cfg: Config, s: Store, p: SocialProfile, given: Option<Secret>, nonce: Option<Secret>, env: Env)
    requires Inv(cfg, s)
    ensures Ages(s, LoginSocial(cfg, s, p, given, nonce, env).0, env.drawn)
  {
    hide Ages, Untouched, ConsumeSocialState, SocialUser, LoginWith, Inv;
    AgesItself(s, env.drawn);
    if given.Some? {
      SocialStateAges(cfg, s, p.provider, given.value, nonce, env);
    }
    var s1 := if given.Some? then ConsumeSocialState(cfg, s, p.provider, given.value, nonce, env).0 else s;
    SocialUserLeaves(cfg, s1, p, env);
    var (s2, user) := SocialUser(cfg, s1, p, env);
    UntouchedAges(s, s1, s2, env.drawn);
    if user.Ok? {
      LoginLeaves(cfg, s2, user.value, p.provider, env);
      UntouchedAges(s, s2, LoginWith(cfg, s2, user.value, p.provider, env).0, env.drawn);
    }
  }

  lemma SessionCallAges(cfg: Config, s: Store, call: SessionCall, env: Env)
    requires Inv(cfg, s)
    ensures Ages(s, SessionCallStep(cfg, s, call, env).0, env.drawn)
  {
    hide Ages, Untouched, Inv, BeginSocialLogin, ConsumeSocialState, LoginSocial, VerifySession, RevokeSession, Cleanup,
      SessionByHash, CreateFlow, NewFlow, SetAssurance, TouchSession, RevokeForUser;
    AgesItself(s, env.drawn);
    match call
    case BeginSocial(provider, safe, nonce) => BeginSocialAges(cfg, s, provider, safe, nonce, env);
    case UseSocialState(provider, state, nonce) => SocialStateAges(cfg, s, provider, state, nonce, env);
    case SocialLogin(profile, given, nonce) => SocialLoginAges(cfg, s, profile, given, nonce, env);
    case Verify(token, permission) =>
      VerifyLeaves(cfg, s, token, permission, env.now);
      UntouchedAges(s, s, VerifySession(cfg, s, token, permission, env.now).0, env.drawn);
    case LogoutWith(token) =>
      var found := SessionByHash(s, HashOf(token));
      if found.Some? {
        RevokeAges(s, found.value.id, env);
      }
    case Revoke(session) => RevokeAges(s, session, env);
    case CleanupExpired => CleanupAges(s, env.now, env.drawn);
  }

  lemma BeginSocialAges(cfg: Config, s: Store, provider: string, safe: bool, nonce: Option<Secret>, env: Env)
    ensures Ages(s, BeginSocialLogin(cfg, s, provider, safe, nonce, env).0, env.drawn)
  {
    hide Ages, CreateFlow, NewFlow;
    AgesItself(s, env.drawn);
    CreateFlowAges(cfg, s, OAuth, provider, nonce, None, None, env);
  }

  lemma RevokeAges(s: Store, id: SessionId, env: Env)
    ensures Ages(s, RevokeSession(s, id, env.now), env.drawn)
  {
    hide Ages, Untouched, RevokeSession;
    AgesItself(s, env.drawn);
    RevokeLeaves(s, id, env.now);
    UntouchedAges(s, s, RevokeSession(s, id, env.now), env.drawn);
  }

  lemma StepUpsAge(cfg: Config, s: Store, call: FactorCall, env: Env)
    requires call.StepUpWithTotp? || call.StepUpWithCode?
    ensures Ages(s, FactorStep(cfg, s, call, env).0, env.drawn)
  {
    hide Ages, Untouched, VerifySession, VerifyTotpIn, FactorsOf, FindCode, CodesOf, MarkCode, RaiseAssurance;
    AgesItself(s, env.drawn);
    VerifyLeaves(cfg, s, call.token, "", env.now);
    var (s1, p) := VerifySession(cfg, s, call.token, "", env.now);
    UntouchedAges(s, s, s1, env.drawn);
    if p.Ok? && call.StepUpWithTotp? {
      var listed := FactorsOf(s1, p.value.user.id);
      VerifyTotpLeaves(cfg, s1, listed, call.code, env.now);
      var s2 := VerifyTotpIn(cfg, s1, listed, call.code, env.now).0;
      UntouchedAges(s, s1, s2, env.drawn);
      RaiseLeaves(s2, p.value, env.now);
      UntouchedAges(s, s2, RaiseAssurance(s2, p.value, env.now).0, env.drawn);
    } else if p.Ok? {
      var found := FindCode(CodesOf(s1, p.value.user.id), HashOf(call.recovery));
      if found.Some? {
        var s2 := MarkCode(s1, found.value.id, env.now).0;
        MarkCodeAges(s1, found.value.id, env.now, env.drawn);
        SpendingAges(s, s1, s2, env.drawn);
        RaiseLeaves(s2, p.value, env.now);
        UntouchedAges(s, s2, RaiseAssurance(s2, p.value, env.now).0, env.drawn);
      }
    }
  }

  lemma SpendingAges(s: Store, s1: Store, s': Store, n: New)
    requires Untouched(s, s1) && Ages(s1, s', n)
    ensures Ages(s, s', n)
  {
    hide FlowsAge, CodesAge;
  }

  lemma FactorCallAges(cfg: Config, s: Store, call: FactorCall, env: Env)
    ensures Ages(s, FactorStep(cfg, s, call, env).0, env.drawn)
  {
    hide Ages, Untouched, VerifySession, VerifyEnrollment, BeginEnrollment, CreateCodes, StepUpTotp, StepUpRecovery;
    AgesItself(s, env.drawn);
    match call
    case NeedAal2(token) =>
      VerifyLeaves(cfg, s, token, "", env.now);
      UntouchedAges(s, s, VerifySession(cfg, s, token, "", env.now).0, env.drawn);
    case BeginTotp(user) =>
      BeginEnrollmentLeaves(cfg, s, user, env);
      UntouchedAges(s, s, BeginEnrollment(cfg, s, user, env).0, env.drawn);
    case ConfirmTotp(user, factor, code) =>
      EnrollmentLeaves(cfg, s, user, factor, code, env);
      UntouchedAges(s, s, VerifyEnrollment(cfg, s, user, factor, code, env).0, env.drawn);
    case MakeCodes(user) =>
      assert env.drawn.codes[..|env.drawn.codes|] == env.drawn.codes;
      CreateCodesAges(s, user, env.drawn.codes, env.drawn);
    case StepUpWithTotp(_, _) => StepUpsAge(cfg, s, call, env);
    case StepUpWithCode(_, _) => StepUpsAge(cfg, s, call, env);
  }

  /** Every call only ages flows and codes, and creates some from what it draws. */
  lemma StepAges(cfg: Config, s: Store, call: Call, env: Env)
    requires Inv(cfg, s)
    ensures Ages(s, Step(cfg, s, call, env).0, env.drawn)
  {
    hide Ages, Untouched, Inv, AccountStep, SessionCallStep, FactorStep, AdminStep;
    match call
    case Account(c) => AccountAges(cfg, s, c, env);
    case OnSession(c) => SessionCallAges(cfg, s, c, env);
    case Second(c) => FactorCallAges(cfg, s, c, env);
    case Administer(c) =>
      AgesItself(s, env.drawn);
      AdminCallLeaves(cfg, s, c, env);
      UntouchedAges(s, s, AdminStep(cfg, s, c, env).0, env.drawn);
  }

  // ----- Over runs -----

  /** No flow under this hash can be consumed. */
  ghost predicate NoFlow(s: Store, h: Hash) {
    forall id :: id in s.flows && s.flows[id].stateHash == h ==> s.flows[id].consumedAt.Some?
  }

  /** The user has no unused code with this hash. */
  ghost predicate NoCode(s: Store, user: UserId, h: Hash) {
    forall id :: !CodeAvailable(s, user, id, h)
  }

  /** No call of the run draws this token for a flow. */
  predicate NeverTheToken(events: seq<Event>, h: Hash) {
    forall i :: 0 <= i < |events| ==> HashOf(events[i].env.drawn.token) != h
  }

  /** No call of the run draws this secret for a code. */
  predicate NeverTheCode(events: seq<Event>, h: Hash) {
    forall i :: 0 <= i < |events| ==> !Draws(events[i].env.drawn.codes, h)
  }

  lemma AgesKeepNone(s: Store, s': Store, n: New, user: UserId, h: Hash)
    requires Ages(s, s', n)
    ensures NoFlow(s, h) && HashOf(n.token) != h ==> NoFlow(s', h)
    ensures NoCode(s, user, h) && !Draws(n.codes, h) ==> NoCode(s', user, h)
  {
    hide Draws;
    if NoCode(s, user, h) && !Draws(n.codes, h) {
      forall id ensures !CodeAvailable(s', user, id, h) {
        assert !CodeAvailable(s, user, id, h);
      }
    }
  }

  lemma {:induction false} NoneStays(cfg: Config, s: Store, events: seq<Event>, user: UserId, h: Hash)
    requires Inv(cfg, s) && FreshRun(cfg, s, events)
    ensures NoFlow(s, h) && NeverTheToken(events, h) ==> NoFlow(Run(cfg, s, events), h)
    ensures NoCode(s, user, h) && NeverTheCode(events, h) ==> NoCode(Run(cfg, s, events), user, h)
    decreases |events|
  {
    hide Inv, Unused, Step, NoFlow, NoCode, Draws;
    if events != [] {
      var init, e := events[..|events| - 1], events[|events| - 1];
      assert forall i :: 0 <= i < |init| ==> init[i] == events[i];
      NoneStays(cfg, s, init, user, h);
      RunKeeps(cfg, s, init);
      var before := Run(cfg, s, init);
      StepAges(cfg, before, e.call, e.env);
      AgesKeepNone(before, Step(cfg, before, e.call, e.env).0, e.env.drawn, user, h);
    }
  }

  lemma NoneIsConsumed(cfg: Config, s: Store, h: Hash, kind: FlowKind, provider: string, now: Time)
    requires Inv(cfg, s) && NoFlow(s, h)
    ensures ConsumeFlow(s, h, kind, provider, now).1 == None
  {
    hide UsersIndexed, Snapshots, IdentitiesKeyed, SessionsIndexed, CredentialsIndexed, FactorsListed, CodesListed;
  }

  lemma ConsumedIsNone(cfg: Config, s: Store, h: Hash, kind: FlowKind, provider: string, now: Time)
    requires Inv(cfg, s) && ConsumeFlow(s, h, kind, provider, now).1.Some?
    ensures NoFlow(ConsumeFlow(s, h, kind, provider, now).0, h)
  {
    hide UsersIndexed, Snapshots, IdentitiesKeyed, SessionsIndexed, CredentialsIndexed, FactorsListed, CodesListed;
  }

  /** Once consumed, a flow is refused after every run that does not draw its token again, under
      any kind or provider. */
  lemma ConsumedForever(cfg: Config, s: Store, h: Hash, kind: FlowKind, provider: string, now: Time, events: seq<Event>,
                        kind': FlowKind, provider': string, later: Time)
    requires Inv(cfg, s) && ConsumeFlow(s, h, kind, provider, now).1.Some?
    requires FreshRun(cfg, ConsumeFlow(s, h, kind, provider, now).0, events) && NeverTheToken(events, h)
    ensures var s1 := ConsumeFlow(s, h, kind, provider, now).0;
      ConsumeFlow(Run(cfg, s1, events), h, kind', provider', later).1 == None
  {
    hide Inv, ConsumeFlow, Run, FreshRun, NeverTheToken, NoFlow;
    var s1 := ConsumeFlow(s, h, kind, provider, now).0;
    ConsumedIsNone(cfg, s, h, kind, provider, now);
    ConsumptionIsValid(cfg, s, h, kind, provider, now);
    NoneStays(cfg, s1, events, 0, h);
    RunKeeps(cfg, s1, events);
    NoneIsConsumed(cfg, Run(cfg, s1, events), h, kind', provider', later);
  }

  lemma ConsumptionIsValid(cfg: Config, s: Store, h: Hash, kind: FlowKind, provider: string, now: Time)
    requires Inv(cfg, s)
    ensures Inv(cfg, ConsumeFlow(s, h, kind, provider, now).0)
  {
    hide Inv, ConsumeFlow;
    Begin(cfg, s, At(now));
    ConsumeFlowKeeps(cfg, s, s, h, kind, provider, At(now));
    SessionLifetimes.ReachedIsValid(cfg, s, ConsumeFlow(s, h, kind, provider, now).0, At(now));
  }

  // ----- Recovery codes -----

  lemma {:induction false} CreatedCodesAreAvailable(s: Store, user: UserId, codes: seq<(CodeId, Secret)>)
    requires forall i, j :: 0 <= i < j < |codes| ==> codes[i].0 != codes[j].0
    ensures forall i :: 0 <= i < |codes| ==>
      CodeAvailable(CreateCodes(s, user, codes), user, codes[i].0, HashOf(codes[i].1))
    decreases |codes|
  {
    if codes != [] {
      CreatedCodesAreAvailable(s, user, codes[..|codes| - 1]);
    }
  }

  /** The user has no other unused code with this hash. */
  ghost predicate OnlyCode(s: Store, user: UserId, id: CodeId, h: Hash) {
    forall other :: CodeAvailable(s, user, other, h) ==> other == id
  }

  lemma RaiseLeavesCodes(s: Store, p: Principal, now: Time)
    ensures RaiseAssurance(s, p, now).0.codes == s.codes
  {
    if Unrevoked(s, p.session.id) {
    }
  }

  /** A recovery step-up spends exactly one unused code of its user with the hash. */
  lemma OneCodeIsSpent(cfg: Config, s: Store, token: Secret, code: Secret, env: Env)
    requires Inv(cfg, s) && StepUpRecovery(cfg, s, token, code, env).1.Ok?
    ensures var s' := StepUpRecovery(cfg, s, token, code, env).0;
      exists id :: Spends(s, s', VerifySession(cfg, s, token, "", env.now).1.value.user.id, id, HashOf(code))
  {
    hide Inv, VerifySession, FindCode, CodesOf, SetAssurance, CodesListed, FactorsListed, UsersIndexed,
      CredentialsIndexed, RaiseAssurance, MarkCode, CodeAvailable, Spends;
    ValidCredentials(cfg, s);
    VerifiedStays(cfg, s, token, env.now);
    var (s1, p) := VerifySession(cfg, s, token, "", env.now);
    var user, h := p.value.user.id, HashOf(code);
    RecoveryMeaning(s1, user, h);
    var found := FindCode(CodesOf(s1, user), h).value;
    MarkAvailable(s1, user, found.id, h, env.now);
    var s2 := MarkCode(s1, found.id, env.now).0;
    RaiseLeavesCodes(s2, p.value, env.now);
    SpendingIsExact(s, s1, RaiseAssurance(s2, p.value, env.now).0, user, found.id, h, env.now);
  }

  /** The one code that becomes unavailable, of all users and hashes. */
  ghost predicate Spends(s: Store, s': Store, user: UserId, id: CodeId, h: Hash) {
    && CodeAvailable(s, user, id, h)
    && forall u, other, g :: CodeAvailable(s', u, other, g) <==> other != id && CodeAvailable(s, u, other, g)
  }

  lemma SpendingIsExact(s: Store, s1: Store, s': Store, user: UserId, id: CodeId, h: Hash, now: Time)
    requires s1.codes == s.codes && CodeAvailable(s1, user, id, h)
    requires s'.codes == s1.codes[id := s1.codes[id].(usedAt := Some(now))]
    ensures Spends(s, s', user, id, h)
  {
  }

  lemma DistinctIds(s: Store, n: New)
    requires Unused(s, n)
    ensures forall i, j :: 0 <= i < j < |n.codes| ==> n.codes[i].0 != n.codes[j].0
  {
  }

  /** Each generated code steps its user up. If no other unused code has its hash, it is refused
      from then on, after every run that does not draw its secret again. */
  lemma GeneratedCodeWorksOnce(cfg: Config, s: Store, user: UserId, env: Env, i: nat, token: Secret, env1: Env,
                               events: seq<Event>, token2: Secret, env2: Env)
    requires Inv(cfg, s) && Unused(s, env.drawn) && GenerateCodes(s, user, env).1.Ok? && i < |env.drawn.codes|
    requires var s1 := GenerateCodes(s, user, env).0;
      var p := VerifySession(cfg, s1, token, "", env1.now).1;
      p.Ok? && p.value.user.id == user && env1.allowed && Unused(s1, env1.drawn)
    requires FreshRun(cfg,
                      StepUpRecovery(cfg, GenerateCodes(s, user, env).0, token, env.drawn.codes[i].1, env1).0, events)
    ensures var s1 := GenerateCodes(s, user, env).0;
      var h := HashOf(env.drawn.codes[i].1);
      var (s2, once) := StepUpRecovery(cfg, s1, token, env.drawn.codes[i].1, env1);
      var s3 := Run(cfg, s2, events);
      var p := VerifySession(cfg, s3, token2, "", env2.now).1;
      && once.Ok?
      && (OnlyCode(s1, user, env.drawn.codes[i].0, h) && NeverTheCode(events, h) && p.Ok? && p.value.user.id == user ==>
            StepUpRecovery(cfg, s3, token2, env.drawn.codes[i].1, env2).1.Err?)
  {
    hide Inv, Unused, VerifySession, StepUpRecovery, CodeAvailable, OnlyCode, CreateCodes, MomentOf, NoCode, Run,
      FreshRun, NeverTheCode;
    DistinctIds(s, env.drawn);
    CreatedCodesAreAvailable(s, user, env.drawn.codes);
    StepEvolves(cfg, s, Second(MakeCodes(user)), env);
    var s1, code := GenerateCodes(s, user, env).0, env.drawn.codes[i].1;
    assert CodeAvailable(s1, user, env.drawn.codes[i].0, HashOf(code));
    RecoveryStepUpMeaning(cfg, s1, token, code, env1);
    var s2 := StepUpRecovery(cfg, s1, token, code, env1).0;
    StepEvolves(cfg, s1, Second(StepUpWithCode(token, code)), env1);
    if OnlyCode(s1, user, env.drawn.codes[i].0, HashOf(code)) && NeverTheCode(events, HashOf(code)) {
      OneCodeIsSpent(cfg, s1, token, code, env1);
      var id :| Spends(s1, s2, user, id, HashOf(code));
      SpendingLeavesNone(s1, s2, user, id, env.drawn.codes[i].0, HashOf(code));
      NoneStays(cfg, s2, events, user, HashOf(code));
      RunKeeps(cfg, s2, events);
      RecoveryStepUpMeaning(cfg, Run(cfg, s2, events), token2, code, env2);
      NoneIsAvailable(Run(cfg, s2, events), user, HashOf(code));
    }
  }

  lemma SpendingLeavesNone(s: Store, s': Store, user: UserId, id: CodeId, only: CodeId, h: Hash)
    requires Spends(s, s', user, id, h) && OnlyCode(s, user, only, h)
    ensures NoCode(s', user, h)
  {
    hide CodeAvailable;
  }

  lemma NoneIsAvailable(s: Store, user: UserId, h: Hash)
    requires NoCode(s, user, h)
    ensures !exists id :: CodeAvailable(s, user, id, h)
  {
    hide CodeAvailable;
  }
}

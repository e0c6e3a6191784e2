/** What every call does to every login flow, field by field, and exactly when the calls that
    request or use flows succeed. */
module FlowRecords {
  import opened Prelude
  import opened Text
  import opened Permissions
  import opened AuthModels
  import opened AuthStore
  import opened AuthCalls
  import opened AuthRuns
  import opened AuthInvariants
  import F = Footprints
  import UserRecords

  // ----- One record -----

  /** What a call presents to use a flow up; the nonce matters for social logins only. */
  datatype Use = Use(token: Secret, kind: FlowKind, provider: string, nonce: Option<Secret>)

  function UseOf(call: Call): Option<Use> {
    match call
    case Account(UseMagicLink(token)) => Some(Use(token, MagicLink, "email", None))
    case Account(UseVerification(token)) => Some(Use(token, EmailVerification, "email", None))
    case Account(UseReset(token, _)) => Some(Use(token, PasswordReset, "email", None))
    case OnSession(UseSocialState(provider, state, nonce)) => Some(Use(state, OAuth, provider, nonce))
    case OnSession(SocialLogin(p, given, nonce)) =>
      if given.Some? then Some(Use(given.value, OAuth, p.provider, nonce)) else None
    case _ => None
  }

  /** The flow was created under the token for this purpose, is neither consumed nor expired, and
      a social one has no nonce or the one presented. */
  predicate Live(f: Flow, u: Use, now: Time) {
    && f.stateHash == HashOf(u.token) && f.kind == u.kind && f.provider == u.provider
    && f.consumedAt == None && now < f.expiresAt
    && (u.kind == OAuth && f.nonceHash.Some? ==> u.nonce.Some? && f.nonceHash == Some(HashOf(u.nonce.value)))
  }

  /** Some stored flow is live. */
  ghost predicate SomeLive(s: Store, u: Use, now: Time) {
    exists id :: id in s.flows && Live(s.flows[id], u, now)
  }

  /** The record of a stored flow after a call: a live one is consumed, whatever the call answers. */
  function FlowAfter(call: Call, now: Time, f: Flow): Flow {
    if UseOf(call).Some? && Live(f, UseOf(call).value, now) then f.(consumedAt := Some(now)) else f
  }

  /** The flow that a request stores under the token it draws, for one flow lifetime. */
  predicate Requested(cfg: Config, s: Store, call: Call, env: Env, f: Flow) {
    && f.id == env.drawn.flow && f.stateHash == HashOf(env.drawn.token)
    && f.consumedAt == None && f.expiresAt == env.now + cfg.flowTtl
    && match call
       case Account(AskMagicLink(email, _)) =>
         && f.kind == MagicLink && f.provider == "email" && f.nonceHash == None
         && f.email == cfg.normalize(email) && f.userId == None
       case Account(AskVerification(id, address)) =>
         && f.kind == EmailVerification && f.provider == "email" && f.nonceHash == None
         && f.userId.Some? && f.userId.value in s.users && f.email == Some(s.users[f.userId.value].email)
         && Names(cfg, s, id, address, f.userId.value)
       case Account(AskReset(email)) =>
         && f.kind == PasswordReset && f.provider == "email" && f.nonceHash == None
         && f.email == cfg.normalize(email) && f.userId.Some? && Deliverable(cfg, s, email, f.userId.value)
       case OnSession(BeginSocial(provider, _, nonce)) =>
         && f.kind == OAuth && f.provider == provider && f.email == None && f.userId == None
         && f.nonceHash == (if nonce.Some? then Some(HashOf(nonce.value)) else None)
       case _ => false
  }

  /** A single owner is the only one served. */
  predicate OwnersOwn(cfg: Config, email: string) {
    cfg.profile == SingleOwner ==> cfg.ownerEmail != "" && Lower(email) == Lower(cfg.ownerEmail)
  }

  /** A verification is asked for an active user, by id or by address. */
  predicate Names(cfg: Config, s: Store, id: Option<UserId>, address: Option<string>, user: UserId) {
    && user in s.users && s.users[user].status == Active && OwnersOwn(cfg, s.users[user].email)
    && match id
       case Some(u) => address == None && u == user
       case None =>
         && address.Some? && cfg.normalize(address.value).Some?
         && EmailKey(s.users[user].email) == EmailKey(cfg.normalize(address.value).value)
  }

  /** A reset can be delivered to the active user with the address. */
  predicate Deliverable(cfg: Config, s: Store, email: string, user: UserId) {
    && user in s.users && s.users[user].status == Active && cfg.normalize(email).Some?
    && EmailKey(s.users[user].email) == EmailKey(cfg.normalize(email).value)
    && (cfg.profile == SingleOwner ==> cfg.normalize(email).value == Lower(cfg.ownerEmail))
  }

  /** The request succeeds. */
  ghost predicate MayRequest(cfg: Config, s: Store, call: Call, env: Env) {
    match call
    case Account(AskMagicLink(email, safe)) =>
      safe && env.allowed && cfg.normalize(email).Some? && OwnersOwn(cfg, cfg.normalize(email).value)
    case Account(AskVerification(id, address)) => env.allowed && exists user :: Names(cfg, s, id, address, user)
    case Account(AskReset(email)) => env.allowed && cfg.normalize(email).Some?
    case OnSession(BeginSocial(_, safe, _)) => safe
    case _ => false
  }

  /** The request stores a flow: a reset only where it can be delivered, though it answers alike. */
  ghost predicate Stores(cfg: Config, s: Store, call: Call, env: Env) {
    && MayRequest(cfg, s, call, env)
    && (call.Account? && call.account.AskReset? ==> exists user :: Deliverable(cfg, s, call.account.email, user))
  }

  predicate IsRequest(call: Call) {
    match call
    case Account(AskMagicLink(_, _)) => true
    case Account(AskVerification(_, _)) => true
    case Account(AskReset(_)) => true
    case OnSession(BeginSocial(_, _, _)) => true
    case _ => false
  }

  /** Every stored flow is as `FlowAfter` says, and cleanups forget exactly the expired ones. */
  ghost predicate StoredFollow(s: Store, call: Call, now: Time, flows: map<FlowId, Flow>) {
    forall id :: id in s.flows ==>
      && (id in flows <==> !(call == OnSession(CleanupExpired) && s.flows[id].expiresAt <= now))
      && (id in flows ==> flows[id] == FlowAfter(call, now, s.flows[id]))
  }

  ghost predicate Follow(cfg: Config, s: Store, call: Call, env: Env, r: Res<Reply>, flows: map<FlowId, Flow>) {
    && StoredFollow(s, call, env.now, flows)
    && (forall id :: id in flows && id !in s.flows ==> id == env.drawn.flow && Stores(cfg, s, call, env))
    && (Stores(cfg, s, call, env) ==>
          && env.drawn.flow in flows && Requested(cfg, s, call, env, flows[env.drawn.flow])
          && r == Ok(FlowReply(flows[env.drawn.flow])))
    && (IsRequest(call) ==> (r.Ok? <==> MayRequest(cfg, s, call, env)))
  }

  // ----- Consumption -----

  lemma FlowIds(cfg: Config, s: Store)
    requires Inv(cfg, s)
    ensures forall id :: id in s.flows ==>
      s.flows[id].id == id && s.flows[id].stateHash in s.flowsByHash && s.flowsByHash[s.flows[id].stateHash] == id
  {
    hide UsersIndexed, SessionsIndexed, CredentialsIndexed, IdentitiesKeyed, FactorsListed, CodesListed, Snapshots;
  }

  /** A hash leads to the one flow stored under it. */
  lemma HashLeads(cfg: Config, s: Store, h: Hash)
    requires Inv(cfg, s)
    ensures var found := FlowByHash(s, h);
      && (found.Some? ==> found.value.id in s.flows && s.flows[found.value.id] == found.value)
      && (found.Some? ==> found.value.stateHash == h)
      && (forall id :: id in s.flows && s.flows[id].stateHash == h ==>
            found == Some(s.flows[id]) && s.flows[id].id == id)
  {
    hide UsersIndexed, SessionsIndexed, CredentialsIndexed, IdentitiesKeyed, FactorsListed, CodesListed, Snapshots;
  }

  /** A flow that is not a social one is consumed exactly when it is live, and no other changes. */
  lemma ConsumesLive(cfg: Config, s: Store, u: Use, now: Time)
    requires Inv(cfg, s) && u.kind != OAuth
    ensures var (s', f) := ConsumeFlow(s, HashOf(u.token), u.kind, u.provider, now);
      && (f.Some? <==> SomeLive(s, u, now))
      && (f.Some? ==> f.value.id in s.flows && Live(s.flows[f.value.id], u, now))
      && (f.Some? ==> f.value == s.flows[f.value.id].(consumedAt := Some(now)))
      && Consumed(s, u, now, s')
  {
    hide Inv, FlowByHash;
    HashLeads(cfg, s, HashOf(u.token));
  }

  ghost predicate Consumed(s: Store, u: Use, now: Time, s': Store) {
    && s'.flows.Keys == s.flows.Keys
    && forall id :: id in s.flows ==>
         s'.flows[id] == if Live(s.flows[id], u, now) then s.flows[id].(consumedAt := Some(now)) else s.flows[id]
  }

  /** A social state is consumed exactly when it is live. Otherwise nothing changes, and the
      error tells a wrong nonce from any other reason. */
  lemma SocialStateMeaning(cfg: Config, s: Store, provider: string, state: Secret, nonce: Option<Secret>, env: Env)
    requires Inv(cfg, s)
    ensures var (s', r) := ConsumeSocialState(cfg, s, provider, state, nonce, env);
      var u := Use(state, OAuth, provider, nonce);
      && (r.Ok? <==> SomeLive(s, u, env.now))
      && (r.Ok? ==> r.value.id in s.flows && Live(s.flows[r.value.id], u, env.now)
                    && r.value == s.flows[r.value.id].(consumedAt := Some(env.now)))
      && Consumed(s, u, env.now, s')
      && (r.Err? ==> r.error == AuthenticationFailed(
            if WrongNonceOnly(s, u, env.now) then InvalidNonce else InvalidSocialState))
  {
    hide Inv, FlowByHash;
    HashLeads(cfg, s, HashOf(state));
    var found := FlowByHash(s, HashOf(state));
    if found.Some? && found.value.nonceHash.Some? {
      assert WrongNonce(found.value, Use(state, OAuth, provider, nonce), env.now)
        ==> WrongNonceOnly(s, Use(state, OAuth, provider, nonce), env.now);
    }
  }

  /** Live but for its nonce. */
  predicate WrongNonce(f: Flow, u: Use, now: Time) {
    !Live(f, u, now) && Live(f.(nonceHash := None), u, now)
  }

  ghost predicate WrongNonceOnly(s: Store, u: Use, now: Time) {
    exists id :: id in s.flows && WrongNonce(s.flows[id], u, now)
  }

  lemma ConsumedFollow(cfg: Config, s: Store, call: Call, env: Env, r: Res<Reply>, s1: Store, s': Store)
    requires UseOf(call).Some? && Consumed(s, UseOf(call).value, env.now, s1) && s'.flows == s1.flows
    ensures Follow(cfg, s, call, env, r, s'.flows)
  {
    hide Live;
  }

  lemma KeptFollow(cfg: Config, s: Store, call: Call, env: Env, r: Res<Reply>, s': Store)
    requires s'.flows == s.flows && UseOf(call) == None && !IsRequest(call) && call != OnSession(CleanupExpired)
    ensures Follow(cfg, s, call, env, r, s'.flows)
  {
  }

  // ----- Requests -----

  lemma FlowCreated(s: Store, f: Flow)
    requires f.stateHash !in s.flowsByHash
    ensures CreateFlow(s, f).1 == Ok(f) && CreateFlow(s, f).0.flows == s.flows[f.id := f]
  {
  }

  lemma CreationFollows(cfg: Config, s: Store, call: Call, env: Env, r: Res<Reply>, f: Flow, flows: map<FlowId, Flow>)
    requires env.drawn.flow !in s.flows && UseOf(call) == None && call != OnSession(CleanupExpired)
    requires Stores(cfg, s, call, env) && Requested(cfg, s, call, env, f) && r == Ok(FlowReply(f))
    requires flows == s.flows[f.id := f]
    ensures Follow(cfg, s, call, env, r, flows)
  {
    hide MayRequest;
  }

  lemma RefusalFollows(cfg: Config, s: Store, call: Call, env: Env, r: Res<Reply>, flows: map<FlowId, Flow>)
    requires UseOf(call) == None && call != OnSession(CleanupExpired)
    requires !Stores(cfg, s, call, env) && flows == s.flows && (r.Ok? <==> MayRequest(cfg, s, call, env))
    ensures Follow(cfg, s, call, env, r, flows)
  {
    StoredKept(s, call, env.now);
    hide MayRequest, StoredFollow;
    assert StoredFollow(s, call, env.now, flows);
  }

  lemma StoredKept(s: Store, call: Call, now: Time)
    requires UseOf(call) == None && call != OnSession(CleanupExpired)
    ensures StoredFollow(s, call, now, s.flows)
  {
  }

  lemma MagicLinkRequestFollows(cfg: Config, s: Store, email: string, safe: bool, env: Env)
    requires Unused(s, env.drawn)
    ensures var (s', r) := OfFlow(RequestMagicLink(cfg, s, email, safe, env));
      Follow(cfg, s, Account(AskMagicLink(email, safe)), env, r, s'.flows)
  {
    hide Follow, CreateFlow, Lower;
    var call := Account(AskMagicLink(email, safe));
    var (s', r) := OfFlow(RequestMagicLink(cfg, s, email, safe, env));
    var f := NewFlow(cfg, MagicLink, "email", None, cfg.normalize(email), None, env);
    FlowCreated(s, f);
    if MayRequest(cfg, s, call, env) {
      CreationFollows(cfg, s, call, env, r, f, s'.flows);
    } else {
      RefusalFollows(cfg, s, call, env, r, s'.flows);
    }
  }

  lemma SocialRequestFollows(cfg: Config, s: Store, provider: string, safe: bool, nonce: Option<Secret>, env: Env)
    requires Unused(s, env.drawn)
    ensures var (s', r) := OfFlow(BeginSocialLogin(cfg, s, provider, safe, nonce, env));
      Follow(cfg, s, OnSession(BeginSocial(provider, safe, nonce)), env, r, s'.flows)
  {
    hide Follow, CreateFlow;
    var call := OnSession(BeginSocial(provider, safe, nonce));
    var (s', r) := OfFlow(BeginSocialLogin(cfg, s, provider, safe, nonce, env));
    var f := NewFlow(cfg, OAuth, provider, nonce, None, None, env);
    FlowCreated(s, f);
    if safe {
      CreationFollows(cfg, s, call, env, r, f, s'.flows);
    } else {
      RefusalFollows(cfg, s, call, env, r, s'.flows);
    }
  }

  /** A lookup by address finds the user with it. */
  lemma AddressFinds(cfg: Config, s: Store, email: string)
    requires Inv(cfg, s)
    ensures var found := UserByEmail(s, email);
      && (found.Some? ==> found.value.id in s.users && s.users[found.value.id] == found.value
                          && EmailKey(found.value.email) == EmailKey(email))
      && (forall user :: user in s.users && EmailKey(s.users[user].email) == EmailKey(email) ==>
            found == Some(s.users[user]) && s.users[user].id == user)
  {
    hide SessionsIndexed, FlowsIndexed, CredentialsIndexed, IdentitiesKeyed, FactorsListed, CodesListed, Snapshots,
      EmailKey;
  }

  lemma VerificationRequestFollows(cfg: Config, s: Store, id: Option<UserId>, address: Option<string>, env: Env)
    requires Inv(cfg, s) && Unused(s, env.drawn)
    ensures var (s', r) := OfFlow(RequestVerification(cfg, s, id, address, env));
      Follow(cfg, s, Account(AskVerification(id, address)), env, r, s'.flows)
  {
    hide Inv, Unused, Follow, CreateFlow, Lower, EmailKey, UserByEmail;
    var call := Account(AskVerification(id, address));
    var (s', r) := OfFlow(RequestVerification(cfg, s, id, address, env));
    UserRecords.StoredIds(cfg, s);
    TokensAreNew(s, env.drawn);
    var found := if id.Some? then Lookup(s.users, id.value)
                 else if address.Some? && cfg.normalize(address.value).Some? then
                   UserByEmail(s, cfg.normalize(address.value).value) else None;
    if address.Some? && cfg.normalize(address.value).Some? {
      AddressFinds(cfg, s, cfg.normalize(address.value).value);
    }
    if found.Some? {
      var f := NewFlow(cfg, EmailVerification, "email", None, Some(found.value.email), Some(found.value.id), env);
      FlowCreated(s, f);
      if MayRequest(cfg, s, call, env) {
        CreationFollows(cfg, s, call, env, r, f, s'.flows);
      } else {
        assert !Names(cfg, s, id, address, found.value.id) || !env.allowed;
        RefusalFollows(cfg, s, call, env, r, s'.flows);
      }
    } else {
      RefusalFollows(cfg, s, call, env, r, s'.flows);
    }
  }

  lemma TokensAreNew(s: Store, n: New)
    requires Unused(s, n)
    ensures n.flow !in s.flows && HashOf(n.token) !in s.flowsByHash
  {
  }

  lemma ResetRequestFollows(cfg: Config, s: Store, email: string, env: Env)
    requires Inv(cfg, s) && Unused(s, env.drawn)
    ensures var (s', r) := OfFlow(RequestReset(cfg, s, email, env));
      Follow(cfg, s, Account(AskReset(email)), env, r, s'.flows)
  {
    hide Inv, Unused, Follow, CreateFlow, Lower, EmailKey, UserByEmail;
    var call := Account(AskReset(email));
    var (s', r) := OfFlow(RequestReset(cfg, s, email, env));
    TokensAreNew(s, env.drawn);
    if cfg.normalize(email).Some? {
      AddressFinds(cfg, s, cfg.normalize(email).value);
      var found := UserByEmail(s, cfg.normalize(email).value);
      if Stores(cfg, s, call, env) {
        var f := NewFlow(cfg, PasswordReset, "email", None, cfg.normalize(email), Some(found.value.id), env);
        FlowCreated(s, f);
        CreationFollows(cfg, s, call, env, r, f, s'.flows);
      } else {
        assert found.Some? ==> !Deliverable(cfg, s, email, found.value.id) || !env.allowed;
        RefusalFollows(cfg, s, call, env, r, s'.flows);
      }
    } else {
      RefusalFollows(cfg, s, call, env, r, s'.flows);
    }
  }

  // ----- Calls -----

  lemma MagicLinkFollows(cfg: Config, s: Store, token: Secret, env: Env)
    requires Inv(cfg, s)
    ensures var (s', r) := OfSession(ConsumeMagicLink(cfg, s, token, env));
      Follow(cfg, s, Account(UseMagicLink(token)), env, r, s'.flows)
  {
    hide Inv, ConsumeFlow, UserByEmail, LoginWith, CreateUserCall, Follow, SomeLive, Live, Consumed;
    var call := Account(UseMagicLink(token));
    var (s', r) := OfSession(ConsumeMagicLink(cfg, s, token, env));
    ConsumesLive(cfg, s, UseOf(call).value, env.now);
    var (s1, consumed) := ConsumeFlow(s, HashOf(token), MagicLink, "email", env.now);
    if consumed.Some? && consumed.value.email.Some? {
      var email := consumed.value.email.value;
      var role := if cfg.profile == SingleOwner then Owner else Role.User;
      F.CreateUserCallLeaves(cfg, s1, email, role, "", true, env);
      var (s2, created) := CreateUserCall(cfg, s1, email, role, "", true, env);
      if UserByEmail(s1, email).Some? {
        F.LoginLeaves(cfg, s1, UserByEmail(s1, email).value, "email", env);
      } else if created.Ok? {
        F.LoginLeaves(cfg, s2, created.value, "email", env);
      }
    }
    ConsumedFollow(cfg, s, call, env, r, s1, s');
  }

  lemma VerificationFollows(cfg: Config, s: Store, token: Secret, env: Env)
    requires Inv(cfg, s)
    ensures var (s', r) := OfUser(ConsumeVerification(cfg, s, token, env));
      Follow(cfg, s, Account(UseVerification(token)), env, r, s'.flows)
  {
    hide Inv, ConsumeFlow, FlowUser, UpdateUser, UpsertIdentity, GetIdentity, Follow, SomeLive, Live, Consumed;
    var call := Account(UseVerification(token));
    var (s', r) := OfUser(ConsumeVerification(cfg, s, token, env));
    ConsumesLive(cfg, s, UseOf(call).value, env.now);
    var (s1, consumed) := ConsumeFlow(s, HashOf(token), EmailVerification, "email", env.now);
    if consumed.Some? && FlowUser(s1, consumed.value).Some? {
      var u := FlowUser(s1, consumed.value).value.(verified := true, updatedAt := env.now);
      F.UpdateUserLeaves(s1, u);
      var s2 := UpdateUser(s1, u).0;
      var found := GetIdentity(s2, "email", u.email);
      if found.Some? {
        F.IdentityLeaves(s2, found.value.(verified := true));
      }
    }
    ConsumedFollow(cfg, s, call, env, r, s1, s');
  }

  lemma ResetFollows(cfg: Config, s: Store, token: Secret, password: string, env: Env)
    requires Inv(cfg, s)
    ensures var (s', r) := OfUser(ConsumeReset(cfg, s, token, password, env));
      Follow(cfg, s, Account(UseReset(token, password)), env, r, s'.flows)
  {
    hide Inv, ConsumeFlow, FlowUser, SetPassword, RevokeForUser, IsOwnerEmail, Follow, SomeLive, Live, Consumed;
    var call := Account(UseReset(token, password));
    var (s', r) := OfUser(ConsumeReset(cfg, s, token, password, env));
    ConsumesLive(cfg, s, UseOf(call).value, env.now);
    var (s1, consumed) := ConsumeFlow(s, HashOf(token), PasswordReset, "email", env.now);
    if consumed.Some? && FlowUser(s1, consumed.value).Some? {
      var id := FlowUser(s1, consumed.value).value.id;
      F.SetPasswordLeaves(cfg, s1, id, password, Some(false), None, env);
      F.RevokeForUserLeaves(SetPassword(cfg, s1, id, password, Some(false), None, env).0, id, None, env.now);
    }
    ConsumedFollow(cfg, s, call, env, r, s1, s');
  }

  lemma AccountsFollow(cfg: Config, s: Store, call: AccountCall, env: Env)
    requires Inv(cfg, s) && Unused(s, env.drawn)
    ensures var (s', r) := AccountStep(cfg, s, call, env); Follow(cfg, s, Account(call), env, r, s'.flows)
  {
    hide Inv, Unused, Follow, CreateUserCall, BootstrapOwner, SetPassword, LoginPassword, RequestMagicLink,
      ConsumeMagicLink, RequestVerification, ConsumeVerification, RequestReset, ConsumeReset;
    var (s', r) := AccountStep(cfg, s, call, env);
    match call
    case CreateUserWith(email, role, password, verified) =>
      F.CreateUserCallLeaves(cfg, s, email, role, password, verified, env);
      KeptFollow(cfg, s, Account(call), env, r, s');
    case Bootstrap(email, password) =>
      F.BootstrapLeaves(cfg, s, email, password, env);
      KeptFollow(cfg, s, Account(call), env, r, s');
    case ChangePassword(user, password, revoke, except) =>
      F.SetPasswordLeaves(cfg, s, user, password, revoke, except, env);
      KeptFollow(cfg, s, Account(call), env, r, s');
    case PasswordLogin(email, password) =>
      F.PasswordLoginLeaves(cfg, s, email, password, env);
      KeptFollow(cfg, s, Account(call), env, r, s');
    case AskMagicLink(email, safe) => MagicLinkRequestFollows(cfg, s, email, safe, env);
    case UseMagicLink(token) => MagicLinkFollows(cfg, s, token, env);
    case AskVerification(id, address) => VerificationRequestFollows(cfg, s, id, address, env);
    case UseVerification(token) => VerificationFollows(cfg, s, token, env);
    case AskReset(email) => ResetRequestFollows(cfg, s, email, env);
    case UseReset(token, password) => ResetFollows(cfg, s, token, password, env);
  }

  lemma SocialLoginFollows(cfg: Config, s: Store, p: SocialProfile, given: Option<Secret>, nonce: Option<Secret>,
                           env: Env)
    requires Inv(cfg, s)
    ensures var (s', r) := OfSession(LoginSocial(cfg, s, p, given, nonce, env));
      Follow(cfg, s, OnSession(SocialLogin(p, given, nonce)), env, r, s'.flows)
  {
    hide Inv, ConsumeSocialState, SocialUser, LoginWith, Follow, SomeLive, Live, Consumed, WrongNonceOnly;
    var call := OnSession(SocialLogin(p, given, nonce));
    var (s', r) := OfSession(LoginSocial(cfg, s, p, given, nonce, env));
    var s1 := if given.Some? then ConsumeSocialState(cfg, s, p.provider, given.value, nonce, env).0 else s;
    F.SocialUserLeaves(cfg, s1, p, env);
    var (s2, user) := SocialUser(cfg, s1, p, env);
    if user.Ok? {
      F.LoginLeaves(cfg, s2, user.value, p.provider, env);
    }
    if given.Some? {
      SocialStateMeaning(cfg, s, p.provider, given.value, nonce, env);
      ConsumedFollow(cfg, s, call, env, r, s1, s');
    } else {
      KeptFollow(cfg, s, call, env, r, s');
    }
  }

  lemma CleanupFollows(cfg: Config, s: Store, env: Env)
    ensures Follow(cfg, s, OnSession(CleanupExpired), env, Ok(Done), Cleanup(s, env.now).flows)
  {
  }

  lemma SessionCallsFollow(cfg: Config, s: Store, call: SessionCall, env: Env)
    requires Inv(cfg, s) && Unused(s, env.drawn)
    ensures var (s', r) := SessionCallStep(cfg, s, call, env); Follow(cfg, s, OnSession(call), env, r, s'.flows)
  {
    hide Inv, Unused, Follow, BeginSocialLogin, ConsumeSocialState, LoginSocial, VerifySession, RevokeSession,
      Cleanup, SessionByHash, RevokeForUser, TouchSession, SetAssurance, SomeLive, WrongNonceOnly, Consumed, Live;
    var (s', r) := SessionCallStep(cfg, s, call, env);
    match call
    case BeginSocial(provider, safe, nonce) => SocialRequestFollows(cfg, s, provider, safe, nonce, env);
    case UseSocialState(provider, state, nonce) =>
      SocialStateMeaning(cfg, s, provider, state, nonce, env);
      ConsumedFollow(cfg, s, OnSession(call), env, r, s', s');
    case SocialLogin(profile, given, nonce) => SocialLoginFollows(cfg, s, profile, given, nonce, env);
    case Verify(token, permission) =>
      F.VerifyLeaves(cfg, s, token, permission, env.now);
      KeptFollow(cfg, s, OnSession(call), env, r, s');
    case LogoutWith(token) =>
      var found := SessionByHash(s, HashOf(token));
      F.RevokeLeaves(s, if found.Some? then found.value.id else 0, env.now);
      KeptFollow(cfg, s, OnSession(call), env, r, s');
    case Revoke(session) =>
      F.RevokeLeaves(s, session, env.now);
      KeptFollow(cfg, s, OnSession(call), env, r, s');
    case CleanupExpired => CleanupFollows(cfg, s, env);
  }

  lemma FactorCallsFollow(cfg: Config, s: Store, call: FactorCall, env: Env)
    ensures var (s', r) := FactorStep(cfg, s, call, env); Follow(cfg, s, Second(call), env, r, s'.flows)
  {
    hide Follow, VerifySession, BeginEnrollment, VerifyEnrollment, CreateCodes, StepUpTotp, StepUpRecovery;
    var (s', r) := FactorStep(cfg, s, call, env);
    match call {
      case NeedAal2(token) => F.VerifyLeaves(cfg, s, token, "", env.now);
      case BeginTotp(user) => F.BeginEnrollmentLeaves(cfg, s, user, env);
      case ConfirmTotp(user, factor, code) => F.EnrollmentLeaves(cfg, s, user, factor, code, env);
      case MakeCodes(user) => F.CreateCodesLeaves(s, user, env.drawn.codes);
      case StepUpWithTotp(token, code) => F.TotpStepUpLeaves(cfg, s, token, code, env);
      case StepUpWithCode(token, recovery) => F.RecoveryStepUpLeaves(cfg, s, token, recovery, env);
    }
    KeptFollow(cfg, s, Second(call), env, r, s');
  }

  /** Every call leaves every stored flow as `FlowAfter` says, cleanups forget exactly the expired
      ones, and exactly the successful requests store one, as `Requested` says. */
  lemma FlowsFollowCalls(cfg: Config, s: Store, call: Call, env: Env)
    requires Inv(cfg, s) && Unused(s, env.drawn)
    ensures var (s', r) := Step(cfg, s, call, env); Follow(cfg, s, call, env, r, s'.flows)
  {
    hide Inv, Unused, Follow, AccountStep, SessionCallStep, FactorStep, AdminStep;
    match call
    case Account(c) => AccountsFollow(cfg, s, c, env);
    case OnSession(c) => SessionCallsFollow(cfg, s, c, env);
    case Second(c) => FactorCallsFollow(cfg, s, c, env);
    case Administer(c) =>
      F.AdminCallLeaves(cfg, s, c, env);
      KeptFollow(cfg, s, call, env, Step(cfg, s, call, env).1, Step(cfg, s, call, env).0);
  }
}

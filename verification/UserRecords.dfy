/** What every call does to every user record, field by field: who is registered with which role,
    and who changes a role, a status or a verification. */
module UserRecords {
  import opened Prelude
  import opened Text
  import opened Permissions
  import opened AuthModels
  import opened AuthStore
  import opened AuthCalls
  import opened AuthRuns
  import opened AuthInvariants
  import opened AuthSafety
  import opened AuthGuarantees
  import opened AuthMeaning
  import F = Footprints
  import SessionLifetimes

  // ----- One record -----

  /** The record of a stored user after a call with this answer. */
  function RecordAfter(call: Call, r: Res<Reply>, now: Time, u: User): User {
    if r.Err? then u
    else
      match call
      case Administer(SetRole(_, user, role)) => if user == u.id then u.(role := role, updatedAt := now) else u
      case Administer(Ban(_, user)) => if user == u.id then u.(status := Banned, updatedAt := now) else u
      case Administer(Disable(_, user)) => if user == u.id then u.(status := Disabled, updatedAt := now) else u
      case Administer(Unban(_, user)) => if user == u.id then u.(status := Active, updatedAt := now) else u
      case Administer(Enable(_, user)) => if user == u.id then u.(status := Active, updatedAt := now) else u
      case Account(UseVerification(_)) =>
        if r.value.UserReply? && r.value.user.id == u.id then u.(verified := true, updatedAt := now) else u
      case Account(PasswordLogin(_, _)) => LoggedIn(r.value, now, u)
      case Account(UseMagicLink(_)) => LoggedIn(r.value, now, u)
      case OnSession(SocialLogin(_, _, _)) => LoggedIn(r.value, now, u)
      case _ => u
  }

  function LoggedIn(reply: Reply, now: Time, u: User): User {
    if reply.SessionReply? && reply.session.userId == u.id then u.(lastLoginAt := Some(now), updatedAt := now) else u
  }

  /** A new active user with the address, and the role and verification asked for, which a
      single owner always has. */
  predicate AsRequested(cfg: Config, u: User, env: Env, email: Option<string>, role: Role, verified: bool,
                        last: Option<Time>)
  {
    && u.id == env.drawn.user && Some(u.email) == email && u.status == Active
    && u.updatedAt == env.now && u.lastLoginAt == last
    && u.role == (if cfg.profile == SingleOwner then Owner else role)
    && u.verified == (cfg.profile == SingleOwner || verified)
  }

  /** How a call with this answer registers a user. Links and social logins register plain users. */
  predicate Registers(cfg: Config, s: Store, call: Call, r: Res<Reply>, env: Env, u: User) {
    var last := if r.Ok? then Some(env.now) else None;
    match call
    case Account(CreateUserWith(email, role, _, verified)) =>
      AsRequested(cfg, u, env, cfg.normalize(email), role, verified, None)
    case Account(Bootstrap(email, _)) =>
      && cfg.normalize(email).Some?
      && AsRequested(cfg, u, env, cfg.normalize(cfg.normalize(email).value), Owner, true, None)
    case Account(UseMagicLink(token)) =>
      AsRequested(cfg, u, env, Some(u.email), Role.User, true, last) && SentTo(cfg, s, token, u.email)
    case OnSession(SocialLogin(p, _, _)) =>
      AsRequested(cfg, u, env, cfg.normalize(p.email), Role.User, p.emailVerified, last)
    case _ => false
  }

  /** The flow of this token went to this address. */
  predicate SentTo(cfg: Config, s: Store, token: Secret, email: string) {
    exists f :: f in s.flows && s.flows[f].stateHash == HashOf(token)
      && s.flows[f].email.Some? && cfg.normalize(s.flows[f].email.value) == Some(email)
  }

  ghost predicate Follow(cfg: Config, s: Store, call: Call, env: Env, r: Res<Reply>, users: map<UserId, User>) {
    && (forall id :: id in s.users ==> id in users && users[id] == RecordAfter(call, r, env.now, s.users[id]))
    && (forall id :: id in users && id !in s.users ==>
          id == env.drawn.user && Registers(cfg, s, call, r, env, users[id]))
  }

  lemma StoredIds(cfg: Config, s: Store)
    requires Inv(cfg, s)
    ensures forall id :: id in s.users ==> s.users[id].id == id
  {
    hide SessionsIndexed, FlowsIndexed, CredentialsIndexed, IdentitiesKeyed, FactorsListed, CodesListed, Snapshots;
  }

  // ----- Parts of calls -----

  /** The user drawn is added as requested, and no other record changes. */
  predicate Adds(cfg: Config, a: map<UserId, User>, b: map<UserId, User>, env: Env, email: Option<string>, role: Role,
                 verified: bool)
  {
    && env.drawn.user in b && b == a[env.drawn.user := b[env.drawn.user]]
    && AsRequested(cfg, b[env.drawn.user], env, email, role, verified, None)
  }

  lemma UserAdded(cfg: Config, s: Store, email: string, role: Role, password: string, verified: bool, env: Env)
    ensures var (s', r) := CreateUserCall(cfg, s, email, role, password, verified, env);
      || (r.Err? && s'.users == s.users)
      || (&& Adds(cfg, s.users, s'.users, env, cfg.normalize(email), role, verified)
          && (r.Ok? ==> r.value == s'.users[env.drawn.user]) && (password == "" ==> r.Ok?))
  {
    hide IsOwnerEmail, EmailKey, SetPassword, UpsertIdentity, CreateUser;
    if cfg.normalize(email).Some? {
      var u := NewUser(cfg, cfg.normalize(email).value, role, verified, env);
      CreateUserFrame(s, u);
      CreateUserRefused(s, u);
      F.StoreUserLeaves(cfg, s, u, password, env);
    }
  }

  lemma CreateUserRefused(s: Store, u: User)
    ensures CreateUser(s, u).1.Err? ==> CreateUser(s, u).0 == s
  {
    hide EmailKey;
  }

  lemma LoginUsers(cfg: Config, s: Store, u: User, provider: string, env: Env)
    requires u.id in s.users
    ensures var (s', x) := LoginWith(cfg, s, u, provider, env);
      && s'.users == Recorded(s.users, u, x.Ok?, env.now) && (x.Ok? ==> x.value.userId == u.id)
    ensures var (s', x) := FinishLogin(cfg, s, u, provider, env);
      && s'.users == Recorded(s.users, u, x.Ok?, env.now) && (x.Ok? ==> x.value.userId == u.id)
  {
    hide CreateSession, UpdateUser, ProfileObjection, NewSession;
    var x := NewSession(cfg, u, provider, env);
    SessionBelongs(cfg, u, provider, env);
    SessionStored(s, x);
    UpdateSucceeds(CreateSession(s, x).0, u.(lastLoginAt := Some(env.now), updatedAt := env.now));
  }

  function Recorded(users: map<UserId, User>, u: User, login: bool, now: Time): map<UserId, User> {
    if login then users[u.id := u.(lastLoginAt := Some(now), updatedAt := now)] else users
  }

  lemma SessionStored(s: Store, x: Session)
    ensures CreateSession(s, x).0.users == s.users && (CreateSession(s, x).1.Ok? ==> CreateSession(s, x).1.value == x)
  {
  }

  lemma KeptFollow(cfg: Config, s: Store, call: Call, env: Env, r: Res<Reply>, users: map<UserId, User>)
    requires users == s.users
    requires r.Ok? ==> forall id :: id in s.users ==> RecordAfter(call, r, env.now, s.users[id]) == s.users[id]
    ensures Follow(cfg, s, call, env, r, users)
  {
  }

  /** A login of a stored user, or of one just registered. */
  lemma LoginFollows(cfg: Config, s: Store, call: Call, env: Env, r: Res<Reply>, users: map<UserId, User>, u: User,
                     users': map<UserId, User>)
    requires Inv(cfg, s) && env.drawn.user !in s.users
    requires if call.Account? then call.account.PasswordLogin? || call.account.UseMagicLink?
      else call.OnSession? && call.sessionCall.SocialLogin?
    requires u.id in users && users[u.id] == u
    requires users' == Recorded(users, u, r.Ok?, env.now)
    requires r.Ok? ==> r.value.SessionReply? && r.value.session.userId == u.id
    requires users == s.users || (users == s.users[env.drawn.user := u] && u.id == env.drawn.user
      && Registers(cfg, s, call, r, env, users'[u.id]))
    ensures Follow(cfg, s, call, env, r, users')
  {
    hide Inv, Registers;
    StoredIds(cfg, s);
  }

  // ----- Calls -----

  lemma CreationsFollow(cfg: Config, s: Store, call: AccountCall, env: Env)
    requires Inv(cfg, s) && env.drawn.user !in s.users && (call.CreateUserWith? || call.Bootstrap?)
    ensures var (s', r) := AccountStep(cfg, s, call, env); Follow(cfg, s, Account(call), env, r, s'.users)
  {
    hide Inv, CreateUserCall, UserByEmail, SetPassword, IsOwnerEmail;
    match call
    case CreateUserWith(email, role, password, verified) => UserAdded(cfg, s, email, role, password, verified, env);
    case Bootstrap(email, password) =>
      if cfg.normalize(email).Some? {
        var normal := cfg.normalize(email).value;
        UserAdded(cfg, s, normal, Owner, password, true, env);
        if UserByEmail(s, normal).Some? {
          F.SetPasswordLeaves(cfg, s, UserByEmail(s, normal).value.id, password, Some(false), None, env);
        }
      }
  }

  lemma PasswordLoginFollows(cfg: Config, s: Store, email: string, password: string, env: Env)
    requires Inv(cfg, s) && env.drawn.user !in s.users
    ensures var (s', r) := OfSession(LoginPassword(cfg, s, email, password, env));
      Follow(cfg, s, Account(PasswordLogin(email, password)), env, r, s'.users)
  {
    hide Inv, UserByEmail, ProfileObjection, PasswordCredential, FinishLogin, Follow;
    var call := Account(PasswordLogin(email, password));
    var (s', r) := OfSession(LoginPassword(cfg, s, email, password, env));
    if cfg.normalize(email).Some? && UserByEmail(s, cfg.normalize(email).value).Some? {
      var u := UserByEmail(s, cfg.normalize(email).value).value;
      StoredUser(cfg, s, cfg.normalize(email).value);
      LoginUsers(cfg, s, u, "email", env);
      LoginFollows(cfg, s, call, env, r, s.users, u, s'.users);
    } else {
      KeptFollow(cfg, s, call, env, r, s'.users);
    }
  }

  lemma ConsumedFlowIsStored(cfg: Config, s: Store, token: Secret, kind: FlowKind, provider: string, now: Time)
    requires Inv(cfg, s) && ConsumeFlow(s, HashOf(token), kind, provider, now).1.Some?
    ensures var f := ConsumeFlow(s, HashOf(token), kind, provider, now).1.value;
      f.id in s.flows && s.flows[f.id].stateHash == HashOf(token) && s.flows[f.id].email == f.email
  {
    hide UsersIndexed, Snapshots, IdentitiesKeyed, SessionsIndexed, CredentialsIndexed, FactorsListed, CodesListed;
  }

  lemma MagicLinkFollows(cfg: Config, s: Store, token: Secret, env: Env)
    requires Inv(cfg, s) && env.drawn.user !in s.users
    ensures var (s', r) := OfSession(ConsumeMagicLink(cfg, s, token, env));
      Follow(cfg, s, Account(UseMagicLink(token)), env, r, s'.users)
  {
    hide Inv, ConsumeFlow, UserByEmail, LoginWith, CreateUserCall, Follow;
    var call := Account(UseMagicLink(token));
    var (s', r) := OfSession(ConsumeMagicLink(cfg, s, token, env));
    F.ConsumeFlowLeaves(s, HashOf(token), MagicLink, "email", env.now);
    ConsumeLeaves(s, HashOf(token), MagicLink, "email", env.now);
    var (s1, consumed) := ConsumeFlow(s, HashOf(token), MagicLink, "email", env.now);
    if consumed == None || consumed.value.email == None || consumed.value.email == Some("") {
      KeptFollow(cfg, s, call, env, r, s'.users);
    } else {
      var email := consumed.value.email.value;
      ConsumedFlowIsStored(cfg, s, token, MagicLink, "email", env.now);
      SameLookup(s, s1, email);
      StoredUser(cfg, s, email);
      var found := UserByEmail(s1, email);
      if found.Some? {
        LoginUsers(cfg, s1, found.value, "email", env);
        LoginFollows(cfg, s, call, env, r, s.users, found.value, s'.users);
      } else {
        MagicRegistrationFollows(cfg, s, s1, token, email, consumed.value.id, env);
      }
    }
  }

  lemma SameLookup(a: Store, b: Store, email: string)
    requires b.users == a.users && b.usersByEmail == a.usersByEmail
    ensures UserByEmail(b, email) == UserByEmail(a, email)
  {
    hide EmailKey;
  }

  lemma MagicRegistrationFollows(cfg: Config, s: Store, s1: Store, token: Secret, email: string, f: FlowId, env: Env)
    requires Inv(cfg, s) && env.drawn.user !in s.users && s1.users == s.users
    requires f in s.flows && s.flows[f].stateHash == HashOf(token) && s.flows[f].email == Some(email)
    ensures var role := if cfg.profile == SingleOwner then Owner else Role.User;
      var (s2, created) := CreateUserCall(cfg, s1, email, role, "", true, env);
      var (s', r) := if created.Err? then (s2, Err(created.error))
                     else OfSession(LoginWith(cfg, s2, created.value, "email", env));
      Follow(cfg, s, Account(UseMagicLink(token)), env, r, s'.users)
  {
    hide Inv, CreateUserCall, LoginWith, Follow;
    var role := if cfg.profile == SingleOwner then Owner else Role.User;
    var call := Account(UseMagicLink(token));
    UserAdded(cfg, s1, email, role, "", true, env);
    var (s2, created) := CreateUserCall(cfg, s1, email, role, "", true, env);
    if created.Ok? {
      LoginUsers(cfg, s2, created.value, "email", env);
      var (s', r) := OfSession(LoginWith(cfg, s2, created.value, "email", env));
      assert SentTo(cfg, s, token, created.value.email);
      LoginFollows(cfg, s, call, env, r, s2.users, created.value, s'.users);
    } else {
      KeptFollow(cfg, s, call, env, Err(created.error), s2.users);
    }
  }

  lemma VerificationFollows(cfg: Config, s: Store, token: Secret, env: Env)
    requires Inv(cfg, s)
    ensures var (s', r) := OfUser(ConsumeVerification(cfg, s, token, env));
      Follow(cfg, s, Account(UseVerification(token)), env, r, s'.users)
  {
    hide Inv, ConsumeFlow, FlowUser, UpdateUser, UpsertIdentity, GetIdentity, Reached;
    StoredIds(cfg, s);
    F.ConsumeFlowLeaves(s, HashOf(token), EmailVerification, "email", env.now);
    var (s1, consumed) := ConsumeFlow(s, HashOf(token), EmailVerification, "email", env.now);
    if consumed.Some? {
      Begin(cfg, s, At(env.now));
      ConsumeFlowKeeps(cfg, s, s, HashOf(token), EmailVerification, "email", At(env.now));
      FlowUserFound(cfg, s, s1, consumed.value, At(env.now));
      if FlowUser(s1, consumed.value).Some? {
        var u := FlowUser(s1, consumed.value).value.(verified := true, updatedAt := env.now);
        F.UpdateUserLeaves(s1, u);
        UpdateSucceeds(s1, u);
        var s2 := UpdateUser(s1, u).0;
        var found := GetIdentity(s2, "email", u.email);
        if found.Some? {
          F.IdentityLeaves(s2, found.value.(verified := true));
        }
      }
    }
  }

  lemma UpdateSucceeds(s: Store, u: User)
    ensures UpdateUser(s, u).1.Ok? <==> u.id in s.users
    ensures UpdateUser(s, u).0.users == if u.id in s.users then s.users[u.id := u] else s.users
  {
    hide EmailKey;
  }

  lemma ResetFollows(cfg: Config, s: Store, token: Secret, password: string, env: Env)
    ensures var (s', r) := OfUser(ConsumeReset(cfg, s, token, password, env));
      Follow(cfg, s, Account(UseReset(token, password)), env, r, s'.users)
  {
    hide ConsumeFlow, FlowUser, SetPassword, RevokeForUser, IsOwnerEmail;
    F.ConsumeFlowLeaves(s, HashOf(token), PasswordReset, "email", env.now);
    var (s1, consumed) := ConsumeFlow(s, HashOf(token), PasswordReset, "email", env.now);
    if consumed.Some? && FlowUser(s1, consumed.value).Some? {
      var id := FlowUser(s1, consumed.value).value.id;
      F.SetPasswordLeaves(cfg, s1, id, password, Some(false), None, env);
      F.RevokeForUserLeaves(SetPassword(cfg, s1, id, password, Some(false), None, env).0, id, None, env.now);
    }
  }

  lemma AccountsFollow(cfg: Config, s: Store, call: AccountCall, env: Env)
    requires Inv(cfg, s) && env.drawn.user !in s.users
    ensures var (s', r) := AccountStep(cfg, s, call, env); Follow(cfg, s, Account(call), env, r, s'.users)
  {
    hide Inv, Follow, CreateUserCall, BootstrapOwner, SetPassword, LoginPassword, RequestMagicLink, ConsumeMagicLink,
      RequestVerification, ConsumeVerification, RequestReset, ConsumeReset;
    var (s', r) := AccountStep(cfg, s, call, env);
    match call
    case CreateUserWith(_, _, _, _) => CreationsFollow(cfg, s, call, env);
    case Bootstrap(_, _) => CreationsFollow(cfg, s, call, env);
    case ChangePassword(user, password, revoke, except) =>
      F.SetPasswordLeaves(cfg, s, user, password, revoke, except, env);
      KeptFollow(cfg, s, Account(call), env, r, s'.users);
    case PasswordLogin(email, password) => PasswordLoginFollows(cfg, s, email, password, env);
    case AskMagicLink(email, safe) =>
      F.RequestsLeave(cfg, s, email, safe, None, None, env);
      KeptFollow(cfg, s, Account(call), env, r, s'.users);
    case UseMagicLink(token) => MagicLinkFollows(cfg, s, token, env);
    case AskVerification(id, address) =>
      F.RequestsLeave(cfg, s, "", true, id, address, env);
      KeptFollow(cfg, s, Account(call), env, r, s'.users);
    case UseVerification(token) => VerificationFollows(cfg, s, token, env);
    case AskReset(email) =>
      F.RequestsLeave(cfg, s, email, true, None, None, env);
      KeptFollow(cfg, s, Account(call), env, r, s'.users);
    case UseReset(token, password) => ResetFollows(cfg, s, token, password, env);
  }

  /** The user of a social login is stored as it was, or registered for it. */
  lemma SocialUserUsers(cfg: Config, s: Store, p: SocialProfile, env: Env)
    requires Inv(cfg, s)
    ensures var (s', user) := SocialUser(cfg, s, p, env);
      && (user.Ok? ==> user.value.id in s'.users && s'.users[user.value.id] == user.value)
      && (|| s'.users == s.users
          || (user.Ok? && Adds(cfg, s.users, s'.users, env, cfg.normalize(p.email), Role.User, p.emailVerified)
              && user.value == s'.users[env.drawn.user]))
  {
    hide Inv, CreateUserCall, UpsertIdentity, UserByEmail, GetIdentity, Reached, Adds;
    Begin(cfg, s, At(env.now));
    SocialUserFrame(cfg, s, s, p, env, At(env.now));
    var role := if cfg.profile == SingleOwner then Owner else Role.User;
    UserAdded(cfg, s, p.email, role, "", p.emailVerified, env);
    var s1 := CreateUserCall(cfg, s, p.email, role, "", p.emailVerified, env).0;
    RoleByProfile(cfg, s.users, s1.users, env, p);
    F.ProfileLeaves(s, p);
    F.ProfileLeaves(s1, p);
  }

  lemma RoleByProfile(cfg: Config, a: map<UserId, User>, b: map<UserId, User>, env: Env, p: SocialProfile)
    ensures Adds(cfg, a, b, env, cfg.normalize(p.email), if cfg.profile == SingleOwner then Owner else Role.User,
                 p.emailVerified)
      <==> Adds(cfg, a, b, env, cfg.normalize(p.email), Role.User, p.emailVerified)
    ensures Adds(cfg, a, b, env, cfg.normalize(p.email), Role.User, p.emailVerified) ==> env.drawn.user in b
  {
  }

  lemma SocialLoginFollows(cfg: Config, s: Store, p: SocialProfile, given: Option<Secret>, nonce: Option<Secret>,
                           env: Env)
    requires Inv(cfg, s) && env.drawn.user !in s.users
    ensures var (s', r) := OfSession(LoginSocial(cfg, s, p, given, nonce, env));
      Follow(cfg, s, OnSession(SocialLogin(p, given, nonce)), env, r, s'.users)
  {
    hide Inv, ConsumeSocialState, SocialUser, LoginWith, Follow, Reached;
    var call := OnSession(SocialLogin(p, given, nonce));
    var (s', r) := OfSession(LoginSocial(cfg, s, p, given, nonce, env));
    var s1 := if given.Some? then ConsumeSocialState(cfg, s, p.provider, given.value, nonce, env).0 else s;
    var at := At(env.now);
    Begin(cfg, s, at);
    if given.Some? {
      F.SocialStateLeaves(cfg, s, p.provider, given.value, nonce, env);
      ConsumeSocialKeeps(cfg, s, s, p.provider, given.value, nonce, env, at);
    }
    if given.Some? && ConsumeSocialState(cfg, s, p.provider, given.value, nonce, env).1.Err? {
      KeptFollow(cfg, s, call, env, r, s'.users);
    } else {
      SessionLifetimes.ReachedIsValid(cfg, s, s1, at);
      SocialUserUsers(cfg, s1, p, env);
      var (s2, user) := SocialUser(cfg, s1, p, env);
      if user.Ok? {
        LoginUsers(cfg, s2, user.value, p.provider, env);
        LoginFollows(cfg, s, call, env, r, s2.users, user.value, s'.users);
      } else {
        KeptFollow(cfg, s, call, env, r, s'.users);
      }
    }
  }

  lemma SessionCallsFollow(cfg: Config, s: Store, call: SessionCall, env: Env)
    requires Inv(cfg, s) && env.drawn.user !in s.users
    ensures var (s', r) := SessionCallStep(cfg, s, call, env); Follow(cfg, s, OnSession(call), env, r, s'.users)
  {
    hide Inv, Follow, BeginSocialLogin, ConsumeSocialState, LoginSocial, VerifySession, RevokeSession, Cleanup,
      SessionByHash;
    var (s', r) := SessionCallStep(cfg, s, call, env);
    match call
    case BeginSocial(provider, safe, nonce) =>
      F.BeginSocialLeaves(cfg, s, provider, safe, nonce, env);
      KeptFollow(cfg, s, OnSession(call), env, r, s'.users);
    case UseSocialState(provider, state, nonce) =>
      F.SocialStateLeaves(cfg, s, provider, state, nonce, env);
      KeptFollow(cfg, s, OnSession(call), env, r, s'.users);
    case SocialLogin(profile, given, nonce) => SocialLoginFollows(cfg, s, profile, given, nonce, env);
    case Verify(token, permission) =>
      F.VerifyLeaves(cfg, s, token, permission, env.now);
      KeptFollow(cfg, s, OnSession(call), env, r, s'.users);
    case LogoutWith(token) =>
      var found := SessionByHash(s, HashOf(token));
      F.RevokeLeaves(s, if found.Some? then found.value.id else 0, env.now);
      KeptFollow(cfg, s, OnSession(call), env, r, s'.users);
    case Revoke(session) =>
      F.RevokeLeaves(s, session, env.now);
      KeptFollow(cfg, s, OnSession(call), env, r, s'.users);
    case CleanupExpired =>
      F.CleanupLeaves(s, env.now);
      KeptFollow(cfg, s, OnSession(call), env, r, s'.users);
  }

  lemma FactorCallsFollow(cfg: Config, s: Store, call: FactorCall, env: Env)
    ensures var (s', r) := FactorStep(cfg, s, call, env); Follow(cfg, s, Second(call), env, r, s'.users)
  {
    hide Follow, VerifySession, BeginEnrollment, VerifyEnrollment, CreateCodes, StepUpTotp, StepUpRecovery;
    var (s', r) := FactorStep(cfg, s, call, env);
    match call {
      case NeedAal2(token) => F.VerifyLeaves(cfg, s, token, "", env.now);
      case BeginTotp(user) => F.BeginEnrollmentLeaves(cfg, s, user, env);
      case ConfirmTotp(user, factor, code) => F.EnrollmentLeaves(cfg, s, user, factor, code, env);
      case MakeCodes(user) => F.CreateCodesLeaves(s, user, env.drawn.codes);
      case StepUpWithTotp(token, code) => F.TotpStepUpLeaves(cfg, s, token, code, env);
      case StepUpWithCode(token, recovery) => F.RecoveryStepUpLeaves(cfg, s, token, recovery, env);
    }
    KeptFollow(cfg, s, Second(call), env, r, s'.users);
  }

  lemma AdminCallsFollow(cfg: Config, s: Store, call: AdminCall, env: Env)
    requires Inv(cfg, s)
    ensures var (s', r) := AdminStep(cfg, s, call, env); Follow(cfg, s, Administer(call), env, r, s'.users)
  {
    hide Inv, UpdateRole, Suspend, Reinstate, VerifySession, RevokeForUser, SetPassword, RevokeSession, Follow;
    match call
    case SetRole(actor, user, role) => RoleChangeFollows(cfg, s, actor, user, role, env);
    case Ban(actor, user) => SuspensionFollows(cfg, s, actor, user, Banned, env);
    case Disable(actor, user) => SuspensionFollows(cfg, s, actor, user, Disabled, env);
    case Unban(_, _) => ReinstatementFollows(cfg, s, call, env);
    case Enable(_, _) => ReinstatementFollows(cfg, s, call, env);
    case SetUserPassword(actor, user, password) =>
      var (s', r) := AdminStep(cfg, s, call, env);
      F.VerifyLeaves(cfg, s, actor, USERS_WRITE, env.now);
      var s1 := VerifySession(cfg, s, actor, USERS_WRITE, env.now).0;
      F.SetPasswordLeaves(cfg, s1, user, password, Some(false), None, env);
      F.RevokeForUserLeaves(SetPassword(cfg, s1, user, password, Some(false), None, env).0, user, None, env.now);
      KeptFollow(cfg, s, Administer(call), env, r, s'.users);
    case RevokeAsAdmin(actor, session) =>
      var (s', r) := AdminStep(cfg, s, call, env);
      F.VerifyLeaves(cfg, s, actor, SESSIONS_REVOKE, env.now);
      F.RevokeLeaves(VerifySession(cfg, s, actor, SESSIONS_REVOKE, env.now).0, session, env.now);
      KeptFollow(cfg, s, Administer(call), env, r, s'.users);
  }

  /** The record of one user is written as the call says, or nothing is. */
  lemma WriteFollows(cfg: Config, s: Store, call: AdminCall, env: Env, r: Res<Reply>, users: map<UserId, User>)
    requires Inv(cfg, s) && !call.SetUserPassword? && !call.RevokeAsAdmin?
    requires r.Ok? ==> call.user in s.users
    requires users == if r.Ok? then
        s.users[call.user := RecordAfter(Administer(call), r, env.now, s.users[call.user])] else s.users
    ensures Follow(cfg, s, Administer(call), env, r, users)
  {
    hide Inv;
    StoredIds(cfg, s);
  }

  lemma RoleChangeFollows(cfg: Config, s: Store, actor: Secret, user: UserId, role: Role, env: Env)
    requires Inv(cfg, s)
    ensures var (s', r) := OfUser(UpdateRole(cfg, s, actor, user, role, env));
      Follow(cfg, s, Administer(SetRole(actor, user, role)), env, r, s'.users)
  {
    hide Inv, VerifySession, UpdateUser, RevokeForUser, AnotherPrivileged, Privileged, Follow;
    var (s', r) := OfUser(UpdateRole(cfg, s, actor, user, role, env));
    StoredIds(cfg, s);
    F.VerifyLeaves(cfg, s, actor, USERS_WRITE, env.now);
    var s1 := VerifySession(cfg, s, actor, USERS_WRITE, env.now).0;
    if user in s1.users {
      Rewritten(s1, s1.users[user].(role := role, updatedAt := env.now), env.now);
    }
    WriteFollows(cfg, s, SetRole(actor, user, role), env, r, s'.users);
  }

  lemma SuspensionFollows(cfg: Config, s: Store, actor: Secret, user: UserId, status: UserStatus, env: Env)
    requires Inv(cfg, s) && status != Active
    ensures var (s', r) := OfUser(Suspend(cfg, s, actor, user, status, env));
      Follow(cfg, s, Administer(if status == Banned then Ban(actor, user) else Disable(actor, user)), env, r, s'.users)
  {
    hide Inv, VerifySession, UpdateUser, RevokeForUser, AnotherPrivileged, Privileged, Follow;
    var (s', r) := OfUser(Suspend(cfg, s, actor, user, status, env));
    var permission := if status == Banned then USERS_BAN else USERS_WRITE;
    StoredIds(cfg, s);
    F.VerifyLeaves(cfg, s, actor, permission, env.now);
    var s1 := VerifySession(cfg, s, actor, permission, env.now).0;
    if user in s1.users {
      Rewritten(s1, s1.users[user].(status := status, updatedAt := env.now), env.now);
    }
    WriteFollows(cfg, s, if status == Banned then Ban(actor, user) else Disable(actor, user), env, r, s'.users);
  }

  lemma ReinstatementFollows(cfg: Config, s: Store, call: AdminCall, env: Env)
    requires Inv(cfg, s) && (call.Unban? || call.Enable?)
    ensures var (s', r) := AdminStep(cfg, s, call, env); Follow(cfg, s, Administer(call), env, r, s'.users)
  {
    hide Inv, VerifySession, UpdateUser, RevokeForUser, Follow;
    var (s', r) := AdminStep(cfg, s, call, env);
    var p := Presented(Administer(call)).value;
    StoredIds(cfg, s);
    F.VerifyLeaves(cfg, s, p.0, p.1, env.now);
    var s1 := VerifySession(cfg, s, p.0, p.1, env.now).0;
    if call.user in s1.users {
      Rewritten(s1, s1.users[call.user].(status := Active, updatedAt := env.now), env.now);
    }
    WriteFollows(cfg, s, call, env, r, s'.users);
  }

  lemma Rewritten(s: Store, u: User, now: Time)
    ensures var (s', saved) := UpdateUser(s, u);
      && (saved.Ok? <==> u.id in s.users)
      && s'.users == (if u.id in s.users then s.users[u.id := u] else s.users)
      && RevokeForUser(s', u.id, None, now).users == s'.users
  {
    hide UpdateUser, RevokeForUser;
    UpdateSucceeds(s, u);
    F.RevokeForUserLeaves(UpdateUser(s, u).0, u.id, None, now);
  }

  /** Every call leaves every stored user as `RecordAfter` says, and adds at most the user it
      registers. */
  lemma UsersFollowCalls(cfg: Config, s: Store, call: Call, env: Env)
    requires Inv(cfg, s) && Unused(s, env.drawn)
    ensures var (s', r) := Step(cfg, s, call, env); Follow(cfg, s, call, env, r, s'.users)
  {
    hide Inv, Follow, AccountStep, SessionCallStep, FactorStep, AdminStep;
    match call
    case Account(c) => AccountsFollow(cfg, s, c, env);
    case OnSession(c) => SessionCallsFollow(cfg, s, c, env);
    case Second(c) => FactorCallsFollow(cfg, s, c, env);
    case Administer(c) => AdminCallsFollow(cfg, s, c, env);
  }

  // ----- Roles over runs -----

  /** The call with this answer gives the user this role: it sets it, or it registers the user
      with it. */
  predicate Gives(cfg: Config, e: Event, r: Res<Reply>, id: UserId, role: Role) {
    match e.call
    case Administer(SetRole(_, user, asked)) => r.Ok? && user == id && role == asked
    case Account(CreateUserWith(_, asked, _, _)) =>
      e.env.drawn.user == id && role == if cfg.profile == SingleOwner then Owner else asked
    case Account(Bootstrap(_, _)) => e.env.drawn.user == id && role == Owner
    case Account(UseMagicLink(_)) =>
      e.env.drawn.user == id && role == if cfg.profile == SingleOwner then Owner else Role.User
    case OnSession(SocialLogin(_, _, _)) =>
      e.env.drawn.user == id && role == if cfg.profile == SingleOwner then Owner else Role.User
    case _ => false
  }

  /** From the `i`-th prefix of the run on, the user has the role. */
  ghost predicate Stands(cfg: Config, s: Store, events: seq<Event>, i: nat, id: UserId, role: Role) {
    forall j :: i <= j <= |events| ==>
      id in Run(cfg, s, events[..j]).users && Run(cfg, s, events[..j]).users[id].role == role
  }

  lemma RoleKeptOrGiven(cfg: Config, s: Store, e: Event, id: UserId)
    requires Inv(cfg, s) && Unused(s, e.env.drawn) && id in Step(cfg, s, e.call, e.env).0.users
    ensures var (s', r) := Step(cfg, s, e.call, e.env);
      (id in s.users && s'.users[id].role == s.users[id].role) || Gives(cfg, e, r, id, s'.users[id].role)
  {
    hide Inv, Unused, Step, SentTo;
    UsersFollowCalls(cfg, s, e.call, e.env);
    StoredIds(cfg, s);
  }

  /** After any run every user has the role it had at the start, or the one an earlier call gave
      it by name or by registering it, and has had it ever since. */
  lemma {:induction false} RolesAreGiven(cfg: Config, s: Store, events: seq<Event>, id: UserId)
    requires Inv(cfg, s) && FreshRun(cfg, s, events) && id in Run(cfg, s, events).users
    ensures var role := Run(cfg, s, events).users[id].role;
      exists i: nat :: i <= |events| && Stands(cfg, s, events, i, id, role)
        && (i > 0 ==> Gives(cfg, events[i - 1], Answer(cfg, s, events[..i]), id, role))
    decreases |events|
  {
    hide Inv, Unused, Step, Gives;
    assert events[..|events|] == events;
    var role := Run(cfg, s, events).users[id].role;
    if events == [] {
      assert Stands(cfg, s, events, 0, id, role);
    } else {
      var last := |events| - 1;
      var init, e := events[..last], events[last];
      RunKeeps(cfg, s, init);
      var before := Run(cfg, s, init);
      RoleKeptOrGiven(cfg, before, e, id);
      if id in before.users && before.users[id].role == role {
        RolesAreGiven(cfg, s, init, id);
        var i: nat :| i <= |init| && Stands(cfg, s, init, i, id, role)
          && (i > 0 ==> Gives(cfg, init[i - 1], Answer(cfg, s, init[..i]), id, role));
        StandsLonger(cfg, s, events, i, id, role);
        assert init[..i] == events[..i];
      } else {
        assert Stands(cfg, s, events, |events|, id, role);
      }
    }
  }

  lemma StandsLonger(cfg: Config, s: Store, events: seq<Event>, i: nat, id: UserId, role: Role)
    requires events != [] && i < |events| && Stands(cfg, s, events[..|events| - 1], i, id, role)
    requires id in Run(cfg, s, events).users && Run(cfg, s, events).users[id].role == role
    ensures Stands(cfg, s, events, i, id, role)
  {
    hide Step;
    var init := events[..|events| - 1];
    forall j | i <= j <= |events|
      ensures id in Run(cfg, s, events[..j]).users && Run(cfg, s, events[..j]).users[id].role == role
    {
      if j < |events| {
        assert events[..j] == init[..j];
      } else {
        assert events[..j] == events;
      }
    }
  }

  /** Outside the single-owner profile, a user who is newly an owner or admin was made so by a
      call naming that role, or by the bootstrap: no link, login or verification does it. */
  lemma PrivilegeIsNamed(cfg: Config, s: Store, events: seq<Event>, id: UserId)
    requires Inv(cfg, s) && FreshRun(cfg, s, events) && cfg.profile != SingleOwner
    requires id in Run(cfg, s, events).users
    requires Run(cfg, s, events).users[id].role == Owner || Run(cfg, s, events).users[id].role == Admin
    requires id in s.users ==> s.users[id].role != Run(cfg, s, events).users[id].role
    ensures var role := Run(cfg, s, events).users[id].role;
      exists i: nat :: i < |events| && MakesPrivileged(events[i].call, id, events[i].env.drawn.user, role)
  {
    hide Inv, FreshRun, Run;
    RolesAreGiven(cfg, s, events, id);
    var role := Run(cfg, s, events).users[id].role;
    var i: nat :| i <= |events| && Stands(cfg, s, events, i, id, role)
      && (i > 0 ==> Gives(cfg, events[i - 1], Answer(cfg, s, events[..i]), id, role));
    if i == 0 {
      RoleAtStart(cfg, s, events, id, role);
    } else {
      assert MakesPrivileged(events[i - 1].call, id, events[i - 1].env.drawn.user, role);
    }
  }

  lemma RoleAtStart(cfg: Config, s: Store, events: seq<Event>, id: UserId, role: Role)
    requires Stands(cfg, s, events, 0, id, role)
    ensures id in s.users && s.users[id].role == role
  {
    assert id in Run(cfg, s, events[..0]).users;
  }

  /** The call sets this role, creates the user with it, or bootstraps the owner. */
  predicate MakesPrivileged(call: Call, id: UserId, drawn: UserId, role: Role) {
    match call
    case Administer(SetRole(_, user, asked)) => user == id && asked == role
    case Account(CreateUserWith(_, asked, _, _)) => drawn == id && asked == role
    case Account(Bootstrap(_, _)) => drawn == id && role == Owner
    case _ => false
  }

  // ----- Creating users -----

  /** The address and profile let the user be created: the address is normal and free, and the
      owner's own when there is a single owner. */
  predicate Creatable(cfg: Config, s: Store, email: string) {
    var normal := cfg.normalize(email);
    && normal.Some? && (forall u :: u in s.users ==> EmailKey(s.users[u].email) != EmailKey(normal.value))
    && (cfg.profile == SingleOwner ==> cfg.ownerEmail != "" && Lower(normal.value) == Lower(cfg.ownerEmail))
  }

  /** Exactly then the user is stored as requested. A password of fewer than eight characters is
      refused only afterwards: the call fails, but the user stays, without a password. */
  lemma CreateUserMeaning(cfg: Config, s: Store, email: string, role: Role, password: string, verified: bool, env: Env)
    requires Inv(cfg, s) && env.drawn.user !in s.users
    ensures var (s', r) := CreateUserCall(cfg, s, email, role, password, verified, env);
      && (Creatable(cfg, s, email) <==>
            Adds(cfg, s.users, s'.users, env, cfg.normalize(email), role, verified))
      && (!Creatable(cfg, s, email) ==> s'.users == s.users)
      && (r.Ok? <==> Creatable(cfg, s, email) && (password == "" || |password| >= 8))
      && (r.Ok? ==> r.value == s'.users[env.drawn.user])
  {
    hide Inv, EmailKey, SetPassword, UpsertIdentity, CreateUser, UsersIndexed, CredentialsIndexed, FactorsListed,
      CodesListed;
    ValidCredentials(cfg, s);
    if cfg.normalize(email).Some? {
      var u := NewUser(cfg, cfg.normalize(email).value, role, verified, env);
      CreateUserFrame(s, u);
      CreateUserRefused(s, u);
      AddressTaken(s, cfg.normalize(email).value);
      F.StoreUserLeaves(cfg, s, u, password, env);
      var s1 := UpsertIdentity(CreateUser(s, u).0, Identity(u.id, "email", u.email, u.email, u.verified));
      F.IdentityLeaves(CreateUser(s, u).0, Identity(u.id, "email", u.email, u.email, u.verified));
      PasswordSetMeaning(cfg, s1, u.id, password, Some(false), None, env);
    }
  }

  lemma AddressTaken(s: Store, email: string)
    requires UsersIndexed(s.users, s.usersByEmail)
    ensures EmailKey(email) in s.usersByEmail
      <==> exists u :: u in s.users && EmailKey(s.users[u].email) == EmailKey(email)
  {
    hide EmailKey;
    if EmailKey(email) in s.usersByEmail {
      var u := s.usersByEmail[EmailKey(email)];
      assert u in s.users && EmailKey(s.users[u].email) == EmailKey(email);
    }
  }

  lemma PasswordSetMeaning(cfg: Config, s: Store, id: UserId, password: string, revoke: Option<bool>,
                           except: Option<SessionId>, env: Env)
    ensures SetPassword(cfg, s, id, password, revoke, except, env).1.Ok? <==> id in s.users && |password| >= 8
  {
    hide PasswordCredential, UpsertCredential, RevokeForUser;
  }

  predicate HasAddress(s: Store, user: UserId, email: string) {
    user in s.users && EmailKey(s.users[user].email) == EmailKey(email)
  }

  /** A bootstrap is for the configured owner's address alone. It sets the password of the user
      there, or creates an owner, and refuses a weak password. */
  lemma BootstrapMeaning(cfg: Config, s: Store, email: string, password: string, env: Env)
    requires Inv(cfg, s) && env.drawn.user !in s.users && env.drawn.credential !in s.credentials
    ensures var (s', r) := BootstrapOwner(cfg, s, email, password, env);
      var normal := cfg.normalize(email);
      if normal == None || cfg.ownerEmail == "" || Lower(normal.value) != Lower(cfg.ownerEmail) then
        r.Err? && s' == s
      else if exists user :: HasAddress(s, user, normal.value) then
        && s'.users == s.users && (r.Ok? <==> password == "" || |password| >= 8)
        && (r.Ok? ==> HasAddress(s, r.value.id, normal.value) && r.value == s.users[r.value.id])
        && (r.Ok? && password != "" ==> HasPassword(s', r.value.id, password))
      else
        && (r.Ok? <==> Creatable(cfg, s, normal.value) && (password == "" || |password| >= 8))
        && (Creatable(cfg, s, normal.value) ==>
              Adds(cfg, s.users, s'.users, env, cfg.normalize(normal.value), Owner, true))
  {
    hide Inv, EmailKey, UserByEmail, SetPassword, CreateUserCall, UsersIndexed, CredentialsIndexed, FactorsListed,
      CodesListed, HasPassword, Creatable, Adds, Lower;
    ValidCredentials(cfg, s);
    if cfg.normalize(email).Some? {
      var normal := cfg.normalize(email).value;
      var found := UserByEmail(s, normal);
      CreateUserMeaning(cfg, s, normal, Owner, password, true, env);
      forall user ensures HasAddress(s, user, normal) <==> found.Some? && found.value.id == user {
        UserOfAddress(s, normal, user);
      }
      if found.Some? {
        var id := found.value.id;
        UserOfAddress(s, normal, id);
        assert HasAddress(s, id, normal);
        PasswordSetMeaning(cfg, s, id, password, Some(false), None, env);
        F.SetPasswordLeaves(cfg, s, id, password, Some(false), None, env);
        if |password| >= 8 {
          PasswordReplaced(cfg, s, id, password, Some(false), None, env, id, password);
        }
      }
    }
  }

  /** Addresses of ASCII characters that differ in outer whitespace and capitals only are one. */
  lemma AddressesUpToCase(a: string, address: string, b: string, lower: string)
    requires AllSpace(a) && AllSpace(b) && Trimmed(address) && address != ""
    requires |lower| == |address| && forall i :: 0 <= i < |lower| ==> LowerOf(address[i], lower[i])
    ensures EmailKey(a + address + b) == lower
  {
    hide IsSpace, LowerOf, Lower;
    StripDrops(a, address, b);
    LowerMeaning(address, lower);
  }

  // ----- Address identities -----

  lemma AddressKey(address: string)
    ensures IdentityKey("email", address) == "email:" + address
  {
  }

  /** A created user's address is kept as an identity of its own, verified like the user. */
  lemma AddressIsIdentity(cfg: Config, s: Store, email: string, role: Role, password: string, verified: bool, env: Env)
    requires Inv(cfg, s) && Creatable(cfg, s, email)
    ensures var s' := CreateUserCall(cfg, s, email, role, password, verified, env).0;
      var normal := cfg.normalize(email).value;
      s'.identities == if normal == "" then s.identities
        else s.identities["email:" + normal := Identity(env.drawn.user, "email", normal, normal,
                                                        cfg.profile == SingleOwner || verified)]
  {
    hide Inv, EmailKey, IdentityKey, SetPassword, UpsertIdentity, CreateUser, UsersIndexed, CredentialsIndexed,
      FactorsListed, CodesListed;
    ValidCredentials(cfg, s);
    var normal := cfg.normalize(email).value;
    var u := NewUser(cfg, normal, role, verified, env);
    AddressKey(normal);
    AddressTaken(s, normal);
    CreateUserFrame(s, u);
    var i := Identity(u.id, "email", u.email, u.email, u.verified);
    UpsertIdentityFrame(CreateUser(s, u).0, i);
    SetPasswordFrame(cfg, UpsertIdentity(CreateUser(s, u).0, i), u.id, password, Some(false), None, env);
  }

  /** A verification marks the identity of the user's address, if there is one, and no other. */
  lemma VerificationMarksIdentity(cfg: Config, s: Store, token: Secret, env: Env)
    requires Inv(cfg, s) && ConsumeVerification(cfg, s, token, env).1.Ok?
    ensures var (s', r) := ConsumeVerification(cfg, s, token, env);
      var key := "email:" + r.value.email;
      s'.identities == if key in s.identities && s.identities[key].subject != ""
        then s.identities[key := s.identities[key].(verified := true)] else s.identities
  {
    hide Inv, ConsumeFlow, FlowUser, UpdateUser, UpsertIdentity, IdentityKey;
    ConsumeLeaves(s, HashOf(token), EmailVerification, "email", env.now);
    var (s1, consumed) := ConsumeFlow(s, HashOf(token), EmailVerification, "email", env.now);
    var u := FlowUser(s1, consumed.value).value.(verified := true, updatedAt := env.now);
    UpdateKeepsIdentities(s1, u);
    var s2 := UpdateUser(s1, u).0;
    AddressKey(u.email);
    KeysAreOwn(cfg, s);
    if "email:" + u.email in s.identities {
      UpsertIdentityFrame(s2, s.identities["email:" + u.email].(verified := true));
    }
  }

  lemma UpdateKeepsIdentities(s: Store, u: User)
    ensures UpdateUser(s, u).0.identities == s.identities
  {
    hide EmailKey;
  }

  lemma KeysAreOwn(cfg: Config, s: Store)
    requires Inv(cfg, s)
    ensures forall k :: k in s.identities ==> k == IdentityKey(s.identities[k].provider, s.identities[k].subject)
  {
    hide UsersIndexed, SessionsIndexed, FlowsIndexed, CredentialsIndexed, FactorsListed, CodesListed, Snapshots;
  }
}

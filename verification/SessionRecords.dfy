/** What every call does to every session, field by field: when it is seen, raised and revoked, and
    how it is issued. */
module SessionRecords {
  import opened Prelude
  import opened Permissions
  import opened AuthModels
  import opened AuthStore
  import opened AuthCalls
  import opened AuthRuns
  import opened AuthInvariants
  import opened AuthSafety
  import opened AuthGuarantees
  import opened AuthMeaning
  import F = Footprints
  import UserRecords

  // ----- One record -----

  /** The interval since the session was last seen is over. */
  predicate Due(cfg: Config, x: Session, now: Time) {
    cfg.touchInterval == 0 || x.lastSeenAt == None || x.lastSeenAt.value + cfg.touchInterval <= now
  }

  function IdleEnd(cfg: Config, now: Time): Option<Time> {
    if cfg.idleTtl == 0 then None else Some(now + cfg.idleTtl)
  }

  /** The record after this token has been presented for this permission: a usable session is seen
      now when that is due, with a new idle deadline. */
  function Seen(cfg: Config, s: Store, presented: Option<(Secret, string)>, now: Time, x: Session): Session {
    if presented.Some? && UsableSession(cfg, s, x.id, HashOf(presented.value.0), presented.value.1, now)
      && Due(cfg, x, now)
    then x.(lastSeenAt := Some(now), idleExpiresAt := IdleEnd(cfg, now))
    else x
  }

  /** The session is past one of its two ends. */
  predicate Ended(x: Session, now: Time) {
    x.expiresAt <= now || (x.idleExpiresAt.Some? && x.idleExpiresAt.value <= now)
  }

  function RevokedIf(revoked: bool, x: Session, now: Time): Session {
    if revoked then x.(revokedAt := Some(now)) else x
  }

  /** A successful step-up with the session's token. */
  predicate Raises(call: Call, r: Res<Reply>, x: Session) {
    && r.Ok?
    && match call
       case Second(StepUpWithTotp(token, _)) => x.tokenHash == HashOf(token)
       case Second(StepUpWithCode(token, _)) => x.tokenHash == HashOf(token)
       case _ => false
  }

  /** The session belongs to the user whose password is set with a revocation or by a reset, whose
      role is set or who is disabled; or it is the one logged out or revoked; or it is past one of
      its ends at a cleanup. */
  predicate Revokes(cfg: Config, call: Call, r: Res<Reply>, now: Time, x: Session) {
    && r.Ok?
    && match call
       case Account(ChangePassword(user, _, revoke, except)) =>
         && x.userId == user && except != Some(x.id)
         && (revoke == Some(true) || (revoke == None && cfg.revokeOnPasswordChange))
       case Account(UseReset(_, _)) => cfg.revokeOnPasswordChange && r.value.UserReply? && r.value.user.id == x.userId
       case OnSession(LogoutWith(token)) => x.tokenHash == HashOf(token)
       case OnSession(Revoke(session)) => x.id == session
       case OnSession(CleanupExpired) => Ended(x, now)
       case Administer(SetRole(_, user, _)) => x.userId == user
       case Administer(Disable(_, user)) => x.userId == user
       case Administer(SetUserPassword(_, user, _)) => cfg.revokeOnPasswordChange && x.userId == user
       case Administer(RevokeAsAdmin(_, session)) => x.id == session
       case _ => false
  }

  /** The record of a stored session after a call with this answer. */
  function SessionAfter(cfg: Config, s: Store, call: Call, r: Res<Reply>, now: Time, x: Session): Session {
    var y := Seen(cfg, s, Presented(call), now, x);
    var z := if Raises(call, r, x) then y.(assurance := AAL2, lastSeenAt := Some(now)) else y;
    RevokedIf(x.revokedAt == None && Revokes(cfg, call, r, now, x), z, now)
  }

  /** The session a login issues: first level, unrevoked, seen now, for a stored user, under the
      user's address and role, and for exactly the two lifetimes. */
  predicate IssuedTo(cfg: Config, users: map<UserId, User>, x: Session, provider: string, env: Env) {
    && x.id == env.drawn.session && x.tokenHash == HashOf(env.drawn.sessionToken)
    && x.userId in users && x.email == users[x.userId].email && x.provider == provider
    && x.role == (if cfg.profile == SingleOwner then Owner else users[x.userId].role)
    && x.assurance == AAL1 && x.revokedAt == None && x.lastSeenAt == Some(env.now)
    && x.createdAt == env.now && x.expiresAt == env.now + cfg.sessionTtl && x.idleExpiresAt == IdleEnd(cfg, env.now)
  }

  /** How the call logs in; `None` for the calls that do not. */
  function LoginProvider(call: Call): Option<string> {
    match call
    case Account(PasswordLogin(_, _)) => Some("email")
    case Account(UseMagicLink(_)) => Some("email")
    case OnSession(SocialLogin(p, _, _)) => Some(p.provider)
    case _ => None
  }

  /** The call answers with a new session: exactly the logins do, when they succeed. */
  predicate LogsIn(call: Call, r: Res<Reply>) {
    LoginProvider(call).Some? && r.Ok?
  }

  ghost predicate Follow(cfg: Config, s: Store, call: Call, env: Env, r: Res<Reply>, s': Store) {
    && (forall id :: id in s.sessions ==>
          id in s'.sessions && s'.sessions[id] == SessionAfter(cfg, s, call, r, env.now, s.sessions[id]))
    && (forall id :: id in s'.sessions && id !in s.sessions ==> LogsIn(call, r) && id == env.drawn.session)
    && (LogsIn(call, r) ==>
          && env.drawn.session in s'.sessions && r == Ok(SessionReply(s'.sessions[env.drawn.session]))
          && IssuedTo(cfg, s'.users, s'.sessions[env.drawn.session], LoginProvider(call).value, env))
  }

  // ----- Verification -----

  lemma SessionIds(cfg: Config, s: Store)
    requires Inv(cfg, s)
    ensures forall id :: id in s.sessions ==>
      s.sessions[id].id == id && s.sessionsByHash[s.sessions[id].tokenHash] == id
  {
    hide UsersIndexed, FlowsIndexed, CredentialsIndexed, IdentitiesKeyed, FactorsListed, CodesListed, Snapshots;
  }

  /** A verification answers with the usable session of the token, as then seen, and its user. */
  lemma VerifiedAs(cfg: Config, s: Store, token: Secret, permission: string, now: Time)
    requires Inv(cfg, s)
    ensures var p := VerifySession(cfg, s, token, permission, now).1;
      && (p.Ok? <==> exists id :: UsableSession(cfg, s, id, HashOf(token), permission, now))
      && (forall id :: UsableSession(cfg, s, id, HashOf(token), permission, now) ==>
            && p.Ok? && p.value.user == s.users[s.sessions[id].userId]
            && p.value.session == Seen(cfg, s, Some((token, permission)), now, s.sessions[id]))
  {
    hide Inv, MayUse, SessionObjection, SessionByHash;
    VerifyOutcome(cfg, s, token, permission, now);
    SnapshotOutcome(cfg, s, token, permission, now);
    forall id | UsableSession(cfg, s, id, HashOf(token), permission, now)
      ensures VerifySession(cfg, s, token, permission, now).1.value.user == s.users[s.sessions[id].userId]
      ensures VerifySession(cfg, s, token, permission, now).1.value.session
           == Seen(cfg, s, Some((token, permission)), now, s.sessions[id])
    {
      UsableIsFound(cfg, s, id, token, permission, now);
    }
  }

  lemma UsableIsFound(cfg: Config, s: Store, id: SessionId, token: Secret, permission: string, now: Time)
    requires Inv(cfg, s) && UsableSession(cfg, s, id, HashOf(token), permission, now)
    ensures SessionByHash(s, HashOf(token)) == Some(s.sessions[id]) && s.sessions[id].id == id && Unrevoked(s, id)
  {
    hide UsersIndexed, FlowsIndexed, CredentialsIndexed, IdentitiesKeyed, FactorsListed, CodesListed, Snapshots, MayUse;
  }

  lemma FoundIsTheOne(cfg: Config, s: Store, h: Hash)
    requires Inv(cfg, s) && SessionByHash(s, h).Some?
    ensures var x := SessionByHash(s, h).value;
      x.id in s.sessions && s.sessions[x.id] == x && x.tokenHash == h
        && forall id :: id in s.sessions && s.sessions[id].tokenHash == h ==> id == x.id
  {
    hide UsersIndexed, FlowsIndexed, CredentialsIndexed, IdentitiesKeyed, FactorsListed, CodesListed, Snapshots;
  }

  /** Why a verification is refused: by what is wrong first, on the record and its user. */
  lemma VerifyRefusals(cfg: Config, s: Store, token: Secret, permission: string, now: Time)
    requires Inv(cfg, s)
    ensures var r := VerifySession(cfg, s, token, permission, now).1;
      && ((forall id :: id in s.sessions ==> s.sessions[id].tokenHash != HashOf(token)) ==>
            r == Err(AuthenticationFailed(InvalidSession)))
      && (forall id :: id in s.sessions && s.sessions[id].tokenHash == HashOf(token) ==>
            RefusedFor(cfg, s, s.sessions[id], permission, now, r))
  {
    hide Refresh, Allows, PermissionsFor, MayUse, UsersIndexed, FlowsIndexed, CredentialsIndexed, IdentitiesKeyed,
      FactorsListed, CodesListed;
    var h := HashOf(token);
    if h in s.sessionsByHash {
      var x := s.sessions[s.sessionsByHash[h]];
      assert x.userId in s.users;
      GrantsMeaning(cfg, s.users[x.userId], permission);
    }
  }

  predicate RefusedFor(cfg: Config, s: Store, x: Session, permission: string, now: Time, r: Res<Principal>) {
    if x.revokedAt.Some? then r == Err(AuthenticationFailed(InvalidSession))
    else if Ended(x, now) then r == Err(AuthenticationFailed(SessionExpired))
    else if x.userId !in s.users then true
    else if s.users[x.userId].status != Active then r == Err(AuthenticationFailed(UserInactive))
    else !MayUse(cfg, s.users[x.userId], permission) ==> r == Err(AuthorizationDenied(PermissionMissing))
  }

  /** The second level is let through exactly for a usable session that has it. */
  lemma Aal2Meaning(cfg: Config, s: Store, token: Secret, now: Time)
    requires Inv(cfg, s)
    ensures RequireAal2(cfg, s, token, now).1.Ok? <==>
      exists id :: UsableSession(cfg, s, id, HashOf(token), "", now) && s.sessions[id].assurance == AAL2
  {
    hide Inv, VerifySession, MayUse;
    VerifiedAs(cfg, s, token, "", now);
    if id :| UsableSession(cfg, s, id, HashOf(token), "", now) {
      forall other | UsableSession(cfg, s, other, HashOf(token), "", now)
        ensures Seen(cfg, s, Some((token, "")), now, s.sessions[other]).assurance == s.sessions[other].assurance
      {
      }
    }
  }

  ghost predicate AllSeen(cfg: Config, s: Store, presented: Option<(Secret, string)>, now: Time, s1: Store) {
    s1.sessions.Keys == s.sessions.Keys
    && forall id :: id in s.sessions ==> s1.sessions[id] == Seen(cfg, s, presented, now, s.sessions[id])
  }

  lemma NothingPresented(cfg: Config, s: Store, now: Time, s1: Store)
    requires s1.sessions == s.sessions
    ensures AllSeen(cfg, s, None, now, s1)
  {
  }

  lemma VerifySees(cfg: Config, s: Store, token: Secret, permission: string, now: Time)
    requires Inv(cfg, s)
    ensures AllSeen(cfg, s, Some((token, permission)), now, VerifySession(cfg, s, token, permission, now).0)
  {
    hide Inv, UsableSession, SessionObjection, SessionByHash, Refresh, Due, IdleEnd, AllSeen;
    VerifyOutcome(cfg, s, token, permission, now);
    SnapshotOutcome(cfg, s, token, permission, now);
    if id :| UsableSession(cfg, s, id, HashOf(token), permission, now) {
      UsableIsFound(cfg, s, id, token, permission, now);
      RefreshedIsSeen(cfg, s, token, permission, now, id);
    } else {
      NoneIsSeen(cfg, s, token, permission, now);
    }
  }

  lemma NoneIsSeen(cfg: Config, s: Store, token: Secret, permission: string, now: Time)
    requires !exists id :: UsableSession(cfg, s, id, HashOf(token), permission, now)
    ensures AllSeen(cfg, s, Some((token, permission)), now, s)
  {
    hide UsableSession;
  }

  lemma RefreshedIsSeen(cfg: Config, s: Store, token: Secret, permission: string, now: Time, id: SessionId)
    requires Inv(cfg, s) && UsableSession(cfg, s, id, HashOf(token), permission, now) && id in s.sessions
    ensures AllSeen(cfg, s, Some((token, permission)), now, Refresh(cfg, s, s.sessions[id], now).0)
  {
    hide Inv, UsableSession;
    SessionIds(cfg, s);
    UsableIsFound(cfg, s, id, token, permission, now);
    forall other | UsableSession(cfg, s, other, HashOf(token), permission, now) ensures other == id {
      UsableIsFound(cfg, s, other, token, permission, now);
    }
  }

  // ----- Writing sessions -----

  lemma LoginSessions(cfg: Config, s: Store, u: User, provider: string, env: Env)
    requires u.id in s.users && HashOf(env.drawn.sessionToken) !in s.sessionsByHash
    ensures var (s', x) := FinishLogin(cfg, s, u, provider, env);
      && x.Ok? && s'.sessions == s.sessions[env.drawn.session := x.value]
      && IssuedTo(cfg, s'.users, x.value, provider, env)
    ensures var (s', x) := LoginWith(cfg, s, u, provider, env);
      if x.Err? then s' == s
      else s'.sessions == s.sessions[env.drawn.session := x.value] && IssuedTo(cfg, s'.users, x.value, provider, env)
  {
    hide PermissionsFor, EmailKey, ProfileObjection;
  }

  /** Nothing is presented and no session is written. */
  lemma KeptFollow(cfg: Config, s: Store, call: Call, env: Env, r: Res<Reply>, s': Store)
    requires s'.sessions == s.sessions && Presented(call) == None && !IsStepUp(call) && !LogsIn(call, r)
    requires forall id :: id in s.sessions && s.sessions[id].revokedAt == None ==>
      !Revokes(cfg, call, r, env.now, s.sessions[id])
    ensures Follow(cfg, s, call, env, r, s')
  {
  }

  lemma LoginFollows(cfg: Config, s: Store, call: Call, env: Env, r: Res<Reply>, s': Store)
    requires LoginProvider(call).Some? && env.drawn.session !in s.sessions
    requires if r.Err? then s'.sessions == s.sessions
      else && r.value.SessionReply? && s'.sessions == s.sessions[env.drawn.session := r.value.session]
           && IssuedTo(cfg, s'.users, r.value.session, LoginProvider(call).value, env)
    ensures Follow(cfg, s, call, env, r, s')
  {
  }

  /** Exactly the sessions the call revokes are. */
  lemma RevocationFollows(cfg: Config, s: Store, call: Call, env: Env, r: Res<Reply>, s1: Store, s': Store)
    requires AllSeen(cfg, s, Presented(call), env.now, s1) && !IsStepUp(call) && !LogsIn(call, r)
    requires s'.sessions.Keys == s1.sessions.Keys
    requires forall id :: id in s.sessions ==> s'.sessions[id] == RevokedIf(
      s.sessions[id].revokedAt == None && Revokes(cfg, call, r, env.now, s.sessions[id]), s1.sessions[id], env.now)
    ensures Follow(cfg, s, call, env, r, s')
  {
    hide Revokes, Seen;
  }

  /** The sessions of the user but the spared one. */
  lemma UserRevoked(cfg: Config, s: Store, user: UserId, except: Option<SessionId>, now: Time)
    ensures var s' := RevokeForUser(s, user, except, now);
      && s'.sessions.Keys == s.sessions.Keys
      && forall id :: id in s.sessions ==> s'.sessions[id] == RevokedIf(
        s.sessions[id].userId == user && s.sessions[id].revokedAt == None && except != Some(id), s.sessions[id], now)
  {
  }

  lemma OneRevoked(s: Store, session: SessionId, now: Time)
    ensures var s' := RevokeSession(s, session, now);
      && s'.sessions.Keys == s.sessions.Keys
      && forall id :: id in s.sessions ==>
        s'.sessions[id] == RevokedIf(id == session && s.sessions[id].revokedAt == None, s.sessions[id], now)
  {
    if Unrevoked(s, session) {
    }
  }

  lemma ExpiredRevoked(s: Store, now: Time)
    ensures var s' := Cleanup(s, now);
      && s'.sessions.Keys == s.sessions.Keys
      && forall id :: id in s.sessions ==>
        s'.sessions[id]
          == RevokedIf(Ended(s.sessions[id], now) && s.sessions[id].revokedAt == None, s.sessions[id], now)
  {
  }

  // ----- Calls -----

  lemma PasswordChangeFollows(cfg: Config, s: Store, user: UserId, password: string, revoke: Option<bool>,
                              except: Option<SessionId>, env: Env)
    requires Inv(cfg, s)
    ensures var (s', r) := OfCredential(SetPassword(cfg, s, user, password, revoke, except, env));
      Follow(cfg, s, Account(ChangePassword(user, password, revoke, except)), env, r, s')
  {
    hide Inv, PasswordCredential, UpsertCredential, RevokeForUser, Follow, Seen;
    var call := Account(ChangePassword(user, password, revoke, except));
    var (s', r) := OfCredential(SetPassword(cfg, s, user, password, revoke, except, env));
    SessionIds(cfg, s);
    NothingPresented(cfg, s, env.now, s);
    if r.Ok? {
      var s1 := UpsertCredential(s, r.value.credential);
      F.CredentialLeaves(s, r.value.credential);
      NothingPresented(cfg, s, env.now, s1);
      UserRevoked(cfg, s1, user, except, env.now);
      RevocationFollows(cfg, s, call, env, r, s1, s');
    } else {
      RevocationFollows(cfg, s, call, env, r, s, s');
    }
  }

  lemma ResetFollows(cfg: Config, s: Store, token: Secret, password: string, env: Env)
    requires Inv(cfg, s)
    ensures var (s', r) := OfUser(ConsumeReset(cfg, s, token, password, env));
      Follow(cfg, s, Account(UseReset(token, password)), env, r, s')
  {
    hide Inv, ConsumeFlow, FlowUser, SetPassword, RevokeForUser, IsOwnerEmail, Follow, Seen;
    var call := Account(UseReset(token, password));
    var (s', r) := OfUser(ConsumeReset(cfg, s, token, password, env));
    SessionIds(cfg, s);
    F.ConsumeFlowLeaves(s, HashOf(token), PasswordReset, "email", env.now);
    var (s1, consumed) := ConsumeFlow(s, HashOf(token), PasswordReset, "email", env.now);
    var s2 := s1;
    if consumed.Some? && FlowUser(s1, consumed.value).Some? {
      var id := FlowUser(s1, consumed.value).value.id;
      F.SetPasswordLeaves(cfg, s1, id, password, Some(false), None, env);
      if r.Ok? {
        s2 := SetPassword(cfg, s1, id, password, Some(false), None, env).0;
        UserRevoked(cfg, s2, id, None, env.now);
      }
    }
    NothingPresented(cfg, s, env.now, s2);
    RevocationFollows(cfg, s, call, env, r, s2, s');
  }

  lemma PasswordLoginFollows(cfg: Config, s: Store, email: string, password: string, env: Env)
    requires Inv(cfg, s) && Unused(s, env.drawn)
    ensures var (s', r) := OfSession(LoginPassword(cfg, s, email, password, env));
      Follow(cfg, s, Account(PasswordLogin(email, password)), env, r, s')
  {
    hide Inv, UserByEmail, ProfileObjection, PasswordCredential, FinishLogin, Follow, IssuedTo;
    var call := Account(PasswordLogin(email, password));
    var (s', r) := OfSession(LoginPassword(cfg, s, email, password, env));
    if cfg.normalize(email).Some? && UserByEmail(s, cfg.normalize(email).value).Some? {
      StoredUser(cfg, s, cfg.normalize(email).value);
      LoginSessions(cfg, s, UserByEmail(s, cfg.normalize(email).value).value, "email", env);
    }
    LoginFollows(cfg, s, call, env, r, s');
  }

  lemma MagicLinkFollows(cfg: Config, s: Store, token: Secret, env: Env)
    requires Inv(cfg, s) && Unused(s, env.drawn)
    ensures var (s', r) := OfSession(ConsumeMagicLink(cfg, s, token, env));
      Follow(cfg, s, Account(UseMagicLink(token)), env, r, s')
  {
    hide Inv, ConsumeFlow, UserByEmail, LoginWith, CreateUserCall, Follow, UserRecords.Adds, IssuedTo;
    var call := Account(UseMagicLink(token));
    var (s', r) := OfSession(ConsumeMagicLink(cfg, s, token, env));
    F.ConsumeFlowLeaves(s, HashOf(token), MagicLink, "email", env.now);
    ConsumeLeaves(s, HashOf(token), MagicLink, "email", env.now);
    var (s1, consumed) := ConsumeFlow(s, HashOf(token), MagicLink, "email", env.now);
    if consumed.Some? && consumed.value.email.Some? {
      var email := consumed.value.email.value;
      UserRecords.SameLookup(s, s1, email);
      StoredUser(cfg, s, email);
      var role := if cfg.profile == SingleOwner then Owner else Role.User;
      var (s2, created) := CreateUserCall(cfg, s1, email, role, "", true, env);
      F.CreateUserCallLeaves(cfg, s1, email, role, "", true, env);
      CreateUserCallFrame(cfg, s1, email, role, "", true, env);
      if UserByEmail(s1, email).Some? {
        LoginSessions(cfg, s1, UserByEmail(s1, email).value, "email", env);
      } else if created.Ok? {
        LoginSessions(cfg, s2, created.value, "email", env);
      }
    }
    LoginFollows(cfg, s, call, env, r, s');
  }

  lemma AccountsFollow(cfg: Config, s: Store, call: AccountCall, env: Env)
    requires Inv(cfg, s) && Unused(s, env.drawn)
    ensures var (s', r) := AccountStep(cfg, s, call, env); Follow(cfg, s, Account(call), env, r, s')
  {
    hide Inv, Unused, Follow, CreateUserCall, BootstrapOwner, SetPassword, LoginPassword, RequestMagicLink,
      ConsumeMagicLink, RequestVerification, ConsumeVerification, RequestReset, ConsumeReset;
    var (s', r) := AccountStep(cfg, s, call, env);
    match call
    case CreateUserWith(email, role, password, verified) =>
      F.CreateUserCallLeaves(cfg, s, email, role, password, verified, env);
      KeptFollow(cfg, s, Account(call), env, r, s');
    case Bootstrap(email, password) =>
      F.BootstrapLeaves(cfg, s, email, password, env);
      KeptFollow(cfg, s, Account(call), env, r, s');
    case ChangePassword(user, password, revoke, except) =>
      PasswordChangeFollows(cfg, s, user, password, revoke, except, env);
    case PasswordLogin(email, password) => PasswordLoginFollows(cfg, s, email, password, env);
    case AskMagicLink(email, safe) =>
      F.RequestsLeave(cfg, s, email, safe, None, None, env);
      KeptFollow(cfg, s, Account(call), env, r, s');
    case UseMagicLink(token) => MagicLinkFollows(cfg, s, token, env);
    case AskVerification(id, address) =>
      F.RequestsLeave(cfg, s, "", true, id, address, env);
      KeptFollow(cfg, s, Account(call), env, r, s');
    case UseVerification(token) =>
      F.VerificationLeaves(cfg, s, token, env);
      KeptFollow(cfg, s, Account(call), env, r, s');
    case AskReset(email) =>
      F.RequestsLeave(cfg, s, email, true, None, None, env);
      KeptFollow(cfg, s, Account(call), env, r, s');
    case UseReset(token, password) => ResetFollows(cfg, s, token, password, env);
  }

  lemma SocialLoginFollows(cfg: Config, s: Store, p: SocialProfile, given: Option<Secret>, nonce: Option<Secret>,
                           env: Env)
    requires Inv(cfg, s) && Unused(s, env.drawn)
    ensures var (s', r) := OfSession(LoginSocial(cfg, s, p, given, nonce, env));
      Follow(cfg, s, OnSession(SocialLogin(p, given, nonce)), env, r, s')
  {
    hide Inv, ConsumeSocialState, SocialUser, LoginWith, Follow, Reached, UserRecords.Adds, IssuedTo;
    var call := OnSession(SocialLogin(p, given, nonce));
    var (s', r) := OfSession(LoginSocial(cfg, s, p, given, nonce, env));
    var s1 := if given.Some? then ConsumeSocialState(cfg, s, p.provider, given.value, nonce, env).0 else s;
    var at := At(env.now);
    Begin(cfg, s, at);
    if given.Some? {
      F.SocialStateLeaves(cfg, s, p.provider, given.value, nonce, env);
      ConsumeSocialKeeps(cfg, s, s, p.provider, given.value, nonce, env, at);
    }
    SocialUserFrame(cfg, s, s1, p, env, at);
    F.SocialUserLeaves(cfg, s1, p, env);
    var (s2, user) := SocialUser(cfg, s1, p, env);
    if user.Ok? {
      LoginSessions(cfg, s2, user.value, p.provider, env);
    }
    LoginFollows(cfg, s, call, env, r, s');
  }

  lemma LogoutFollows(cfg: Config, s: Store, token: Secret, env: Env)
    requires Inv(cfg, s)
    ensures var (s', r) := Unit(Logout(s, token, env.now)); Follow(cfg, s, OnSession(LogoutWith(token)), env, r, s')
  {
    hide Inv, Follow, Seen, SessionByHash, RevokeSession;
    var call := OnSession(LogoutWith(token));
    var (s', r) := Unit(Logout(s, token, env.now));
    SessionIds(cfg, s);
    NothingPresented(cfg, s, env.now, s);
    var found := SessionByHash(s, HashOf(token));
    if found.Some? {
      FoundIsTheOne(cfg, s, HashOf(token));
      OneRevoked(s, found.value.id, env.now);
    } else {
      UnknownToken(cfg, s, HashOf(token));
    }
    RevocationFollows(cfg, s, call, env, r, s, s');
  }

  lemma UnknownToken(cfg: Config, s: Store, h: Hash)
    requires Inv(cfg, s) && SessionByHash(s, h) == None
    ensures forall id :: id in s.sessions ==> s.sessions[id].tokenHash != h
  {
    hide UsersIndexed, FlowsIndexed, CredentialsIndexed, IdentitiesKeyed, FactorsListed, CodesListed, Snapshots;
  }

  lemma SessionCallsFollow(cfg: Config, s: Store, call: SessionCall, env: Env)
    requires Inv(cfg, s) && Unused(s, env.drawn)
    ensures var (s', r) := SessionCallStep(cfg, s, call, env); Follow(cfg, s, OnSession(call), env, r, s')
  {
    hide Inv, Unused, Follow, Seen, BeginSocialLogin, ConsumeSocialState, LoginSocial, VerifySession, RevokeSession,
      Cleanup, Logout;
    var (s', r) := SessionCallStep(cfg, s, call, env);
    match call
    case BeginSocial(provider, safe, nonce) =>
      F.BeginSocialLeaves(cfg, s, provider, safe, nonce, env);
      KeptFollow(cfg, s, OnSession(call), env, r, s');
    case UseSocialState(provider, state, nonce) =>
      F.SocialStateLeaves(cfg, s, provider, state, nonce, env);
      KeptFollow(cfg, s, OnSession(call), env, r, s');
    case SocialLogin(profile, given, nonce) => SocialLoginFollows(cfg, s, profile, given, nonce, env);
    case Verify(token, permission) =>
      VerifySees(cfg, s, token, permission, env.now);
      RevocationFollows(cfg, s, OnSession(call), env, r, s', s');
    case LogoutWith(token) => LogoutFollows(cfg, s, token, env);
    case Revoke(session) =>
      SessionIds(cfg, s);
      NothingPresented(cfg, s, env.now, s);
      OneRevoked(s, session, env.now);
      RevocationFollows(cfg, s, OnSession(call), env, r, s, s');
    case CleanupExpired =>
      NothingPresented(cfg, s, env.now, s);
      ExpiredRevoked(s, env.now);
      RevocationFollows(cfg, s, OnSession(call), env, r, s, s');
  }

  /** A step-up raises the session verified, when it succeeds. */
  lemma RaiseFollows(cfg: Config, s: Store, call: Call, token: Secret, env: Env, s2: Store)
    requires Inv(cfg, s) && IsStepUp(call) && Presented(call) == Some((token, ""))
    requires var (s1, p) := VerifySession(cfg, s, token, "", env.now); p.Ok? && s2.sessions == s1.sessions
    ensures var (s', r) := OfPrincipal(RaiseAssurance(s2, VerifySession(cfg, s, token, "", env.now).1.value, env.now));
      Follow(cfg, s, call, env, r, s')
  {
    hide Inv, VerifySession, Seen, Follow, RaiseAssurance, Unrevoked, AllSeen;
    var p := VerifySession(cfg, s, token, "", env.now).1.value;
    VerifySees(cfg, s, token, "", env.now);
    VerifiedCanRaise(cfg, s, token, env.now);
    SeenIsStored(cfg, s, token, env.now);
    SameUnrevoked(VerifySession(cfg, s, token, "", env.now).0, s2, p.session.id);
    OneRaised(s2, p, env.now);
    RaisedFollows(cfg, s, call, token, env, p.session.id, OfPrincipal(RaiseAssurance(s2, p, env.now)).1,
                  VerifySession(cfg, s, token, "", env.now).0, RaiseAssurance(s2, p, env.now).0);
  }

  lemma SameUnrevoked(a: Store, b: Store, id: SessionId)
    requires b.sessions == a.sessions
    ensures Unrevoked(a, id) <==> Unrevoked(b, id)
  {
  }

  lemma OneRaised(s: Store, p: Principal, now: Time)
    requires Unrevoked(s, p.session.id)
    ensures var (s', r) := RaiseAssurance(s, p, now);
      && r.Ok? && p.session.id in s.sessions
      && s'.sessions == s.sessions[p.session.id :=
                                     s.sessions[p.session.id].(assurance := AAL2, lastSeenAt := Some(now))]
  {
  }

  /** Only the session with the token is raised. */
  lemma RaisedFollows(cfg: Config, s: Store, call: Call, token: Secret, env: Env, id: SessionId, r: Res<Reply>,
                      s1: Store, s': Store)
    requires IsStepUp(call) && Presented(call) == Some((token, "")) && r.Ok?
    requires AllSeen(cfg, s, Presented(call), env.now, s1) && id in s1.sessions
    requires s'.sessions == s1.sessions[id := s1.sessions[id].(assurance := AAL2, lastSeenAt := Some(env.now))]
    requires forall other :: other in s.sessions ==> (s.sessions[other].tokenHash == HashOf(token) <==> other == id)
    ensures Follow(cfg, s, call, env, r, s')
  {
    hide Seen;
  }

  lemma SeenIsStored(cfg: Config, s: Store, token: Secret, now: Time)
    requires Inv(cfg, s) && VerifySession(cfg, s, token, "", now).1.Ok?
    ensures var id := VerifySession(cfg, s, token, "", now).1.value.session.id;
      && id in s.sessions && s.sessions[id].tokenHash == HashOf(token) && s.sessions[id].revokedAt == None
      && forall other :: other in s.sessions && s.sessions[other].tokenHash == HashOf(token) ==> other == id
  {
    hide Inv, VerifySession, MayUse;
    VerifiedAs(cfg, s, token, "", now);
    var id :| UsableSession(cfg, s, id, HashOf(token), "", now);
    UsableIsFound(cfg, s, id, token, "", now);
    FoundIsTheOne(cfg, s, HashOf(token));
  }

  /** A refused step-up leaves the session as verified. */
  lemma RefusedStepUpFollows(cfg: Config, s: Store, call: Call, token: Secret, env: Env, e: Error, s2: Store)
    requires Inv(cfg, s) && Presented(call) == Some((token, "")) && IsStepUp(call)
    requires s2.sessions == VerifySession(cfg, s, token, "", env.now).0.sessions
    ensures Follow(cfg, s, call, env, Err(e), s2)
  {
    hide Inv, VerifySession, Seen;
    VerifySees(cfg, s, token, "", env.now);
  }

  lemma TotpStepUpFollows(cfg: Config, s: Store, token: Secret, code: string, env: Env)
    requires Inv(cfg, s)
    ensures var (s', r) := OfPrincipal(StepUpTotp(cfg, s, token, code, env));
      Follow(cfg, s, Second(StepUpWithTotp(token, code)), env, r, s')
  {
    hide Inv, VerifySession, VerifyTotpIn, FactorsOf, RaiseAssurance, Follow;
    var call := Second(StepUpWithTotp(token, code));
    var (s', r) := OfPrincipal(StepUpTotp(cfg, s, token, code, env));
    var (s1, p) := VerifySession(cfg, s, token, "", env.now);
    if p.Ok? && env.allowed {
      var listed := FactorsOf(s1, p.value.user.id);
      F.VerifyTotpLeaves(cfg, s1, listed, code, env.now);
      var (s2, f) := VerifyTotpIn(cfg, s1, listed, code, env.now);
      if f.Ok? {
        RaiseFollows(cfg, s, call, token, env, s2);
      } else {
        RefusedStepUpFollows(cfg, s, call, token, env, r.error, s');
      }
    } else {
      RefusedStepUpFollows(cfg, s, call, token, env, r.error, s');
    }
  }

  lemma RecoveryStepUpFollows(cfg: Config, s: Store, token: Secret, code: Secret, env: Env)
    requires Inv(cfg, s)
    ensures var (s', r) := OfPrincipal(StepUpRecovery(cfg, s, token, code, env));
      Follow(cfg, s, Second(StepUpWithCode(token, code)), env, r, s')
  {
    hide Inv, VerifySession, FindCode, CodesOf, MarkCode, RaiseAssurance, Follow;
    var call := Second(StepUpWithCode(token, code));
    var (s', r) := OfPrincipal(StepUpRecovery(cfg, s, token, code, env));
    var (s1, p) := VerifySession(cfg, s, token, "", env.now);
    if p.Ok? && env.allowed && FindCode(CodesOf(s1, p.value.user.id), HashOf(code)).Some? {
      var id := FindCode(CodesOf(s1, p.value.user.id), HashOf(code)).value.id;
      F.MarkCodeLeaves(s1, id, env.now);
      if MarkCode(s1, id, env.now).1.Ok? {
        RaiseFollows(cfg, s, call, token, env, MarkCode(s1, id, env.now).0);
      } else {
        RefusedStepUpFollows(cfg, s, call, token, env, r.error, s');
      }
    } else {
      RefusedStepUpFollows(cfg, s, call, token, env, r.error, s');
    }
  }

  lemma FactorCallsFollow(cfg: Config, s: Store, call: FactorCall, env: Env)
    requires Inv(cfg, s)
    ensures var (s', r) := FactorStep(cfg, s, call, env); Follow(cfg, s, Second(call), env, r, s')
  {
    hide Inv, Follow, Seen, VerifySession, BeginEnrollment, VerifyEnrollment, CreateCodes, StepUpTotp, StepUpRecovery;
    var (s', r) := FactorStep(cfg, s, call, env);
    match call
    case NeedAal2(token) =>
      VerifySees(cfg, s, token, "", env.now);
      RevocationFollows(cfg, s, Second(call), env, r, s', s');
    case BeginTotp(user) =>
      F.BeginEnrollmentLeaves(cfg, s, user, env);
      KeptFollow(cfg, s, Second(call), env, r, s');
    case ConfirmTotp(user, factor, code) =>
      F.EnrollmentLeaves(cfg, s, user, factor, code, env);
      KeptFollow(cfg, s, Second(call), env, r, s');
    case MakeCodes(user) =>
      F.CreateCodesLeaves(s, user, env.drawn.codes);
      KeptFollow(cfg, s, Second(call), env, r, s');
    case StepUpWithTotp(token, code) => TotpStepUpFollows(cfg, s, token, code, env);
    case StepUpWithCode(token, recovery) => RecoveryStepUpFollows(cfg, s, token, recovery, env);
  }

  lemma RoleChangeFollows(cfg: Config, s: Store, actor: Secret, user: UserId, role: Role, env: Env)
    requires Inv(cfg, s)
    ensures var (s', r) := OfUser(UpdateRole(cfg, s, actor, user, role, env));
      Follow(cfg, s, Administer(SetRole(actor, user, role)), env, r, s')
  {
    hide Inv, VerifySession, UpdateUser, RevokeForUser, AnotherPrivileged, Privileged, Follow, Seen, AllSeen, RevokedIf;
    var (s', r) := OfUser(UpdateRole(cfg, s, actor, user, role, env));
    ActorSeen(cfg, s, actor, USERS_WRITE, env.now);
    var s1 := VerifySession(cfg, s, actor, USERS_WRITE, env.now).0;
    if user in s1.users {
      UserRevokedAfterWrite(cfg, s1, s1.users[user].(role := role, updatedAt := env.now), env.now);
    }
    AdminWriteFollows(cfg, s, SetRole(actor, user, role), env, r, s1, s');
  }

  lemma SuspensionFollows(cfg: Config, s: Store, actor: Secret, user: UserId, status: UserStatus, env: Env)
    requires Inv(cfg, s) && status != Active
    ensures var (s', r) := OfUser(Suspend(cfg, s, actor, user, status, env));
      Follow(cfg, s, Administer(if status == Banned then Ban(actor, user) else Disable(actor, user)), env, r, s')
  {
    hide Inv, VerifySession, UpdateUser, RevokeForUser, AnotherPrivileged, Privileged, Follow, Seen, AllSeen, RevokedIf;
    var (s', r) := OfUser(Suspend(cfg, s, actor, user, status, env));
    var permission := if status == Banned then USERS_BAN else USERS_WRITE;
    ActorSeen(cfg, s, actor, permission, env.now);
    var s1 := VerifySession(cfg, s, actor, permission, env.now).0;
    if user in s1.users {
      UserRevokedAfterWrite(cfg, s1, s1.users[user].(status := status, updatedAt := env.now), env.now);
    }
    AdminWriteFollows(cfg, s, if status == Banned then Ban(actor, user) else Disable(actor, user), env, r, s1, s');
  }

  lemma ReinstatementFollows(cfg: Config, s: Store, call: AdminCall, env: Env)
    requires Inv(cfg, s) && (call.Unban? || call.Enable?)
    ensures var (s', r) := AdminStep(cfg, s, call, env); Follow(cfg, s, Administer(call), env, r, s')
  {
    hide Inv, VerifySession, UpdateUser, Follow, Seen, AllSeen;
    var (s', r) := AdminStep(cfg, s, call, env);
    var p := Presented(Administer(call)).value;
    ActorSeen(cfg, s, p.0, p.1, env.now);
    var s1 := VerifySession(cfg, s, p.0, p.1, env.now).0;
    if call.user in s1.users {
      F.UpdateUserLeaves(s1, s1.users[call.user].(status := Active, updatedAt := env.now));
    }
    RevocationFollows(cfg, s, Administer(call), env, r, s1, s');
  }

  lemma ActorSeen(cfg: Config, s: Store, actor: Secret, permission: string, now: Time)
    requires Inv(cfg, s)
    ensures var s1 := VerifySession(cfg, s, actor, permission, now).0;
      && AllSeen(cfg, s, Some((actor, permission)), now, s1) && s1.users == s.users
      && s1.sessions.Keys == s.sessions.Keys
      && (forall id :: id in s.users ==> s.users[id].id == id)
      && (forall id :: id in s.sessions ==>
            && s1.sessions[id].id == id && s.sessions[id].id == id
            && s1.sessions[id].userId == s.sessions[id].userId
            && s1.sessions[id].revokedAt == s.sessions[id].revokedAt)
  {
    hide Inv, VerifySession, Seen;
    UserRecords.StoredIds(cfg, s);
    SessionIds(cfg, s);
    F.VerifyLeaves(cfg, s, actor, permission, now);
    VerifySees(cfg, s, actor, permission, now);
    SeenKeeps(cfg, s, Some((actor, permission)), now, VerifySession(cfg, s, actor, permission, now).0);
  }

  /** A write of one user after which its sessions are revoked if the call asks for it. */
  lemma AdminWriteFollows(cfg: Config, s: Store, call: AdminCall, env: Env, r: Res<Reply>, s1: Store, s': Store)
    requires AllSeen(cfg, s, Presented(Administer(call)), env.now, s1) && s1.sessions.Keys == s.sessions.Keys
    requires call.SetRole? || call.Disable? || call.Ban?
    requires forall id :: id in s.sessions ==>
      && s1.sessions[id].userId == s.sessions[id].userId && s1.sessions[id].revokedAt == s.sessions[id].revokedAt
    requires if r.Ok? && !call.Ban? then
        && s'.sessions.Keys == s1.sessions.Keys
        && forall id :: id in s1.sessions ==> s'.sessions[id] == RevokedIf(
          s1.sessions[id].userId == call.user && s1.sessions[id].revokedAt == None, s1.sessions[id], env.now)
      else s'.sessions == s1.sessions
    ensures Follow(cfg, s, Administer(call), env, r, s')
  {
    hide Follow, Seen, AllSeen;
    RevocationFollows(cfg, s, Administer(call), env, r, s1, s');
  }

  lemma AdminCallsFollow(cfg: Config, s: Store, call: AdminCall, env: Env)
    requires Inv(cfg, s)
    ensures var (s', r) := AdminStep(cfg, s, call, env); Follow(cfg, s, Administer(call), env, r, s')
  {
    hide Inv, UpdateRole, Suspend, Reinstate, AdminSetPassword, AdminRevokeSession, Follow;
    match call
    case SetRole(actor, user, role) => RoleChangeFollows(cfg, s, actor, user, role, env);
    case Ban(actor, user) => SuspensionFollows(cfg, s, actor, user, Banned, env);
    case Disable(actor, user) => SuspensionFollows(cfg, s, actor, user, Disabled, env);
    case Unban(_, _) => ReinstatementFollows(cfg, s, call, env);
    case Enable(_, _) => ReinstatementFollows(cfg, s, call, env);
    case SetUserPassword(_, _, _) => PasswordByAdminFollows(cfg, s, call, env);
    case RevokeAsAdmin(_, _) => RevocationByAdminFollows(cfg, s, call, env);
  }

  lemma PasswordByAdminFollows(cfg: Config, s: Store, call: AdminCall, env: Env)
    requires Inv(cfg, s) && call.SetUserPassword?
    ensures var (s', r) := AdminStep(cfg, s, call, env); Follow(cfg, s, Administer(call), env, r, s')
  {
    hide Inv, VerifySession, RevokeForUser, SetPassword, Follow, Seen, AllSeen;
    var (s', r) := AdminStep(cfg, s, call, env);
    ActorSeen(cfg, s, call.actor, USERS_WRITE, env.now);
    var s1 := VerifySession(cfg, s, call.actor, USERS_WRITE, env.now).0;
    var s2 := SetPassword(cfg, s1, call.user, call.password, Some(false), None, env).0;
    F.SetPasswordLeaves(cfg, s1, call.user, call.password, Some(false), None, env);
    UserRevoked(cfg, s2, call.user, None, env.now);
    RevocationFollows(cfg, s, Administer(call), env, r, s1, s');
  }

  lemma RevocationByAdminFollows(cfg: Config, s: Store, call: AdminCall, env: Env)
    requires Inv(cfg, s) && call.RevokeAsAdmin?
    ensures var (s', r) := AdminStep(cfg, s, call, env); Follow(cfg, s, Administer(call), env, r, s')
  {
    hide Inv, VerifySession, RevokeSession, Follow, Seen, AllSeen;
    var (s', r) := AdminStep(cfg, s, call, env);
    ActorSeen(cfg, s, call.actor, SESSIONS_REVOKE, env.now);
    var s1 := VerifySession(cfg, s, call.actor, SESSIONS_REVOKE, env.now).0;
    OneRevoked(s1, call.session, env.now);
    RevocationFollows(cfg, s, Administer(call), env, r, s1, s');
  }

  lemma SeenKeeps(cfg: Config, s: Store, presented: Option<(Secret, string)>, now: Time, s1: Store)
    requires AllSeen(cfg, s, presented, now, s1)
    ensures forall id :: id in s.sessions ==>
      && s1.sessions[id].id == s.sessions[id].id && s1.sessions[id].userId == s.sessions[id].userId
      && s1.sessions[id].revokedAt == s.sessions[id].revokedAt
  {
    hide UsableSession, Due;
  }

  lemma UserRevokedAfterWrite(cfg: Config, s: Store, u: User, now: Time)
    ensures var s1 := UpdateUser(s, u).0;
      && (UpdateUser(s, u).1.Ok? <==> u.id in s.users) && s1.sessions == s.sessions
      && RevokeForUser(s1, u.id, None, now).sessions.Keys == s.sessions.Keys
      && forall id :: id in s.sessions ==> RevokeForUser(s1, u.id, None, now).sessions[id] == RevokedIf(
        s.sessions[id].userId == u.id && s.sessions[id].revokedAt == None, s.sessions[id], now)
  {
    hide UpdateUser, RevokeForUser;
    F.UpdateUserLeaves(s, u);
    UserRecords.UpdateSucceeds(s, u);
    UserRevoked(cfg, UpdateUser(s, u).0, u.id, None, now);
  }

  /** Every call leaves every stored session as `SessionAfter` says, and exactly the successful
      logins add one, as `IssuedTo` says. */
  lemma SessionsFollowCalls(cfg: Config, s: Store, call: Call, env: Env)
    requires Inv(cfg, s) && Unused(s, env.drawn)
    ensures var (s', r) := Step(cfg, s, call, env); Follow(cfg, s, call, env, r, s')
  {
    hide Inv, Unused, Follow, AccountStep, SessionCallStep, FactorStep, AdminStep;
    match call
    case Account(c) => AccountsFollow(cfg, s, c, env);
    case OnSession(c) => SessionCallsFollow(cfg, s, c, env);
    case Second(c) => FactorCallsFollow(cfg, s, c, env);
    case Administer(c) => AdminCallsFollow(cfg, s, c, env);
  }

  // ----- Revocations over runs -----

  /** The `i`-th call of the run succeeds, finds the session unrevoked and revokes it. */
  predicate RevokedAt(cfg: Config, s: Store, events: seq<Event>, i: nat, id: SessionId)
    requires i < |events|
  {
    var before := Run(cfg, s, events[..i]);
    && id in before.sessions && before.sessions[id].revokedAt == None
    && Revokes(cfg, events[i].call, Answer(cfg, s, events[..i + 1]), events[i].env.now, before.sessions[id])
  }

  lemma RevokedInStep(cfg: Config, s: Store, e: Event, id: SessionId)
    requires Inv(cfg, s) && Unused(s, e.env.drawn) && id in Step(cfg, s, e.call, e.env).0.sessions
    ensures var (s', r) := Step(cfg, s, e.call, e.env);
      s'.sessions[id].revokedAt ==
        if id in s.sessions && s.sessions[id].revokedAt == None && Revokes(cfg, e.call, r, e.env.now, s.sessions[id])
        then Some(e.env.now)
        else if id in s.sessions then s.sessions[id].revokedAt else None
  {
    hide Inv, Unused, Step, Revokes, UsableSession, LogsIn, Raises;
    SessionsFollowCalls(cfg, s, e.call, e.env);
  }

  lemma RevokedEarlier(cfg: Config, s: Store, events: seq<Event>, i: nat, id: SessionId)
    requires i < |events| - 1
    ensures RevokedAt(cfg, s, events, i, id) <==> RevokedAt(cfg, s, events[..|events| - 1], i, id)
  {
    hide Step, Revokes;
    var init := events[..|events| - 1];
    assert events[..i] == init[..i] && events[..i + 1] == init[..i + 1];
  }

  lemma RevokedLast(cfg: Config, s: Store, events: seq<Event>, id: SessionId)
    requires events != []
    ensures var before, e := Run(cfg, s, events[..|events| - 1]), events[|events| - 1];
      RevokedAt(cfg, s, events, |events| - 1, id) <==> (
        && id in before.sessions && before.sessions[id].revokedAt == None
        && Revokes(cfg, e.call, Step(cfg, before, e.call, e.env).1, e.env.now, before.sessions[id]))
  {
    hide Step, Revokes;
    assert events[..|events| - 1 + 1] == events;
  }

  /** A session is revoked in a run exactly when some call of the run succeeds in revoking it, for
      one of the causes `Revokes` lists, and it then carries the time of that call. */
  lemma {:induction false} RevocationsHaveCauses(cfg: Config, s: Store, events: seq<Event>, id: SessionId)
    requires Inv(cfg, s) && FreshRun(cfg, s, events) && id in Run(cfg, s, events).sessions
    requires id in s.sessions ==> s.sessions[id].revokedAt == None
    ensures var x := Run(cfg, s, events).sessions[id];
      && (x.revokedAt.Some? <==> exists i: nat :: i < |events| && RevokedAt(cfg, s, events, i, id))
      && (forall i: nat :: i < |events| && RevokedAt(cfg, s, events, i, id) ==>
            x.revokedAt == Some(events[i].env.now))
    decreases |events|
  {
    hide Inv, Unused, Step, Revokes, RevokedAt;
    if events != [] {
      var last := |events| - 1;
      var init, e := events[..last], events[last];
      RunKeeps(cfg, s, init);
      var before := Run(cfg, s, init);
      RevokedInStep(cfg, before, e, id);
      RevokedLast(cfg, s, events, id);
      forall i: nat | i < last ensures RevokedAt(cfg, s, events, i, id) <==> RevokedAt(cfg, s, init, i, id) {
        RevokedEarlier(cfg, s, events, i, id);
      }
      if id in before.sessions {
        RevocationsHaveCauses(cfg, s, init, id);
        if i: nat :| i < last && RevokedAt(cfg, s, init, i, id) {
          assert RevokedAt(cfg, s, events, i, id);
        }
      } else {
        forall i: nat | i < last ensures !RevokedAt(cfg, s, init, i, id) {
          NeverRevoked(cfg, s, init, i, id);
        }
      }
      assert RevokedAt(cfg, s, events, last, id) ==> exists i: nat :: i < |events| && RevokedAt(cfg, s, events, i, id);
    }
  }

  lemma NeverRevoked(cfg: Config, s: Store, events: seq<Event>, i: nat, id: SessionId)
    requires Inv(cfg, s) && FreshRun(cfg, s, events) && i < |events| && id !in Run(cfg, s, events).sessions
    ensures !RevokedAt(cfg, s, events, i, id)
  {
    hide Inv, FreshRun, Run, Revokes;
    NotYetStored(cfg, s, events, i, id);
  }

  lemma SessionsStay(cfg: Config, s: Store, e: Event, id: SessionId)
    requires Inv(cfg, s) && Unused(s, e.env.drawn) && id in s.sessions
    ensures id in Step(cfg, s, e.call, e.env).0.sessions
  {
    hide Inv, Unused, Step, SessionAfter, IssuedTo;
    SessionsFollowCalls(cfg, s, e.call, e.env);
  }

  lemma {:induction false} NotYetStored(cfg: Config, s: Store, events: seq<Event>, i: nat, id: SessionId)
    requires Inv(cfg, s) && FreshRun(cfg, s, events) && i <= |events| && id !in Run(cfg, s, events).sessions
    ensures id !in Run(cfg, s, events[..i]).sessions
    decreases |events|
  {
    hide Inv, Unused, Step;
    if i < |events| {
      var init, e := events[..|events| - 1], events[|events| - 1];
      RunKeeps(cfg, s, init);
      if id in Run(cfg, s, init).sessions {
        SessionsStay(cfg, Run(cfg, s, init), e, id);
      }
      NotYetStored(cfg, s, init, i, id);
      assert init[..i] == events[..i];
    } else {
      assert events[..i] == events;
    }
  }
}

/** Every call keeps the invariants and evolves users, sessions and identities as allowed; what
    that means for whole runs. */
module AuthSafety {
  import opened Prelude
  import opened Permissions
  import opened AuthModels
  import opened AuthStore
  import opened AuthCalls
  import opened AuthRuns
  import opened AuthInvariants

  // ----- What lookups return -----

  lemma UserFound(cfg: Config, s0: Store, s: Store, email: string, at: Moment)
    requires Reached(cfg, s0, s, at)
    ensures var u := UserByEmail(s, email);
      u.Some? ==> u.value.id in s.users && s.users[u.value.id] == u.value && EmailKey(u.value.email) == EmailKey(email)
  {
    hide EmailKey;
  }

  lemma UserIds(cfg: Config, s0: Store, s: Store, id: UserId, at: Moment)
    requires Reached(cfg, s0, s, at) && id in s.users
    ensures s.users[id].id == id
  {
  }

  lemma SessionFound(cfg: Config, s0: Store, s: Store, h: Hash, at: Moment)
    requires Reached(cfg, s0, s, at)
    ensures var x := SessionByHash(s, h);
      x.Some? ==> x.value.id in s.sessions && s.sessions[x.value.id] == x.value && x.value.tokenHash == h
  {
  }

  lemma FlowUserFound(cfg: Config, s0: Store, s: Store, f: Flow, at: Moment)
    requires Reached(cfg, s0, s, at)
    ensures FlowUser(s, f).Some? ==>
      FlowUser(s, f).value.id in s.users && s.users[FlowUser(s, f).value.id] == FlowUser(s, f).value
  {
  }

  lemma CredentialFound(cfg: Config, s0: Store, s: Store, user: UserId, at: Moment)
    requires Reached(cfg, s0, s, at)
    ensures var c := PasswordCredential(s, user);
      if c.Some? then
        && c.value.userId == user && c.value.id in s.credentials
        && s.credentials[c.value.id].userId == user && s.passwordOf[user] == c.value.id
      else user !in s.passwordOf
  {
  }

  // ----- Shared parts of calls -----

  lemma FinishLoginKeeps(cfg: Config, s0: Store, s: Store, u: User, provider: string, env: Env, at: Moment)
    requires at.now == env.now
    requires Reached(cfg, s0, s, at) && u.id in s.users && s.users[u.id] == u && env.drawn.session !in s.sessions
    ensures Reached(cfg, s0, FinishLogin(cfg, s, u, provider, env).0, at)
  {
    hide Reached, PermissionsFor;
    var x := NewSession(cfg, u, provider, env);
    CreateSessionKeeps(cfg, s0, s, x, at);
    var s1 := CreateSession(s, x).0;
    UpdateUserKeeps(cfg, s0, s1, u.(lastLoginAt := Some(env.now), updatedAt := env.now), at);
  }

  lemma LoginWithKeeps(cfg: Config, s0: Store, s: Store, u: User, provider: string, env: Env, at: Moment)
    requires at.now == env.now
    requires Reached(cfg, s0, s, at) && u.id in s.users && s.users[u.id] == u && env.drawn.session !in s.sessions
    ensures Reached(cfg, s0, LoginWith(cfg, s, u, provider, env).0, at)
  {
    hide Reached;
    FinishLoginKeeps(cfg, s0, s, u, provider, env, at);
  }

  /** A token the call verifies successfully is the one the moment names. */
  predicate Names(cfg: Config, s: Store, token: Secret, permission: string, at: Moment) {
    VerifySession(cfg, s, token, permission, at.now).1.Ok? ==> at.verified == Some(HashOf(token))
  }

  /** A touch rewrites one session and nothing else. */
  lemma RefreshFrame(cfg: Config, s: Store, x: Session, now: Time)
    ensures SameButSessions(s, Refresh(cfg, s, x, now).0)
  {
    hide TouchDue;
    if TouchDue(cfg, x, now) && Unrevoked(s, x.id) {
      assert SameButSessions(s, TouchSession(s, x.id, now, IdleDeadline(cfg, now)).0);
    }
  }

  predicate SameButSessions(a: Store, b: Store) {
    && b.users == a.users && b.usersByEmail == a.usersByEmail && b.identities == a.identities
    && b.credentials == a.credentials && b.passwordOf == a.passwordOf && b.flows == a.flows
    && b.flowsByHash == a.flowsByHash
    && b.factors == a.factors && b.factorOrder == a.factorOrder && b.vault == a.vault && b.codes == a.codes
    && b.codeOrder == a.codeOrder
  }

  lemma RefreshKeeps(cfg: Config, s0: Store, s: Store, x: Session, at: Moment)
    requires Reached(cfg, s0, s, at) && at.verified == Some(x.tokenHash) && x.id in s.sessions
    requires s.sessions[x.id].tokenHash == x.tokenHash
    ensures Reached(cfg, s0, Refresh(cfg, s, x, at.now).0, at)
  {
    hide Reached, TouchDue;
    TouchKeeps(cfg, s0, s, x.id, at);
  }

  /** An unrevoked stored session can be refreshed, and what comes back is stored. */
  lemma Refreshed(cfg: Config, s0: Store, s: Store, x: Session, now: Time, at: Moment)
    requires Reached(cfg, s0, s, at) && x.id in s.sessions && s.sessions[x.id] == x
    ensures StoredAfter(x, Refresh(cfg, s, x, now).0, Refresh(cfg, s, x, now).1)
  {
    hide Reached, TouchDue, TouchSession;
    if TouchDue(cfg, x, now) {
      TouchedIsStored(s, x, now, IdleDeadline(cfg, now));
    }
  }

  /** The session `y` now stored for `x`; missing only for a revoked one. */
  predicate StoredAfter(x: Session, s: Store, y: Option<Session>) {
    && (x.revokedAt == None ==> y.Some?)
    && (y.Some? ==>
          && y.value.tokenHash == x.tokenHash && y.value.id == x.id && y.value.revokedAt == x.revokedAt
          && x.id in s.sessions && s.sessions[x.id] == y.value)
  }

  lemma TouchedIsStored(s: Store, x: Session, seen: Time, idle: Option<Time>)
    requires x.id in s.sessions && s.sessions[x.id] == x
    ensures StoredAfter(x, TouchSession(s, x.id, seen, idle).0, TouchSession(s, x.id, seen, idle).1)
  {
    if Unrevoked(s, x.id) {
    }
  }

  lemma VerifyKeeps(cfg: Config, s0: Store, s: Store, token: Secret, permission: string, at: Moment)
    requires Reached(cfg, s0, s, at) && Names(cfg, s, token, permission, at)
    ensures Reached(cfg, s0, VerifySession(cfg, s, token, permission, at.now).0, at)
    ensures VerifySession(cfg, s, token, permission, at.now).0.users == s.users
  {
    hide Reached, Refresh, SessionByHash, Expired, Allows;
    SessionFound(cfg, s0, s, HashOf(token), at);
    var found := SessionByHash(s, HashOf(token));
    if SessionObjection(s, found, permission, at.now) == None {
      Refreshed(cfg, s0, s, found.value, at.now, at);
      RefreshKeeps(cfg, s0, s, found.value, at);
      RefreshFrame(cfg, s, found.value, at.now);
    }
  }

  /** The session a verification answers with is the stored one of that token. */
  lemma VerifiedSession(cfg: Config, s0: Store, s: Store, token: Secret, permission: string, at: Moment)
    requires Reached(cfg, s0, s, at) && VerifySession(cfg, s, token, permission, at.now).1.Ok?
    ensures var (s', p) := VerifySession(cfg, s, token, permission, at.now);
      && p.value.session.id in s'.sessions && s'.sessions[p.value.session.id] == p.value.session
      && p.value.session.tokenHash == HashOf(token)
  {
    hide Reached, Refresh, SessionByHash, Expired, Allows;
    SessionFound(cfg, s0, s, HashOf(token), at);
    Refreshed(cfg, s0, s, SessionByHash(s, HashOf(token)).value, at.now, at);
  }

  /** Setting a password touches credentials and sessions only. */
  lemma SetPasswordFrame(cfg: Config, s: Store, id: UserId, password: string, revoke: Option<bool>,
                         except: Option<SessionId>, env: Env)
    ensures var s' := SetPassword(cfg, s, id, password, revoke, except, env).0;
      s'.users == s.users && s'.usersByEmail == s.usersByEmail && s'.identities == s.identities
    ensures revoke == Some(false) ==> SetPassword(cfg, s, id, password, revoke, except, env).0.sessions == s.sessions
  {
    hide PasswordCredential, HashPassword, UpsertCredential, RevokeForUser;
    CredentialAndRevocationFrame(s, id, except, env.now);
  }

  lemma CredentialAndRevocationFrame(s: Store, user: UserId, except: Option<SessionId>, now: Time)
    ensures forall c :: SameButCredentials(s, UpsertCredential(s, c)) && UpsertCredential(s, c).sessions == s.sessions
    ensures forall c ::
      SameButCredentials(UpsertCredential(s, c), RevokeForUser(UpsertCredential(s, c), user, except, now))
  {
  }

  predicate SameButCredentials(s: Store, s': Store) {
    s'.users == s.users && s'.usersByEmail == s.usersByEmail && s'.identities == s.identities
  }

  lemma SetPasswordKeeps(cfg: Config, s0: Store, s: Store, id: UserId, password: string, revoke: Option<bool>,
                         except: Option<SessionId>, env: Env, at: Moment)
    requires at.now == env.now
    requires Reached(cfg, s0, s, at) && env.drawn.credential !in s.credentials
    ensures Reached(cfg, s0, SetPassword(cfg, s, id, password, revoke, except, env).0, at)
  {
    hide Reached, RevokeForUser, UpsertCredential, PasswordCredential;
    CredentialFound(cfg, s0, s, id, at);
    if id in s.users && |password| >= 8 {
      var existing := PasswordCredential(s, id);
      var c := if existing.Some? then existing.value.(hash := Some(PasswordHash(password)), revokedAt := None)
               else Credential(env.drawn.credential, id, Some(PasswordHash(password)), None);
      UpsertCredentialKeeps(cfg, s0, s, c, at);
      RevokeForUserKeeps(cfg, s0, UpsertCredential(s, c), id, except, at);
    }
  }

  lemma EmailKeyIsKeyed(subject: string)
    ensures EmailKeyed(IdentityKey("email", subject))
  {
    assert IdentityKey("email", subject)[..6] == "email:";
  }

  lemma CreateUserFrame(s: Store, u: User)
    ensures var (s', created) := CreateUser(s, u);
      && s'.sessions == s.sessions && s'.sessionsByHash == s.sessionsByHash && s'.identities == s.identities
      && (created.Ok? <==> EmailKey(u.email) !in s.usersByEmail)
      && (created.Ok? ==>
            && created.value == u && s'.users == s.users[u.id := u]
            && s'.usersByEmail == s.usersByEmail[EmailKey(u.email) := u.id])
  {
    hide EmailKey;
    if EmailKey(u.email) in s.usersByEmail {
    }
  }

  lemma UpsertIdentityFrame(s: Store, i: Identity)
    ensures var s' := UpsertIdentity(s, i);
      && s'.users == s.users && s'.usersByEmail == s.usersByEmail && s'.sessions == s.sessions
      && s'.sessionsByHash == s.sessionsByHash
      && s'.identities == if i.subject == "" then s.identities
           else s.identities[IdentityKey(i.provider, i.subject) := i]
  {
    hide IdentityKey;
    if i.subject == "" {
    }
  }

  /** Storing a user leaves sessions alone and adds no identity but the user's own address. */
  lemma StoreUserFrame(cfg: Config, s: Store, u: User, password: string, env: Env)
    ensures var (s', created) := StoreUser(cfg, s, u, password, env);
      && s'.sessions == s.sessions
      && (|| s'.identities == s.identities
          || s'.identities
            == s.identities[IdentityKey("email", u.email) := Identity(u.id, "email", u.email, u.email, u.verified)])
      && (created.Ok? ==>
            && created.value == u && s'.users == s.users[u.id := u]
            && s'.usersByEmail == s.usersByEmail[EmailKey(u.email) := u.id])
  {
    hide SetPassword, IdentityKey, EmailKey, CreateUser, UpsertIdentity;
    var i := Identity(u.id, "email", u.email, u.email, u.verified);
    var s1 := CreateUser(s, u).0;
    CreateUserFrame(s, u);
    UpsertIdentityFrame(s1, i);
    SetPasswordFrame(cfg, UpsertIdentity(s1, i), u.id, password, Some(false), None, env);
  }

  lemma StoreUserKeeps(cfg: Config, s0: Store, s: Store, u: User, password: string, env: Env, at: Moment)
    requires at.now == env.now
    requires Reached(cfg, s0, s, at) && u.id !in s.users && env.drawn.credential !in s.credentials
    ensures Reached(cfg, s0, StoreUser(cfg, s, u, password, env).0, at)
  {
    hide Reached, SetPassword, IdentityKey, EmailKeyed, EmailKey;
    CreateUserKeeps(cfg, s0, s, u, at);
    var (s1, created) := CreateUser(s, u);
    if created.Ok? {
      var i := Identity(u.id, "email", u.email, u.email, u.verified);
      EmailKeyIsKeyed(u.email);
      UpsertIdentityKeeps(cfg, s0, s1, i, at);
      SetPasswordKeeps(cfg, s0, UpsertIdentity(s1, i), u.id, password, Some(false), None, env, at);
    }
  }

  lemma CreateUserCallFrame(cfg: Config, s: Store, email: string, role: Role, password: string, verified: bool,
                            env: Env)
    ensures var (s', created) := CreateUserCall(cfg, s, email, role, password, verified, env);
      && s'.sessions == s.sessions
      && (created.Ok? ==>
            && created.value.id == env.drawn.user && created.value.id in s'.users
            && s'.users[created.value.id] == created.value)
      && (forall k :: k in s'.identities ==> k in s.identities || EmailKeyed(k))
  {
    hide StoreUser, EmailKeyed, IsOwnerEmail, IdentityKey;
    if cfg.normalize(email).Some? {
      var u := NewUser(cfg, cfg.normalize(email).value, role, verified, env);
      StoreUserFrame(cfg, s, u, password, env);
      EmailKeyIsKeyed(u.email);
    }
  }

  lemma CreateUserCallKeeps(cfg: Config, s0: Store, s: Store, email: string, role: Role, password: string,
                            verified: bool, env: Env, at: Moment)
    requires at.now == env.now
    requires Reached(cfg, s0, s, at) && env.drawn.user !in s.users && env.drawn.credential !in s.credentials
    ensures Reached(cfg, s0, CreateUserCall(cfg, s, email, role, password, verified, env).0, at)
  {
    hide Reached, StoreUser, IsOwnerEmail;
    if cfg.normalize(email).Some? {
      StoreUserKeeps(cfg, s0, s, NewUser(cfg, cfg.normalize(email).value, role, verified, env), password, env, at);
    }
  }

  // ----- Calls -----

  lemma BootstrapKeeps(cfg: Config, s0: Store, s: Store, email: string, password: string, env: Env, at: Moment)
    requires at.now == env.now
    requires Reached(cfg, s0, s, at) && Unused(s, env.drawn)
    ensures Reached(cfg, s0, BootstrapOwner(cfg, s, email, password, env).0, at)
  {
    hide Reached;
    var normal := cfg.normalize(email);
    if normal.Some? {
      CreateUserCallKeeps(cfg, s0, s, normal.value, Owner, password, true, env, at);
      var found := UserByEmail(s, normal.value);
      if found.Some? {
        SetPasswordKeeps(cfg, s0, s, found.value.id, password, Some(false), None, env, at);
      }
    }
  }

  lemma LoginPasswordKeeps(cfg: Config, s0: Store, s: Store, email: string, password: string, env: Env, at: Moment)
    requires at.now == env.now
    requires Reached(cfg, s0, s, at) && Unused(s, env.drawn)
    ensures Reached(cfg, s0, LoginPassword(cfg, s, email, password, env).0, at)
  {
    hide Reached, FinishLogin;
    var normal := cfg.normalize(email);
    if normal.Some? {
      UserFound(cfg, s0, s, normal.value, at);
      var found := UserByEmail(s, normal.value);
      if found.Some? {
        FinishLoginKeeps(cfg, s0, s, found.value, "email", env, at);
      }
    }
  }

  lemma RequestKeeps(cfg: Config, s0: Store, s: Store, kind: FlowKind, provider: string, nonce: Option<Secret>,
                     email: Option<string>, user: Option<UserId>, env: Env, at: Moment)
    requires at.now == env.now
    requires Reached(cfg, s0, s, at) && Unused(s, env.drawn)
    ensures Reached(cfg, s0, CreateFlow(s, NewFlow(cfg, kind, provider, nonce, email, user, env)).0, at)
    ensures Reached(cfg, s0, s, at)
  {
    CreateFlowKeeps(cfg, s0, s, NewFlow(cfg, kind, provider, nonce, email, user, env), at);
  }

  lemma RequestVerificationKeeps(cfg: Config, s0: Store, s: Store, id: Option<UserId>, email: Option<string>, env: Env,
                                 at: Moment)
    requires at.now == env.now
    requires Reached(cfg, s0, s, at) && Unused(s, env.drawn)
    ensures Reached(cfg, s0, RequestVerification(cfg, s, id, email, env).0, at)
  {
    hide Reached;
    var s' := RequestVerification(cfg, s, id, email, env).0;
    if s' != s {
      var u := if id.Some? then s.users[id.value] else UserByEmail(s, cfg.normalize(email.value).value).value;
      RequestKeeps(cfg, s0, s, EmailVerification, "email", None, Some(u.email), Some(u.id), env, at);
    }
  }

  lemma RequestResetKeeps(cfg: Config, s0: Store, s: Store, email: string, env: Env, at: Moment)
    requires at.now == env.now
    requires Reached(cfg, s0, s, at) && Unused(s, env.drawn)
    ensures Reached(cfg, s0, RequestReset(cfg, s, email, env).0, at)
  {
    hide Reached;
    var s' := RequestReset(cfg, s, email, env).0;
    if s' != s {
      var normal := cfg.normalize(email).value;
      RequestKeeps(cfg, s0, s, PasswordReset, "email", None, Some(normal), Some(UserByEmail(s, normal).value.id),
                   env, at);
    }
  }

  lemma ConsumeMagicLinkKeeps(cfg: Config, s0: Store, s: Store, token: Secret, env: Env, at: Moment)
    requires at.now == env.now
    requires Reached(cfg, s0, s, at) && Unused(s, env.drawn)
    ensures Reached(cfg, s0, ConsumeMagicLink(cfg, s, token, env).0, at)
  {
    hide Reached, LoginWith, CreateUserCall;
    ConsumeFlowKeeps(cfg, s0, s, HashOf(token), MagicLink, "email", at);
    var (s1, consumed) := ConsumeFlow(s, HashOf(token), MagicLink, "email", env.now);
    if consumed.Some? && consumed.value.email.Some? && consumed.value.email.value != "" {
      var email := consumed.value.email.value;
      UserFound(cfg, s0, s1, email, at);
      var found := UserByEmail(s1, email);
      if found.Some? {
        LoginWithKeeps(cfg, s0, s1, found.value, "email", env, at);
      } else {
        var role := if cfg.profile == SingleOwner then Owner else Role.User;
        CreateUserCallKeeps(cfg, s0, s1, email, role, "", true, env, at);
        CreateUserCallFrame(cfg, s1, email, role, "", true, env);
        var (s2, created) := CreateUserCall(cfg, s1, email, role, "", true, env);
        if created.Ok? {
          LoginWithKeeps(cfg, s0, s2, created.value, "email", env, at);
        }
      }
    }
  }

  lemma ConsumeVerificationKeeps(cfg: Config, s0: Store, s: Store, token: Secret, env: Env, at: Moment)
    requires at.now == env.now
    requires Reached(cfg, s0, s, at) && Unused(s, env.drawn)
    ensures Reached(cfg, s0, ConsumeVerification(cfg, s, token, env).0, at)
  {
    hide Inv;
    ConsumeFlowKeeps(cfg, s0, s, HashOf(token), EmailVerification, "email", at);
    var (s1, consumed) := ConsumeFlow(s, HashOf(token), EmailVerification, "email", env.now);
    if consumed.Some? {
      FlowUserFound(cfg, s0, s1, consumed.value, at);
      var found := FlowUser(s1, consumed.value);
      if found.Some? {
        var u := found.value.(verified := true, updatedAt := env.now);
        UpdateUserKeeps(cfg, s0, s1, u, at);
        var s2 := UpdateUser(s1, u).0;
        var i := GetIdentity(s2, "email", u.email);
        if i.Some? {
          IdentityFound(cfg, s0, s2, "email", u.email, at);
          UpsertIdentityKeeps(cfg, s0, s2, i.value.(verified := true), at);
        }
      }
    }
    hide Reached;
  }

  lemma IdentityFound(cfg: Config, s0: Store, s: Store, provider: string, subject: string, at: Moment)
    requires Reached(cfg, s0, s, at) && GetIdentity(s, provider, subject).Some?
    ensures var i := GetIdentity(s, provider, subject).value;
      i.userId in s.users && IdentityKey(i.provider, i.subject) == IdentityKey(provider, subject)
  {
  }

  lemma ConsumeResetKeeps(cfg: Config, s0: Store, s: Store, token: Secret, password: string, env: Env, at: Moment)
    requires at.now == env.now
    requires Reached(cfg, s0, s, at) && Unused(s, env.drawn)
    ensures Reached(cfg, s0, ConsumeReset(cfg, s, token, password, env).0, at)
  {
    hide Reached, SetPassword;
    ConsumeFlowKeeps(cfg, s0, s, HashOf(token), PasswordReset, "email", at);
    var (s1, consumed) := ConsumeFlow(s, HashOf(token), PasswordReset, "email", env.now);
    if consumed.Some? {
      var found := FlowUser(s1, consumed.value);
      if found.Some? {
        SetPasswordKeeps(cfg, s0, s1, found.value.id, password, Some(false), None, env, at);
        var s2 := SetPassword(cfg, s1, found.value.id, password, Some(false), None, env).0;
        RevokeForUserKeeps(cfg, s0, s2, found.value.id, None, at);
      }
    }
  }

  lemma ConsumeSocialKeeps(cfg: Config, s0: Store, s: Store, provider: string, state: Secret, nonce: Option<Secret>,
                           env: Env, at: Moment)
    requires at.now == env.now
    requires Reached(cfg, s0, s, at)
    ensures Reached(cfg, s0, ConsumeSocialState(cfg, s, provider, state, nonce, env).0, at)
  {
    hide Reached, ConsumeFlow;
    ConsumeFlowKeeps(cfg, s0, s, HashOf(state), OAuth, provider, at);
  }

  /** Consuming a state touches the flows only. */
  lemma ConsumeSocialFrame(cfg: Config, s: Store, provider: string, state: Secret, nonce: Option<Secret>, env: Env)
    ensures var s' := ConsumeSocialState(cfg, s, provider, state, nonce, env).0;
      s' == s.(flows := s'.flows)
  {
  }

  lemma SocialUserFrame(cfg: Config, s0: Store, s: Store, p: SocialProfile, env: Env, at: Moment)
    requires at.now == env.now
    requires Reached(cfg, s0, s, at)
    ensures var (s', user) := SocialUser(cfg, s, p, env);
      && s'.sessions == s.sessions
      && (user.Ok? ==> user.value.id in s'.users && s'.users[user.value.id] == user.value)
  {
    hide Reached, CreateUserCall, EmailKeyed, IdentityKey, UserByEmail, GetIdentity, UpsertIdentity;
    var known := GetIdentity(s, p.provider, p.subject);
    if known.Some? {
      IdentityFound(cfg, s0, s, p.provider, p.subject, at);
      UserIds(cfg, s0, s, known.value.userId, at);
    } else {
      var existing := UserByEmail(s, p.email);
      var role := if cfg.profile == SingleOwner then Owner else Role.User;
      if existing.Some? {
        UserFound(cfg, s0, s, p.email, at);
        UpsertIdentityFrame(s, Identity(existing.value.id, p.provider, p.subject, p.email, p.emailVerified));
      } else {
        CreateUserCallFrame(cfg, s, p.email, role, "", p.emailVerified, env);
        var (s1, user) := CreateUserCall(cfg, s, p.email, role, "", p.emailVerified, env);
        if user.Ok? {
          UpsertIdentityFrame(s1, Identity(user.value.id, p.provider, p.subject, p.email, p.emailVerified));
        }
      }
    }
  }

  lemma AddressStays(cfg: Config, s0: Store, s: Store, id: UserId, at: Moment)
    requires Reached(cfg, s0, s, at) && id in s0.users
    ensures id in s.users && s.users[id].email == s0.users[id].email
  {
  }

  lemma NewUsersAreNew(cfg: Config, s0: Store, s: Store, id: UserId, at: Moment)
    requires Reached(cfg, s0, s, at) && id !in s.users
    ensures id !in s0.users
  {
  }

  lemma SocialUserKeeps(cfg: Config, s0: Store, s: Store, p: SocialProfile, env: Env, at: Moment)
    requires at.now == env.now
    requires Reached(cfg, s0, s, at) && at.profile == Some(p) && env.drawn.user !in s.users
    requires env.drawn.credential !in s.credentials
    ensures Reached(cfg, s0, SocialUser(cfg, s, p, env).0, at)
  {
    hide Reached, CreateUserCall, UpsertIdentity, UserByEmail, IdentityKey, EmailKeyed;
    UserFound(cfg, s0, s, p.email, at);
    if GetIdentity(s, p.provider, p.subject) == None && p.email != "" {
      var k := IdentityKey(p.provider, p.subject);
      assert k !in s.identities;
      var existing := UserByEmail(s, p.email);
      var role := if cfg.profile == SingleOwner then Owner else Role.User;
      if existing.Some? {
        if !(cfg.linkingNeedsVerified && !p.emailVerified) {
          if existing.value.id in s0.users {
            AddressStays(cfg, s0, s, existing.value.id, at);
          }
          UpsertIdentityKeeps(cfg, s0, s,
                              Identity(existing.value.id, p.provider, p.subject, p.email, p.emailVerified), at);
        }
      } else {
        CreateUserCallKeeps(cfg, s0, s, p.email, role, "", p.emailVerified, env, at);
        CreateUserCallFrame(cfg, s, p.email, role, "", p.emailVerified, env);
        NewUsersAreNew(cfg, s0, s, env.drawn.user, at);
        var (s1, user) := CreateUserCall(cfg, s, p.email, role, "", p.emailVerified, env);
        if user.Ok? {
          UpsertIdentityKeeps(cfg, s0, s1,
                              Identity(user.value.id, p.provider, p.subject, p.email, p.emailVerified), at);
        }
      }
    }
  }

  lemma LoginSocialKeeps(cfg: Config, s0: Store, s: Store, p: SocialProfile, state: Option<Secret>,
                         nonce: Option<Secret>, env: Env, at: Moment)
    requires at.now == env.now
    requires Reached(cfg, s0, s, at) && at.profile == Some(p) && Unused(s, env.drawn)
    ensures Reached(cfg, s0, LoginSocial(cfg, s, p, state, nonce, env).0, at)
  {
    hide Reached, SocialUser, ConsumeSocialState, LoginWith;
    var s1 := if state.Some? then ConsumeSocialState(cfg, s, p.provider, state.value, nonce, env).0 else s;
    if state.Some? {
      ConsumeSocialKeeps(cfg, s0, s, p.provider, state.value, nonce, env, at);
      ConsumeSocialFrame(cfg, s, p.provider, state.value, nonce, env);
    }
    SocialUserKeeps(cfg, s0, s1, p, env, at);
    SocialUserFrame(cfg, s0, s1, p, env, at);
    var (s2, user) := SocialUser(cfg, s1, p, env);
    if user.Ok? {
      LoginWithKeeps(cfg, s0, s2, user.value, p.provider, env, at);
    }
  }

  lemma EnrollmentKeeps(cfg: Config, s0: Store, s: Store, user: UserId, id: FactorId, code: string, env: Env,
                        at: Moment)
    requires at.now == env.now
    requires Reached(cfg, s0, s, at) && Unused(s, env.drawn)
    ensures Reached(cfg, s0, BeginEnrollment(cfg, s, user, env).0, at)
    ensures Reached(cfg, s0, VerifyEnrollment(cfg, s, user, id, code, env).0, at)
  {
    hide Reached;
    var f := Factor(env.drawn.factor, user, Totp, Some(HashOf(env.drawn.secret)), false, None, None);
    CreateFactorKeeps(cfg, s0, s, f, env.drawn.secret, at);
    if id in s.factors {
      UpdateFactorKeeps(cfg, s0, s, s.factors[id].(enabled := true, lastUsedAt := Some(env.now)), at);
    }
  }

  lemma {:induction false} VerifyTotpKeeps(cfg: Config, s0: Store, s: Store, listed: seq<Factor>, code: string,
                                           at: Moment)
    requires Reached(cfg, s0, s, at)
    ensures Reached(cfg, s0, VerifyTotpIn(cfg, s, listed, code, at.now).0, at)
    decreases |listed|
  {
    hide Reached, CodeCounter;
    if listed != [] {
      if Usable(cfg, s, listed[0], code, at.now) {
        var counter := CodeCounter(cfg, s, listed[0], code, at.now).value;
        MarkCounterKeeps(cfg, s0, s, listed[0].id, counter, at);
        VerifyTotpKeeps(cfg, s0, MarkCounter(s, listed[0].id, counter, at.now).0, listed[1..], code, at);
      } else {
        VerifyTotpKeeps(cfg, s0, s, listed[1..], code, at);
      }
    }
  }

  lemma {:induction false} VerifyTotpFrame(cfg: Config, s: Store, listed: seq<Factor>, code: string, now: Time)
    ensures var s' := VerifyTotpIn(cfg, s, listed, code, now).0;
      s'.sessions == s.sessions && s'.sessionsByHash == s.sessionsByHash
    decreases |listed|
  {
    hide CodeCounter;
    if listed != [] {
      VerifyTotpFrame(cfg, s, listed[1..], code, now);
      if Usable(cfg, s, listed[0], code, now) {
        VerifyTotpFrame(cfg, MarkCounter(s, listed[0].id, CodeCounter(cfg, s, listed[0], code, now).value, now).0,
                        listed[1..], code, now);
      }
    }
  }

  lemma MarkCodeFrame(s: Store, id: CodeId, now: Time)
    ensures var s' := MarkCode(s, id, now).0; s'.sessions == s.sessions && s'.sessionsByHash == s.sessionsByHash
  {
  }

  lemma StepUpTotpKeeps(cfg: Config, s0: Store, s: Store, token: Secret, code: string, env: Env, at: Moment)
    requires at.now == env.now
    requires Inv(cfg, s) && Reached(cfg, s0, VerifySession(cfg, s, token, "", env.now).0, at)
    requires Names(cfg, s, token, "", at) && at.stepUp
    ensures Reached(cfg, s0, StepUpTotp(cfg, s, token, code, env).0, at)
  {
    hide Inv, Reached, VerifySession, VerifyTotpIn;
    Begin(cfg, s, at);
    var (s1, p) := VerifySession(cfg, s, token, "", env.now);
    if p.Ok? {
      var listed := FactorsOf(s1, p.value.user.id);
      VerifyTotpKeeps(cfg, s0, s1, listed, code, at);
      VerifyTotpFrame(cfg, s1, listed, code, env.now);
      VerifiedSession(cfg, s, s, token, "", at);
      RaiseKeeps(cfg, s0, VerifyTotpIn(cfg, s1, listed, code, env.now).0, p.value.session.id, at);
    }
  }

  lemma {:induction false} CreateCodesKeeps(cfg: Config, s0: Store, s: Store, user: UserId,
                                            codes: seq<(CodeId, Secret)>, at: Moment)
    requires Reached(cfg, s0, s, at)
    ensures Reached(cfg, s0, CreateCodes(s, user, codes), at)
  {
    hide Reached;
    if codes != [] {
      var c := codes[|codes| - 1];
      CreateCodesKeeps(cfg, s0, s, user, codes[..|codes| - 1], at);
      CreateCodeKeeps(cfg, s0, CreateCodes(s, user, codes[..|codes| - 1]),
                      RecoveryCode(c.0, user, HashOf(c.1), None), at);
    }
  }

  lemma StepUpRecoveryKeeps(cfg: Config, s0: Store, s: Store, token: Secret, code: Secret, env: Env, at: Moment)
    requires at.now == env.now
    requires Inv(cfg, s) && Reached(cfg, s0, VerifySession(cfg, s, token, "", env.now).0, at)
    requires Names(cfg, s, token, "", at) && at.stepUp
    ensures Reached(cfg, s0, StepUpRecovery(cfg, s, token, code, env).0, at)
  {
    hide Inv, Reached, VerifySession, FindCode, CodesOf, MarkCode, SetAssurance;
    Begin(cfg, s, at);
    var (s1, p) := VerifySession(cfg, s, token, "", env.now);
    if p.Ok? {
      var found := FindCode(CodesOf(s1, p.value.user.id), HashOf(code));
      if found.Some? {
        MarkCodeKeeps(cfg, s0, s1, found.value.id, at);
        VerifiedSession(cfg, s, s, token, "", at);
        MarkCodeFrame(s1, found.value.id, env.now);
        RaiseKeeps(cfg, s0, MarkCode(s1, found.value.id, env.now).0, p.value.session.id, at);
      }
    }
  }

  lemma PrivilegeGuard(cfg: Config, s0: Store, s: Store, u: User, at: Moment)
    requires Reached(cfg, s0, s, at) && u.id in s.users
    requires !Privileged(s.users[u.id].role) || AnotherPrivileged(s, u.id)
      || (Privileged(u.role) && (u.status == Active || u.status == s.users[u.id].status))
    ensures StillPrivileged(s.users, u)
  {
    if AnotherPrivileged(s, u.id) {
      var id :| id in s.users && s.users[id].id != u.id && s.users[id].status == Active && Privileged(s.users[id].role);
      UserIds(cfg, s0, s, id, at);
    }
  }

  lemma UpdateRoleKeeps(cfg: Config, s0: Store, s: Store, actor: Secret, id: UserId, role: Role, env: Env, at: Moment)
    requires at.now == env.now
    requires Reached(cfg, s0, VerifySession(cfg, s, actor, USERS_WRITE, env.now).0, at)
    ensures Reached(cfg, s0, UpdateRole(cfg, s, actor, id, role, env).0, at)
  {
    hide Reached, VerifySession, StillPrivileged;
    var (s1, p) := VerifySession(cfg, s, actor, USERS_WRITE, env.now);
    if p.Ok? && id in s1.users
      && !(Privileged(s1.users[id].role) && !Privileged(role) && !AnotherPrivileged(s1, s1.users[id].id)) {
      UserIds(cfg, s0, s1, id, at);
      var u := s1.users[id].(role := role, updatedAt := env.now);
      PrivilegeGuard(cfg, s0, s1, u, at);
      RoleChangeKeeps(cfg, s0, s1, u, at);
    }
  }

  lemma SuspendKeeps(cfg: Config, s0: Store, s: Store, actor: Secret, id: UserId, status: UserStatus, env: Env,
                     at: Moment)
    requires at.now == env.now
    requires Reached(cfg, s0,
                     VerifySession(cfg, s, actor, if status == Banned then USERS_BAN else USERS_WRITE, env.now).0, at)
    requires status != Active
    ensures Reached(cfg, s0, Suspend(cfg, s, actor, id, status, env).0, at)
  {
    hide Reached, VerifySession, StillPrivileged;
    var permission := if status == Banned then USERS_BAN else USERS_WRITE;
    var (s1, p) := VerifySession(cfg, s, actor, permission, env.now);
    if p.Ok? && id in s1.users && !(Privileged(s1.users[id].role) && !AnotherPrivileged(s1, s1.users[id].id)) {
      UserIds(cfg, s0, s1, id, at);
      var u := s1.users[id].(status := status, updatedAt := env.now);
      PrivilegeGuard(cfg, s0, s1, u, at);
      UpdateUserKeeps(cfg, s0, s1, u, at);
      RevokeForUserKeeps(cfg, s0, UpdateUser(s1, u).0, id, None, at);
    }
  }

  lemma ReinstateKeeps(cfg: Config, s0: Store, s: Store, actor: Secret, id: UserId, permission: string, env: Env,
                       at: Moment)
    requires at.now == env.now
    requires Reached(cfg, s0, VerifySession(cfg, s, actor, permission, env.now).0, at) && at.reinstated == Some(id)
    ensures Reached(cfg, s0, Reinstate(cfg, s, actor, id, permission, env).0, at)
  {
    hide Reached, VerifySession, StillPrivileged;
    var (s1, p) := VerifySession(cfg, s, actor, permission, env.now);
    if p.Ok? && id in s1.users {
      UserIds(cfg, s0, s1, id, at);
      var u := s1.users[id].(status := Active, updatedAt := env.now);
      PrivilegeGuard(cfg, s0, s1, u, at);
      UpdateUserKeeps(cfg, s0, s1, u, at);
    }
  }

  lemma AdminSetPasswordKeeps(cfg: Config, s0: Store, s: Store, actor: Secret, id: UserId, password: string, env: Env,
                              at: Moment)
    requires at.now == env.now
    requires Reached(cfg, s0, VerifySession(cfg, s, actor, USERS_WRITE, env.now).0, at) && Unused(s, env.drawn)
    ensures Reached(cfg, s0, AdminSetPassword(cfg, s, actor, id, password, env).0, at)
  {
    VerifyKeepsCredentials(cfg, s, actor, USERS_WRITE, env.now);
    hide Reached, VerifySession, SetPassword;
    var (s1, p) := VerifySession(cfg, s, actor, USERS_WRITE, env.now);
    if p.Ok? {
      SetPasswordKeeps(cfg, s0, s1, id, password, Some(false), None, env, at);
      RevokeForUserKeeps(cfg, s0, SetPassword(cfg, s1, id, password, Some(false), None, env).0, id, None, at);
    }
  }

  lemma VerifyKeepsCredentials(cfg: Config, s: Store, token: Secret, permission: string, now: Time)
    ensures VerifySession(cfg, s, token, permission, now).0.credentials == s.credentials
  {
    hide SessionByHash, Expired, Allows, Refresh;
    var found := SessionByHash(s, HashOf(token));
    if found.Some? {
      RefreshFrame(cfg, s, found.value, now);
    }
  }

  lemma AdminRevokeKeeps(cfg: Config, s0: Store, s: Store, actor: Secret, id: SessionId, env: Env, at: Moment)
    requires at.now == env.now
    requires Reached(cfg, s0, VerifySession(cfg, s, actor, SESSIONS_REVOKE, env.now).0, at)
    ensures Reached(cfg, s0, AdminRevokeSession(cfg, s, actor, id, env).0, at)
  {
    hide Reached, VerifySession;
    var (s1, p) := VerifySession(cfg, s, actor, SESSIONS_REVOKE, env.now);
    RevokeKeeps(cfg, s0, s1, id, at);
  }

  /** The token, and the permission asked of it, that a call verifies. */
  function Presented(call: Call): Option<(Secret, string)> {
    match call
    case Account(_) => None
    case OnSession(c) => if c.Verify? then Some((c.token, c.permission)) else None
    case Second(c) =>
      (match c
       case NeedAal2(token) => Some((token, ""))
       case StepUpWithTotp(token, _) => Some((token, ""))
       case StepUpWithCode(token, _) => Some((token, ""))
       case _ => None)
    case Administer(c) =>
      (match c
       case SetRole(actor, _, _) => Some((actor, USERS_WRITE))
       case Ban(actor, _) => Some((actor, USERS_BAN))
       case Unban(actor, _) => Some((actor, USERS_BAN))
       case Disable(actor, _) => Some((actor, USERS_WRITE))
       case Enable(actor, _) => Some((actor, USERS_WRITE))
       case SetUserPassword(actor, _, _) => Some((actor, USERS_WRITE))
       case RevokeAsAdmin(actor, _) => Some((actor, SESSIONS_REVOKE)))
  }

  /** The token hash a call verifies successfully, if any. */
  function VerifiedHash(cfg: Config, s: Store, call: Call, now: Time): Option<Hash> {
    var p := Presented(call);
    if p.Some? && VerifySession(cfg, s, p.value.0, p.value.1, now).1.Ok? then Some(HashOf(p.value.0)) else None
  }

  predicate IsStepUp(call: Call) {
    call.Second? && (call.factorCall.StepUpWithTotp? || call.factorCall.StepUpWithCode?)
  }

  /** The user a call reinstates. */
  function Reinstated(call: Call): Option<UserId> {
    match call
    case Administer(Unban(_, user)) => Some(user)
    case Administer(Enable(_, user)) => Some(user)
    case _ => None
  }

  function ProfileOf(call: Call): Option<SocialProfile> {
    match call
    case OnSession(SocialLogin(profile, _, _)) => Some(profile)
    case _ => None
  }

  function MomentOf(cfg: Config, s: Store, call: Call, env: Env): Moment {
    Moment(env.now, VerifiedHash(cfg, s, call, env.now), IsStepUp(call), Reinstated(call), ProfileOf(call))
  }

  /** The storage after the verification a call starts with, if it presents a token. */
  function Checked(cfg: Config, s: Store, call: Call, now: Time): Store {
    var p := Presented(call);
    if p.Some? then VerifySession(cfg, s, p.value.0, p.value.1, now).0 else s
  }

  lemma CheckedKeeps(cfg: Config, s: Store, call: Call, env: Env, at: Moment)
    requires Inv(cfg, s) && at == MomentOf(cfg, s, call, env)
    ensures Reached(cfg, s, Checked(cfg, s, call, env.now), at)
  {
    hide Inv, Reached, VerifySession;
    Begin(cfg, s, at);
    var p := Presented(call);
    if p.Some? {
      VerifyKeeps(cfg, s, s, p.value.0, p.value.1, at);
    }
  }

  lemma PresentedIsNamed(cfg: Config, s: Store, call: Call, env: Env, token: Secret, permission: string)
    requires Presented(call) == Some((token, permission))
    ensures Names(cfg, s, token, permission, MomentOf(cfg, s, call, env))
  {
    hide VerifySession;
  }

  lemma AccountCallsKeep(cfg: Config, s0: Store, s: Store, call: AccountCall, env: Env, at: Moment)
    requires at == MomentOf(cfg, s, Account(call), env)
    requires Reached(cfg, s0, Checked(cfg, s, Account(call), env.now), at) && Unused(s, env.drawn)
    ensures Reached(cfg, s0, AccountStep(cfg, s, call, env).0, at)
  {
    hide Reached, Names, CreateUserCall, BootstrapOwner, SetPassword, LoginPassword, NewFlow, ConsumeMagicLink,
      RequestVerification, ConsumeVerification, RequestReset, ConsumeReset, ConsumeSocialState, LoginSocial,
      VerifySession, RevokeSession, Cleanup, BeginEnrollment, VerifyEnrollment, StepUpTotp, CreateCodes, StepUpRecovery,
      UpdateRole, Suspend, Reinstate, AdminSetPassword, AdminRevokeSession, CreateFlow, SessionByHash;
    match call
    case CreateUserWith(email, role, password, verified) =>
      CreateUserCallKeeps(cfg, s0, s, email, role, password, verified, env, at);
    case Bootstrap(email, password) => BootstrapKeeps(cfg, s0, s, email, password, env, at);
    case ChangePassword(user, password, revoke, except) =>
      SetPasswordKeeps(cfg, s0, s, user, password, revoke, except, env, at);
    case PasswordLogin(email, password) => LoginPasswordKeeps(cfg, s0, s, email, password, env, at);
    case AskMagicLink(email, _) =>
      if cfg.normalize(email).Some? {
        RequestKeeps(cfg, s0, s, MagicLink, "email", None, cfg.normalize(email), None, env, at);
      }
    case UseMagicLink(token) => ConsumeMagicLinkKeeps(cfg, s0, s, token, env, at);
    case AskVerification(id, address) => RequestVerificationKeeps(cfg, s0, s, id, address, env, at);
    case UseVerification(token) => ConsumeVerificationKeeps(cfg, s0, s, token, env, at);
    case AskReset(email) => RequestResetKeeps(cfg, s0, s, email, env, at);
    case UseReset(token, password) => ConsumeResetKeeps(cfg, s0, s, token, password, env, at);
  }

  lemma SocialAndSessionCallsKeep(cfg: Config, s0: Store, s: Store, call: SessionCall, env: Env, at: Moment)
    requires at == MomentOf(cfg, s, OnSession(call), env)
    requires Reached(cfg, s0, Checked(cfg, s, OnSession(call), env.now), at) && Unused(s, env.drawn)
    ensures Reached(cfg, s0, SessionCallStep(cfg, s, call, env).0, at)
  {
    hide Reached, Names, CreateUserCall, BootstrapOwner, SetPassword, LoginPassword, NewFlow, ConsumeMagicLink,
      RequestVerification, ConsumeVerification, RequestReset, ConsumeReset, ConsumeSocialState, LoginSocial,
      VerifySession, RevokeSession, Cleanup, BeginEnrollment, VerifyEnrollment, StepUpTotp, CreateCodes, StepUpRecovery,
      UpdateRole, Suspend, Reinstate, AdminSetPassword, AdminRevokeSession, CreateFlow, SessionByHash;
    match call
    case BeginSocial(provider, _, nonce) => RequestKeeps(cfg, s0, s, OAuth, provider, nonce, None, None, env, at);
    case UseSocialState(provider, state, nonce) => ConsumeSocialKeeps(cfg, s0, s, provider, state, nonce, env, at);
    case SocialLogin(profile, given, nonce) => LoginSocialKeeps(cfg, s0, s, profile, given, nonce, env, at);
    case Verify(_, _) =>
    case LogoutWith(token) =>
      if SessionByHash(s, HashOf(token)).Some? {
        RevokeKeeps(cfg, s0, s, SessionByHash(s, HashOf(token)).value.id, at);
      }
    case Revoke(session) => RevokeKeeps(cfg, s0, s, session, at);
    case CleanupExpired => CleanupKeeps(cfg, s0, s, at);
  }

  lemma FactorCallsKeep(cfg: Config, s0: Store, s: Store, call: FactorCall, env: Env, at: Moment)
    requires at == MomentOf(cfg, s, Second(call), env)
    requires Inv(cfg, s) && Reached(cfg, s0, Checked(cfg, s, Second(call), env.now), at) && Unused(s, env.drawn)
    ensures Reached(cfg, s0, FactorStep(cfg, s, call, env).0, at)
  {
    hide Inv, Reached, Names, CreateUserCall, BootstrapOwner, SetPassword, LoginPassword, NewFlow, ConsumeMagicLink,
      RequestVerification, ConsumeVerification, RequestReset, ConsumeReset, ConsumeSocialState, LoginSocial,
      VerifySession, RevokeSession, Cleanup, BeginEnrollment, VerifyEnrollment, StepUpTotp, CreateCodes, StepUpRecovery,
      UpdateRole, Suspend, Reinstate, AdminSetPassword, AdminRevokeSession, CreateFlow, SessionByHash;
    match call
    case NeedAal2(_) =>
    case BeginTotp(user) => EnrollmentKeeps(cfg, s0, s, user, 0, "", env, at);
    case ConfirmTotp(user, factor, code) => EnrollmentKeeps(cfg, s0, s, user, factor, code, env, at);
    case StepUpWithTotp(token, code) =>
      PresentedIsNamed(cfg, s, Second(call), env, token, ""); StepUpTotpKeeps(cfg, s0, s, token, code, env, at);
    case MakeCodes(user) => CreateCodesKeeps(cfg, s0, s, user, env.drawn.codes, at);
    case StepUpWithCode(token, recovery) =>
      PresentedIsNamed(cfg, s, Second(call), env, token, ""); StepUpRecoveryKeeps(cfg, s0, s, token, recovery, env, at);
  }

  lemma AdminCallsKeep(cfg: Config, s0: Store, s: Store, call: AdminCall, env: Env, at: Moment)
    requires at == MomentOf(cfg, s, Administer(call), env)
    requires Reached(cfg, s0, Checked(cfg, s, Administer(call), env.now), at) && Unused(s, env.drawn)
    ensures Reached(cfg, s0, AdminStep(cfg, s, call, env).0, at)
  {
    hide Reached, Names, CreateUserCall, BootstrapOwner, SetPassword, LoginPassword, NewFlow, ConsumeMagicLink,
      RequestVerification, ConsumeVerification, RequestReset, ConsumeReset, ConsumeSocialState, LoginSocial,
      VerifySession, RevokeSession, Cleanup, BeginEnrollment, VerifyEnrollment, StepUpTotp, CreateCodes, StepUpRecovery,
      UpdateRole, Suspend, Reinstate, AdminSetPassword, AdminRevokeSession, CreateFlow, SessionByHash;
    match call
    case SetRole(actor, user, role) => UpdateRoleKeeps(cfg, s0, s, actor, user, role, env, at);
    case Ban(actor, user) => SuspendKeeps(cfg, s0, s, actor, user, Banned, env, at);
    case Unban(actor, user) => ReinstateKeeps(cfg, s0, s, actor, user, USERS_BAN, env, at);
    case Disable(actor, user) => SuspendKeeps(cfg, s0, s, actor, user, Disabled, env, at);
    case Enable(actor, user) => ReinstateKeeps(cfg, s0, s, actor, user, USERS_WRITE, env, at);
    case SetUserPassword(actor, user, password) => AdminSetPasswordKeeps(cfg, s0, s, actor, user, password, env, at);
    case RevokeAsAdmin(actor, session) => AdminRevokeKeeps(cfg, s0, s, actor, session, env, at);
  }

  /** Every call keeps the invariants and evolves the store as allowed. */
  lemma StepKeeps(cfg: Config, s0: Store, s: Store, call: Call, env: Env, at: Moment)
    requires at == MomentOf(cfg, s, call, env)
    requires Inv(cfg, s) && Reached(cfg, s0, Checked(cfg, s, call, env.now), at) && Unused(s, env.drawn)
    ensures Reached(cfg, s0, Step(cfg, s, call, env).0, at)
  {
    hide Inv, Reached, MomentOf, AccountStep, SessionCallStep, FactorStep, AdminStep, Unused;
    match call
    case Account(c) => AccountCallsKeep(cfg, s0, s, c, env, at);
    case OnSession(c) => SocialAndSessionCallsKeep(cfg, s0, s, c, env, at);
    case Second(c) => FactorCallsKeep(cfg, s0, s, c, env, at);
    case Administer(c) => AdminCallsKeep(cfg, s0, s, c, env, at);
  }
}

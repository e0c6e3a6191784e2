/** What single calls mean, said without their bodies: when logins and step-ups succeed, and
    what a request followed by its use does. */
module AuthMeaning {
  import opened Prelude
  import opened Text
  import opened Permissions
  import opened AuthModels
  import opened AuthStore
  import opened AuthCalls
  import opened AuthRuns
  import opened AuthInvariants
  import opened AuthSafety
  import opened AuthGuarantees
  import opened SessionLifetimes

  // ----- Passwords -----

  /** Some usable credential of the user has this password. */
  ghost predicate HasPassword(s: Store, user: UserId, password: string) {
    exists c :: c in s.credentials && s.credentials[c].userId == user && s.credentials[c].revokedAt == None
      && s.credentials[c].hash == Some(PasswordHash(password))
  }

  lemma PasswordLookup(s: Store, user: UserId, password: string)
    requires CredentialsIndexed(s.credentials, s.passwordOf)
    ensures HasPassword(s, user, password)
      <==> PasswordCredential(s, user).Some? && PasswordCredential(s, user).value.hash == Some(PasswordHash(password))
  {
  }

  lemma ValidCredentials(cfg: Config, s: Store)
    requires Inv(cfg, s)
    ensures CredentialsIndexed(s.credentials, s.passwordOf) && UsersIndexed(s.users, s.usersByEmail)
    ensures FactorsListed(s.factors, s.factorOrder) && CodesListed(s.codes, s.codeOrder)
  {
    hide UsersIndexed, SessionsIndexed, FlowsIndexed, CredentialsIndexed, IdentitiesKeyed, FactorsListed, CodesListed,
      Snapshots;
  }

  lemma CredentialWritten(s: Store, c: Credential, user: UserId, except: Option<SessionId>, now: Time)
    requires CredentialsIndexed(s.credentials, s.passwordOf) && c.hash.Some? && c.revokedAt == None
    requires c.userId in s.passwordOf ==> s.passwordOf[c.userId] == c.id
    requires c.id in s.credentials ==> s.credentials[c.id].userId == c.userId
    ensures var s' := UpsertCredential(s, c);
      && PasswordCredential(s', user) == (if user == c.userId then Some(c) else PasswordCredential(s, user))
      && CredentialsIndexed(s'.credentials, s'.passwordOf)
  {
    CredentialWrite(s.credentials, s.passwordOf, c);
  }

  lemma RevokeLeavesCredentials(s: Store, owner: UserId, except: Option<SessionId>, now: Time, user: UserId)
    ensures var s' := RevokeForUser(s, owner, except, now);
      && s'.credentials == s.credentials && s'.passwordOf == s.passwordOf
      && PasswordCredential(s', user) == PasswordCredential(s, user)
  {
  }

  /** A password set is the only one that the user's credentials then have; those of other
      users stay. */
  lemma PasswordReplaced(cfg: Config, s: Store, id: UserId, password: string, revoke: Option<bool>,
                         except: Option<SessionId>, env: Env, user: UserId, attempt: string)
    requires Inv(cfg, s) && env.drawn.credential !in s.credentials
    requires SetPassword(cfg, s, id, password, revoke, except, env).1.Ok?
    ensures var s' := SetPassword(cfg, s, id, password, revoke, except, env).0;
      HasPassword(s', user, attempt) <==> if user == id then attempt == password else HasPassword(s, user, attempt)
  {
    hide Inv, HasPassword, CredentialsIndexed, UsersIndexed, FactorsListed, CodesListed, RevokeForUser,
      UpsertCredential, PasswordCredential;
    ValidCredentials(cfg, s);
    var at := At(env.now);
    Begin(cfg, s, at);
    CredentialFound(cfg, s, s, id, at);
    var c := SetPassword(cfg, s, id, password, revoke, except, env).1.value;
    CredentialWritten(s, c, user, except, env.now);
    var s1 := UpsertCredential(s, c);
    RevokeLeavesCredentials(s1, id, except, env.now, user);
    PasswordLookup(s, user, attempt);
    PasswordLookup(SetPassword(cfg, s, id, password, revoke, except, env).0, user, attempt);
  }

  /** The profile lets the user in: with a verified address if that is required, and only under
      the configured address, up to case, when there is a single owner. */
  predicate Admitted(cfg: Config, u: User) {
    && (cfg.requireVerified ==> u.verified)
    && (cfg.profile == SingleOwner ==> cfg.ownerEmail != "" && Lower(u.email) == Lower(cfg.ownerEmail))
  }

  /** Users who are not let in are refused, with the owner rule before the other. */
  lemma ObjectionMeaning(cfg: Config, u: User)
    ensures ProfileObjection(cfg, u) == None <==> Admitted(cfg, u)
    ensures !Admitted(cfg, u) ==> ProfileObjection(cfg, u) == Some(
      if cfg.profile == SingleOwner && (cfg.ownerEmail == "" || Lower(u.email) != Lower(cfg.ownerEmail))
      then AuthorizationDenied(NotOwner) else AuthenticationFailed(UnverifiedEmail))
  {
  }

  /** The account may log in with the address and password. */
  ghost predicate MayLogIn(cfg: Config, s: Store, id: UserId, email: string, password: string) {
    && id in s.users && EmailKey(s.users[id].email) == EmailKey(email)
    && s.users[id].status == Active && Admitted(cfg, s.users[id]) && HasPassword(s, id, password)
  }

  lemma UserOfAddress(s: Store, email: string, id: UserId)
    requires UsersIndexed(s.users, s.usersByEmail)
    ensures id in s.users && EmailKey(s.users[id].email) == EmailKey(email)
      <==> UserByEmail(s, email).Some? && UserByEmail(s, email).value.id == id
    ensures var found := UserByEmail(s, email);
      found.Some? ==> found.value.id in s.users && s.users[found.value.id] == found.value
  {
    hide EmailKey;
  }

  /** With a fresh token the end of a login succeeds and stores the session. */
  lemma FinishLoginSucceeds(cfg: Config, s: Store, u: User, provider: string, env: Env)
    requires u.id in s.users && HashOf(env.drawn.sessionToken) !in s.sessionsByHash
    ensures var (s', x) := FinishLogin(cfg, s, u, provider, env);
      && x == Ok(NewSession(cfg, u, provider, env))
      && SessionByHash(s', HashOf(env.drawn.sessionToken)) == Some(NewSession(cfg, u, provider, env))
      && s'.users == s.users[u.id := u.(lastLoginAt := Some(env.now), updatedAt := env.now)]
  {
    hide PermissionsFor, EmailKey;
  }

  /** A password login succeeds if and only if the limiter lets it through and some active
      account the profile accepts has the address and the password. */
  lemma PasswordLoginMeaning(cfg: Config, s: Store, email: string, password: string, env: Env)
    requires Inv(cfg, s) && Unused(s, env.drawn)
    ensures LoginPassword(cfg, s, email, password, env).1.Ok? <==> (
      && env.allowed && cfg.normalize(email).Some?
      && exists id :: MayLogIn(cfg, s, id, cfg.normalize(email).value, password))
  {
    hide Inv, UsersIndexed, CredentialsIndexed, FactorsListed, CodesListed, HasPassword, EmailKey, UserByEmail,
      PasswordCredential, FinishLogin, ProfileObjection, Admitted, NewSession;
    ValidCredentials(cfg, s);
    var normal := cfg.normalize(email);
    if normal.Some? {
      var found := UserByEmail(s, normal.value);
      if found.Some? {
        ObjectionMeaning(cfg, found.value);
        UserOfAddress(s, normal.value, found.value.id);
        PasswordLookup(s, found.value.id, password);
        FinishLoginSucceeds(cfg, s, found.value, "email", env);
        if LoginPassword(cfg, s, email, password, env).1.Ok? {
          assert MayLogIn(cfg, s, found.value.id, normal.value, password);
        }
      }
      if id :| MayLogIn(cfg, s, id, normal.value, password) {
        UserOfAddress(s, normal.value, id);
      }
    }
  }

  /** After a password change, an active account logs in with the new password and no other. */
  lemma OnlyNewPasswordLogsIn(cfg: Config, s: Store, id: UserId, password: string, env: Env, email: string,
                              attempt: string, env': Env)
    requires Inv(cfg, s) && env.drawn.credential !in s.credentials
    requires SetPassword(cfg, s, id, password, None, None, env).1.Ok?
    requires id in s.users && s.users[id].status == Active && Admitted(cfg, s.users[id])
    requires cfg.normalize(email).Some? && EmailKey(cfg.normalize(email).value) == EmailKey(s.users[id].email)
    requires env'.allowed && Unused(SetPassword(cfg, s, id, password, None, None, env).0, env'.drawn)
    ensures LoginPassword(cfg, SetPassword(cfg, s, id, password, None, None, env).0, email, attempt, env').1.Ok?
      <==> attempt == password
  {
    hide Inv, Unused, SetPassword, LoginPassword, HasPassword, UsersIndexed, CredentialsIndexed, FactorsListed,
      CodesListed, EmailKey, Admitted, UserByEmail;
    var s' := SetPassword(cfg, s, id, password, None, None, env).0;
    var at := At(env.now);
    Begin(cfg, s, at);
    SetPasswordKeeps(cfg, s, s, id, password, None, None, env, at);
    ReachedIsValid(cfg, s, s', at);
    SetPasswordFrame(cfg, s, id, password, None, None, env);
    ValidCredentials(cfg, s');
    PasswordReplaced(cfg, s, id, password, None, None, env, id, attempt);
    PasswordLoginMeaning(cfg, s', email, attempt, env');
    var normal := cfg.normalize(email).value;
    UserOfAddress(s', normal, id);
    if attempt == password {
      assert MayLogIn(cfg, s', id, normal, attempt);
    }
    if other :| MayLogIn(cfg, s', other, normal, attempt) {
      UserOfAddress(s', normal, other);
    }
  }

  // ----- Issued sessions -----

  /** A login's token verifies, at the first level and for that user, until a lifetime ends. */
  lemma LoginRoundTrip(cfg: Config, s: Store, u: User, provider: string, env: Env, now: Time)
    requires u.id in s.users && HashOf(env.drawn.sessionToken) !in s.sessionsByHash && u.status == Active
    requires LoginWith(cfg, s, u, provider, env).1.Ok?
    requires now < env.now + cfg.sessionTtl && (cfg.idleTtl != 0 ==> now < env.now + cfg.idleTtl)
    ensures var p := VerifySession(cfg, LoginWith(cfg, s, u, provider, env).0, env.drawn.sessionToken, "", now).1;
      p.Ok? && p.value.user.id == u.id && p.value.session.assurance == AAL1
  {
    hide ProfileObjection, FinishLogin, SessionByHash, PermissionsFor, Allows, TouchDue;
    FinishLoginSucceeds(cfg, s, u, provider, env);
    var s' := FinishLogin(cfg, s, u, provider, env).0;
    LoginStores(cfg, s, u, provider, env);
  }

  lemma LoginStores(cfg: Config, s: Store, u: User, provider: string, env: Env)
    requires u.id in s.users && HashOf(env.drawn.sessionToken) !in s.sessionsByHash
    ensures var s' := FinishLogin(cfg, s, u, provider, env).0;
      env.drawn.session in s'.sessions && s'.sessions[env.drawn.session] == NewSession(cfg, u, provider, env)
  {
    hide PermissionsFor, EmailKey;
  }

  // ----- One-time flows -----

  /** A created flow can be consumed until it expires, and then never again. */
  lemma FlowWorksOnce(s: Store, f: Flow, now: Time, kind: FlowKind, provider: string, later: Time)
    requires f.stateHash !in s.flowsByHash && f.consumedAt == None
    ensures var s1 := CreateFlow(s, f).0;
      var (s2, used) := ConsumeFlow(s1, f.stateHash, f.kind, f.provider, now);
      && (used.Some? <==> now < f.expiresAt)
      && (used.Some? ==> used.value == f.(consumedAt := Some(now)))
      && (used.Some? ==> ConsumeFlow(s2, f.stateHash, kind, provider, later).1 == None)
  {
  }

  /** Equal but for flows and second factors. */
  predicate SameAccounts(s: Store, s': Store) {
    && s'.users == s.users && s'.usersByEmail == s.usersByEmail && s'.sessionsByHash == s.sessionsByHash
    && s'.sessions == s.sessions
    && s'.credentials == s.credentials && s'.passwordOf == s.passwordOf && s'.identities == s.identities
  }

  lemma ConsumeLeaves(s: Store, h: Hash, kind: FlowKind, provider: string, now: Time)
    ensures SameAccounts(s, ConsumeFlow(s, h, kind, provider, now).0)
  {
    hide FlowByHash, Consumable;
    if FlowByHash(s, h).Some? && Consumable(FlowByHash(s, h).value, kind, provider, now) {
      var f := FlowByHash(s, h).value;
      assert SameAccounts(s, s.(flows := s.flows[f.id := f.(consumedAt := Some(now))]));
    }
  }

  lemma CreateLeaves(s: Store, f: Flow)
    ensures SameAccounts(s, CreateFlow(s, f).0)
  {
    if f.stateHash in s.flowsByHash {
    }
  }

  /** A magic link logs its address's user in until it expires, and not from then on. */
  lemma MagicLinkRoundTrip(cfg: Config, s: Store, email: string, env: Env, env': Env)
    requires Inv(cfg, s) && Unused(s, env.drawn) && RequestMagicLink(cfg, s, email, true, env).1.Ok?
    requires cfg.normalize(email) != Some("")
    requires UserByEmail(s, cfg.normalize(email).value).Some?
    requires Admitted(cfg, UserByEmail(s, cfg.normalize(email).value).value)
    requires HashOf(env'.drawn.sessionToken) !in s.sessionsByHash
    ensures var u := UserByEmail(s, cfg.normalize(email).value).value;
      var r := ConsumeMagicLink(cfg, RequestMagicLink(cfg, s, email, true, env).0, env.drawn.token, env').1;
      if env'.now < env.now + cfg.flowTtl then r == Ok(NewSession(cfg, u, "email", env'))
      else r == Err(AuthenticationFailed(InvalidMagicLink))
  {
    hide Inv, CreateFlow, ConsumeFlow, FinishLogin, ProfileObjection, Admitted, IsOwnerEmail, NewSession, EmailKey;
    ObjectionMeaning(cfg, UserByEmail(s, cfg.normalize(email).value).value);
    var f := NewFlow(cfg, MagicLink, "email", None, cfg.normalize(email), None, env);
    FlowWorksOnce(s, f, env'.now, MagicLink, "email", env'.now);
    CreateLeaves(s, f);
    var s1 := CreateFlow(s, f).0;
    ConsumeLeaves(s1, f.stateHash, MagicLink, "email", env'.now);
    var s2 := ConsumeFlow(s1, f.stateHash, MagicLink, "email", env'.now).0;
    var u := UserByEmail(s, cfg.normalize(email).value).value;
    assert UserByEmail(s2, cfg.normalize(email).value) == Some(u);
    StoredUser(cfg, s, cfg.normalize(email).value);
    FinishLoginSucceeds(cfg, s2, u, "email", env');
  }

  lemma StoredUser(cfg: Config, s: Store, email: string)
    requires Inv(cfg, s)
    ensures var found := UserByEmail(s, email);
      found.Some? ==> found.value.id in s.users && s.users[found.value.id] == found.value
  {
    hide Inv, UsersIndexed, CredentialsIndexed, FactorsListed, CodesListed, UserByEmail;
    ValidCredentials(cfg, s);
    UserOfAddress(s, email, 0);
  }

  /** A reset requested by an active account and used in time gives it exactly the new password. */
  lemma ResetRoundTrip(cfg: Config, s: Store, email: string, env: Env, password: string, env': Env, attempt: string)
    requires Inv(cfg, s) && Unused(s, env.drawn) && RequestReset(cfg, s, email, env).1.Ok?
    requires var found := UserByEmail(s, cfg.normalize(email).value);
      && found.Some? && found.value.status == Active
      && (cfg.profile == SingleOwner ==>
            cfg.normalize(email).value == Lower(cfg.ownerEmail) && IsOwnerEmail(cfg, found.value.email))
    requires env'.now < env.now + cfg.flowTtl && |password| >= 8 && env'.drawn.credential !in s.credentials
    ensures var u := UserByEmail(s, cfg.normalize(email).value).value;
      var (s', r) := ConsumeReset(cfg, RequestReset(cfg, s, email, env).0, env.drawn.token, password, env');
      r == Ok(u) && (HasPassword(s', u.id, attempt) <==> attempt == password)
  {
    hide Inv, CreateFlow, ConsumeFlow, SetPassword, RevokeForUser, UserByEmail, HasPassword, IsOwnerEmail, Lower;
    var normal := cfg.normalize(email).value;
    var u := UserByEmail(s, normal).value;
    var f := NewFlow(cfg, PasswordReset, "email", None, Some(normal), Some(u.id), env);
    FlowWorksOnce(s, f, env'.now, PasswordReset, "email", env'.now);
    CreateLeaves(s, f);
    var s1 := CreateFlow(s, f).0;
    ConsumeLeaves(s1, f.stateHash, PasswordReset, "email", env'.now);
    var s2 := ConsumeFlow(s1, f.stateHash, PasswordReset, "email", env'.now).0;
    StoredUser(cfg, s, normal);
    ResetStoreIsValid(cfg, s, f, env, env');
    SetPasswordSucceeds(cfg, s2, u.id, password, env');
    PasswordReplaced(cfg, s2, u.id, password, Some(false), None, env', u.id, attempt);
    SameCredentials(SetPassword(cfg, s2, u.id, password, Some(false), None, env').0, u.id, env'.now, attempt);
  }

  lemma ResetStoreIsValid(cfg: Config, s: Store, f: Flow, env: Env, env': Env)
    requires Inv(cfg, s) && f.id !in s.flows
    ensures Inv(cfg, ConsumeFlow(CreateFlow(s, f).0, f.stateHash, PasswordReset, "email", env'.now).0)
  {
    hide Inv, Reached;
    var at := At(env'.now);
    Begin(cfg, s, at);
    CreateFlowKeeps(cfg, s, s, f, at);
    ConsumeFlowKeeps(cfg, s, CreateFlow(s, f).0, f.stateHash, PasswordReset, "email", at);
    ReachedIsValid(cfg, s, ConsumeFlow(CreateFlow(s, f).0, f.stateHash, PasswordReset, "email", env'.now).0, at);
  }

  lemma SetPasswordSucceeds(cfg: Config, s: Store, id: UserId, password: string, env: Env)
    requires id in s.users && |password| >= 8
    ensures SetPassword(cfg, s, id, password, Some(false), None, env).1.Ok?
  {
    hide PasswordCredential, UpsertCredential, RevokeForUser;
  }

  lemma SameCredentials(s: Store, user: UserId, now: Time, password: string)
    ensures HasPassword(RevokeForUser(s, user, None, now), user, password) <==> HasPassword(s, user, password)
  {
  }

  /** An address confirmed in time is verified. */
  lemma VerificationRoundTrip(cfg: Config, s: Store, id: UserId, env: Env, env': Env)
    requires Inv(cfg, s) && Unused(s, env.drawn) && RequestVerification(cfg, s, Some(id), None, env).1.Ok?
    requires env'.now < env.now + cfg.flowTtl && (s.users[id].email != "" ==> cfg.normalize(s.users[id].email).Some?)
    ensures var (s', r) :=
      ConsumeVerification(cfg, RequestVerification(cfg, s, Some(id), None, env).0, env.drawn.token, env');
      r.Ok? && r.value.id == id && id in s'.users && s'.users[id].verified
  {
    hide Inv, CreateFlow, ConsumeFlow, UpsertIdentity, GetIdentity, UserByEmail, IsOwnerEmail, EmailKey;
    var u := s.users[id];
    UsersKnowTheirIds(cfg, s, id);
    var f := NewFlow(cfg, EmailVerification, "email", None, Some(u.email), Some(u.id), env);
    FlowWorksOnce(s, f, env'.now, EmailVerification, "email", env'.now);
    CreateLeaves(s, f);
    var s1 := CreateFlow(s, f).0;
    ConsumeLeaves(s1, f.stateHash, EmailVerification, "email", env'.now);
    forall s: Store, i ensures UpsertIdentity(s, i).users == s.users {
      UpsertIdentityFrame(s, i);
    }
  }

  lemma UsersKnowTheirIds(cfg: Config, s: Store, id: UserId)
    requires Inv(cfg, s) && id in s.users
    ensures s.users[id].id == id
  {
    hide SessionsIndexed, FlowsIndexed, CredentialsIndexed, IdentitiesKeyed, FactorsListed, CodesListed, Snapshots;
  }

  // ----- Second factors -----

  /** The factor is an enabled TOTP factor of the user whose stored secret, the one it was
      enrolled with, gives the code at a counter above the last one used. */
  predicate FactorAccepts(cfg: Config, s: Store, user: UserId, id: FactorId, code: string, now: Time) {
    && id in s.factors && id in s.vault
    && var f := s.factors[id];
       var c := cfg.counterFor(s.vault[id], code, now);
       && f.userId == user && f.kind == Totp && f.enabled && f.secretHash == Some(HashOf(s.vault[id]))
       && c.Some? && (f.lastUsedCounter.Some? ==> f.lastUsedCounter.value < c.value)
  }

  lemma UsableMeaning(cfg: Config, s: Store, f: Factor, user: UserId, code: string, now: Time)
    requires f.id in s.factors && s.factors[f.id] == f && f.userId == user
    ensures Usable(cfg, s, f, code, now) <==> FactorAccepts(cfg, s, user, f.id, code, now)
    ensures FactorAccepts(cfg, s, user, f.id, code, now) ==>
      CodeCounter(cfg, s, f, code, now) == cfg.counterFor(s.vault[f.id], code, now)
  {
  }

  lemma {:induction false} ListedFactors(s: Store, order: seq<FactorId>, user: UserId)
    requires forall id :: id in s.factors ==> s.factors[id].id == id
    ensures forall f ::
      f in FactorsIn(s, order, user) <==> f.id in order && f.id in s.factors && s.factors[f.id] == f && f.userId == user
  {
    if order != [] {
      ListedFactors(s, order[1..], user);
      assert forall id :: id in order <==> id == order[0] || id in order[1..];
    }
  }

  lemma {:induction false} VerifyTotpInMeaning(cfg: Config, s: Store, listed: seq<Factor>, code: string, now: Time)
    requires forall f :: f in listed ==> f.id in s.factors && s.factors[f.id] == f
    ensures VerifyTotpIn(cfg, s, listed, code, now).1.Ok?
      <==> exists i :: 0 <= i < |listed| && Usable(cfg, s, listed[i], code, now)
    decreases |listed|
  {
    hide CodeCounter;
    if listed != [] && !Usable(cfg, s, listed[0], code, now) {
      VerifyTotpInMeaning(cfg, s, listed[1..], code, now);
      if i :| 0 <= i < |listed| && Usable(cfg, s, listed[i], code, now) {
        assert Usable(cfg, s, listed[1..][i - 1], code, now);
      }
    }
  }

  /** A code is accepted if and only if an enabled TOTP factor of the user matches it at a
      counter above the last one used. */
  lemma TotpMeaning(cfg: Config, s: Store, user: UserId, code: string, now: Time)
    requires FactorsListed(s.factors, s.factorOrder)
    ensures VerifyTotpIn(cfg, s, FactorsOf(s, user), code, now).1.Ok?
      <==> exists id :: FactorAccepts(cfg, s, user, id, code, now)
  {
    hide Usable, VerifyTotpIn, FactorAccepts;
    var listed := FactorsOf(s, user);
    ListedFactors(s, s.factorOrder, user);
    VerifyTotpInMeaning(cfg, s, listed, code, now);
    if i :| 0 <= i < |listed| && Usable(cfg, s, listed[i], code, now) {
      assert listed[i] in listed;
      UsableMeaning(cfg, s, listed[i], user, code, now);
      assert FactorAccepts(cfg, s, user, listed[i].id, code, now);
    }
    if id :| FactorAccepts(cfg, s, user, id, code, now) {
      AcceptingIsStored(cfg, s, user, id, code, now);
      UsableMeaning(cfg, s, s.factors[id], user, code, now);
      assert s.factors[id] in listed;
      var i :| 0 <= i < |listed| && listed[i] == s.factors[id];
      assert Usable(cfg, s, listed[i], code, now);
    }
  }

  lemma AcceptingIsStored(cfg: Config, s: Store, user: UserId, id: FactorId, code: string, now: Time)
    requires FactorAccepts(cfg, s, user, id, code, now)
    ensures id in s.factors && s.factors[id].userId == user
  {
  }

  /** The user has an unused recovery code with this hash. */
  predicate CodeAvailable(s: Store, user: UserId, id: CodeId, h: Hash) {
    id in s.codes && s.codes[id].userId == user && s.codes[id].usedAt == None && s.codes[id].codeHash == h
  }

  lemma {:induction false} ListedCodes(s: Store, order: seq<CodeId>, user: UserId)
    requires forall id :: id in s.codes ==> s.codes[id].id == id
    ensures forall c ::
      c in CodesIn(s, order, user) <==> c.id in order && c.id in s.codes && s.codes[c.id] == c && c.userId == user
  {
    if order != [] {
      ListedCodes(s, order[1..], user);
      assert forall id :: id in order <==> id == order[0] || id in order[1..];
    }
  }

  lemma {:induction false} FindCodeMeaning(listed: seq<RecoveryCode>, h: Hash)
    ensures var found := FindCode(listed, h);
      && (found.Some? ==> found.value in listed && found.value.usedAt == None && found.value.codeHash == h)
      && (found == None ==> forall c :: c in listed ==> !(c.usedAt == None && c.codeHash == h))
  {
    if listed != [] {
      FindCodeMeaning(listed[1..], h);
    }
  }

  lemma RecoveryMeaning(s: Store, user: UserId, h: Hash)
    requires CodesListed(s.codes, s.codeOrder)
    ensures var found := FindCode(CodesOf(s, user), h);
      && (found.Some? <==> exists id :: CodeAvailable(s, user, id, h))
      && (found.Some? ==> CodeAvailable(s, user, found.value.id, h))
  {
    ListedCodes(s, s.codeOrder, user);
    FindCodeMeaning(CodesOf(s, user), h);
    var found := FindCode(CodesOf(s, user), h);
    if found.Some? {
      assert CodeAvailable(s, user, found.value.id, h);
    }
    if id :| CodeAvailable(s, user, id, h) {
      assert s.codes[id] in CodesOf(s, user);
    }
  }

  lemma VerifiedStays(cfg: Config, s: Store, token: Secret, now: Time)
    ensures var s' := VerifySession(cfg, s, token, "", now).0;
      && s'.codes == s.codes && s'.codeOrder == s.codeOrder && s'.factors == s.factors
      && s'.factorOrder == s.factorOrder
      && s'.vault == s.vault && s'.users == s.users
  {
    hide SessionByHash, Expired, Allows, Refresh;
    var found := SessionByHash(s, HashOf(token));
    if found.Some? {
      RefreshFrame(cfg, s, found.value, now);
    }
  }

  lemma VerifiedCanRaise(cfg: Config, s: Store, token: Secret, now: Time)
    requires Inv(cfg, s) && VerifySession(cfg, s, token, "", now).1.Ok?
    ensures var (s', p) := VerifySession(cfg, s, token, "", now);
      Unrevoked(s', p.value.session.id)
  {
    hide Inv, SessionByHash, Expired, Allows, Refresh;
    var at := At(now);
    Begin(cfg, s, at);
    SessionFound(cfg, s, s, HashOf(token), at);
    Refreshed(cfg, s, s, SessionByHash(s, HashOf(token)).value, now, at);
  }

  lemma RaiseSucceeds(s: Store, p: Principal, now: Time)
    requires Unrevoked(s, p.session.id)
    ensures RaiseAssurance(s, p, now).1.Ok?
  {
  }

  /** A recovery step-up succeeds if and only if the token verifies, the limiter lets it
      through and the user has an unused code with the hash. */
  lemma RecoveryStepUpMeaning(cfg: Config, s: Store, token: Secret, code: Secret, env: Env)
    requires Inv(cfg, s)
    ensures var p := VerifySession(cfg, s, token, "", env.now).1;
      (StepUpRecovery(cfg, s, token, code, env).1.Ok? <==>
        (p.Ok? && env.allowed && exists id :: CodeAvailable(s, p.value.user.id, id, HashOf(code))))
  {
    hide Inv, VerifySession, FindCode, CodesOf, SetAssurance, CodesListed, CodeAvailable, FactorsListed, UsersIndexed,
      CredentialsIndexed, RaiseAssurance;
    ValidCredentials(cfg, s);
    VerifiedStays(cfg, s, token, env.now);
    var (s1, p) := VerifySession(cfg, s, token, "", env.now);
    if p.Ok? && env.allowed {
      var user := p.value.user.id;
      RecoveryMeaning(s1, user, HashOf(code));
      CodesStay(s, s1, user, HashOf(code));
      var found := FindCode(CodesOf(s1, user), HashOf(code));
      if found.Some? {
        VerifiedCanRaise(cfg, s, token, env.now);
        MarkAvailable(s1, user, found.value.id, HashOf(code), env.now);
        RaiseSucceeds(MarkCode(s1, found.value.id, env.now).0, p.value, env.now);
      }
    }
  }

  lemma CodesStay(s: Store, s': Store, user: UserId, h: Hash)
    requires s'.codes == s.codes
    ensures forall id :: CodeAvailable(s', user, id, h) <==> CodeAvailable(s, user, id, h)
  {
  }

  lemma MarkAvailable(s: Store, user: UserId, id: CodeId, h: Hash, now: Time)
    requires CodeAvailable(s, user, id, h)
    ensures MarkCode(s, id, now).1.Ok? && MarkCode(s, id, now).0.sessions == s.sessions
    ensures MarkCode(s, id, now).0.codes == s.codes[id := s.codes[id].(usedAt := Some(now))]
  {
  }

  /** A TOTP step-up succeeds if and only if the token verifies, the limiter lets it through and
      a factor of the user accepts the code. */
  lemma TotpStepUpMeaning(cfg: Config, s: Store, token: Secret, code: string, env: Env)
    requires Inv(cfg, s)
    ensures var p := VerifySession(cfg, s, token, "", env.now).1;
      (StepUpTotp(cfg, s, token, code, env).1.Ok? <==>
        (p.Ok? && env.allowed && exists id :: FactorAccepts(cfg, s, p.value.user.id, id, code, env.now)))
  {
    hide Inv, VerifySession, VerifyTotpIn, FactorsOf, RaiseAssurance, FactorAccepts, CodesListed, FactorsListed,
      UsersIndexed, CredentialsIndexed;
    ValidCredentials(cfg, s);
    VerifiedStays(cfg, s, token, env.now);
    var (s1, p) := VerifySession(cfg, s, token, "", env.now);
    if p.Ok? && env.allowed {
      var user := p.value.user.id;
      TotpMeaning(cfg, s1, user, code, env.now);
      FactorsStayAccepting(cfg, s, s1, user, code, env.now);
      VerifyTotpFrame(cfg, s1, FactorsOf(s1, user), code, env.now);
      VerifiedCanRaise(cfg, s, token, env.now);
      RaiseSucceeds(VerifyTotpIn(cfg, s1, FactorsOf(s1, user), code, env.now).0, p.value, env.now);
    }
  }

  lemma FactorsStayAccepting(cfg: Config, s: Store, s': Store, user: UserId, code: string, now: Time)
    requires s'.factors == s.factors && s'.vault == s.vault
    ensures forall id :: FactorAccepts(cfg, s', user, id, code, now) <==> FactorAccepts(cfg, s, user, id, code, now)
  {
  }

  // ----- Administration -----

  /** No call of the run unbans or enables the user. */
  predicate NotReinstated(events: seq<Event>, id: UserId) {
    forall i :: 0 <= i < |events| ==> Reinstated(events[i].call) != Some(id)
  }

  lemma StepStaysSuspended(cfg: Config, s: Store, call: Call, env: Env, id: UserId)
    requires Inv(cfg, s) && Unused(s, env.drawn) && id in s.users && s.users[id].status != Active
    requires Reinstated(call) != Some(id)
    ensures var s' := Step(cfg, s, call, env).0; id in s'.users && s'.users[id].status != Active
  {
    hide Inv, Unused, Step, VerifiedHash, IsStepUp, SessionsEvolve, IdentitiesEvolve, SomePrivileged, Reinstated,
      ProfileOf;
    StepEvolves(cfg, s, call, env);
    UsersKnowTheirIds(cfg, s, id);
  }

  lemma {:induction false} StaysSuspended(cfg: Config, s: Store, events: seq<Event>, id: UserId)
    requires Inv(cfg, s) && FreshRun(cfg, s, events) && id in s.users && s.users[id].status != Active
    requires NotReinstated(events, id)
    ensures var s' := Run(cfg, s, events); id in s'.users && s'.users[id].status != Active
    decreases |events|
  {
    hide Inv, Unused, Step, Reinstated;
    if events != [] {
      var init, e := events[..|events| - 1], events[|events| - 1];
      assert forall i :: 0 <= i < |init| ==> init[i] == events[i];
      StaysSuspended(cfg, s, init, id);
      RunKeeps(cfg, s, init);
      StepStaysSuspended(cfg, Run(cfg, s, init), e.call, e.env, id);
    }
  }

  /** Until a ban or disabling is undone, no token of the user verifies, whenever it was issued. */
  lemma SuspendedIsRefused(cfg: Config, s: Store, actor: Secret, id: UserId, status: UserStatus, env: Env,
                           events: seq<Event>, token: Secret,
                           permission: string, now: Time)
    requires Inv(cfg, s) && Unused(s, env.drawn) && status != Active && Suspend(cfg, s, actor, id, status, env).1.Ok?
    requires FreshRun(cfg, Suspend(cfg, s, actor, id, status, env).0, events) && NotReinstated(events, id)
    ensures var s' := Run(cfg, Suspend(cfg, s, actor, id, status, env).0, events);
      Known(s', HashOf(token)) && SessionOf(s', HashOf(token)).userId == id ==>
        VerifySession(cfg, s', token, permission, now).1.Err?
  {
    hide Inv, Unused, VerifySession, Suspend, Known, SessionOf, Run, FreshRun, NotReinstated;
    var s1 := Suspend(cfg, s, actor, id, status, env).0;
    SuspendKeepsValid(cfg, s, actor, id, status, env);
    SuspendedStatus(cfg, s, actor, id, status, env);
    StaysSuspended(cfg, s1, events, id);
    if Known(Run(cfg, s1, events), HashOf(token)) && SessionOf(Run(cfg, s1, events), HashOf(token)).userId == id {
      InactiveIsRefused(cfg, Run(cfg, s1, events), token, permission, now);
    }
  }

  lemma SuspendKeepsValid(cfg: Config, s: Store, actor: Secret, id: UserId, status: UserStatus, env: Env)
    requires Inv(cfg, s) && Unused(s, env.drawn) && status != Active
    ensures Inv(cfg, Suspend(cfg, s, actor, id, status, env).0)
  {
    hide Inv, Unused, Suspend, MomentOf;
    var call := if status == Banned then Administer(Ban(actor, id)) else Administer(Disable(actor, id));
    StepEvolves(cfg, s, call, env);
  }

  /** A token held when its user is disabled is refused for good, reinstatement or not. */
  lemma DisableKillsForever(cfg: Config, s: Store, actor: Secret, id: UserId, env: Env, token: Secret,
                            events: seq<Event>, permission: string, now: Time)
    requires Inv(cfg, s) && Unused(s, env.drawn) && Suspend(cfg, s, actor, id, Disabled, env).1.Ok?
    requires Known(s, HashOf(token)) && SessionOf(s, HashOf(token)).userId == id
    requires FreshRun(cfg, Suspend(cfg, s, actor, id, Disabled, env).0, events) && Clocked(env.now, events)
    requires Last(env.now, events) <= now
    ensures var s' := Run(cfg, Suspend(cfg, s, actor, id, Disabled, env).0, events);
      VerifySession(cfg, s', token, permission, now).1.Err?
  {
    hide Inv, Unused, Suspend, Run, FreshRun, Clocked, VerifySession, Dead, Known, SessionOf;
    SuspendKeepsValid(cfg, s, actor, id, Disabled, env);
    DisableKills(cfg, s, actor, id, env, HashOf(token), env.now);
    DeadTokenIsRefused(cfg, Suspend(cfg, s, actor, id, Disabled, env).0, token, env.now, events, permission, now);
  }

  lemma DisableKills(cfg: Config, s: Store, actor: Secret, id: UserId, env: Env, h: Hash, now: Time)
    requires Inv(cfg, s) && Unused(s, env.drawn) && Suspend(cfg, s, actor, id, Disabled, env).1.Ok?
    requires Known(s, h) && SessionOf(s, h).userId == id
    ensures Dead(Suspend(cfg, s, actor, id, Disabled, env).0, h, now)
  {
    hide Inv, Unused, VerifySession, RevokeForUser, AnotherPrivileged, SessionOf, Known;
    var s1 := VerifySession(cfg, s, actor, USERS_WRITE, env.now).0;
    var call := Administer(Disable(actor, id));
    var at := MomentOf(cfg, s, call, env);
    CheckedKeeps(cfg, s, call, env, at);
    SessionOfSteps(cfg, s, s1, h, at);
    UserIds(cfg, s, s1, id, at);
    var s2 := UpdateUser(s1, s1.users[id].(status := Disabled, updatedAt := env.now)).0;
    SameSessions(s1, s2, h);
    RevokeForUserKills(cfg, s2, id, h, env.now, now);
  }

  lemma SuspendedStatus(cfg: Config, s: Store, actor: Secret, id: UserId, status: UserStatus, env: Env)
    requires Inv(cfg, s) && Suspend(cfg, s, actor, id, status, env).1.Ok?
    ensures var s' := Suspend(cfg, s, actor, id, status, env).0;
      id in s'.users && s'.users[id].status == status
  {
    hide Inv, VerifySession, AnotherPrivileged, RevokeForUser, EmailKey;
    var permission := if status == Banned then USERS_BAN else USERS_WRITE;
    VerifyLeavesUsers(cfg, s, actor, permission, env.now);
    UsersKnowTheirIds(cfg, s, id);
    RevokeLeavesUsers(id, env.now);
  }

  lemma VerifyLeavesUsers(cfg: Config, s: Store, token: Secret, permission: string, now: Time)
    ensures VerifySession(cfg, s, token, permission, now).0.users == s.users
  {
    hide SessionByHash, Expired, Allows, Refresh;
    var found := SessionByHash(s, HashOf(token));
    if found.Some? {
      RefreshFrame(cfg, s, found.value, now);
    }
  }

  lemma RevokeLeavesUsers(user: UserId, now: Time)
    ensures forall s: Store :: RevokeForUser(s, user, None, now).users == s.users
  {
  }

  lemma InactiveIsRefused(cfg: Config, s: Store, token: Secret, permission: string, now: Time)
    requires Known(s, HashOf(token))
    requires SessionOf(s, HashOf(token)).userId in s.users
    requires s.users[SessionOf(s, HashOf(token)).userId].status != Active
    ensures VerifySession(cfg, s, token, permission, now).1.Err?
  {
    hide Refresh, Allows, Expired;
  }

  /** A password set by an admin is the only one the user then has. */
  lemma AdminPasswordReplaces(cfg: Config, s: Store, actor: Secret, id: UserId, password: string, env: Env,
                              user: UserId, attempt: string)
    requires Inv(cfg, s) && Unused(s, env.drawn) && AdminSetPassword(cfg, s, actor, id, password, env).1.Ok?
    ensures var s' := AdminSetPassword(cfg, s, actor, id, password, env).0;
      HasPassword(s', user, attempt) <==> if user == id then attempt == password else HasPassword(s, user, attempt)
  {
    VerifyKeepsCredentials(cfg, s, actor, USERS_WRITE, env.now);
    hide Inv, VerifySession, SetPassword, RevokeForUser, HasPassword;
    var call := Administer(SetUserPassword(actor, id, password));
    var at := MomentOf(cfg, s, call, env);
    CheckedKeeps(cfg, s, call, env, at);
    var s1 := VerifySession(cfg, s, actor, USERS_WRITE, env.now).0;
    ReachedIsValid(cfg, s, s1, at);
    PasswordReplaced(cfg, s1, id, password, Some(false), None, env, user, attempt);
    SamePasswords(s, s1, user, attempt);
    var s2 := SetPassword(cfg, s1, id, password, Some(false), None, env).0;
    RevokeLeavesCredentials(s2, id, None, env.now, user);
    SamePasswords(s2, RevokeForUser(s2, id, None, env.now), user, attempt);
  }

  lemma SamePasswords(s: Store, s': Store, user: UserId, attempt: string)
    requires s'.credentials == s.credentials
    ensures HasPassword(s', user, attempt) <==> HasPassword(s, user, attempt)
  {
  }

  // ----- Bootstrap -----

  /** After a bootstrap, another one without a password finds the same owner and changes nothing. */
  lemma BootstrapIsIdempotent(cfg: Config, s: Store, email: string, password: string, env: Env, env': Env)
    requires Inv(cfg, s) && Unused(s, env.drawn) && BootstrapOwner(cfg, s, email, password, env).1.Ok?
    requires cfg.normalize(cfg.normalize(email).value) == cfg.normalize(email)
    ensures var (s1, first) := BootstrapOwner(cfg, s, email, password, env);
      var (s2, second) := BootstrapOwner(cfg, s1, email, "", env');
      s2 == s1 && second.Ok? && second.value.id == first.value.id
  {
    hide Inv, Unused, StoreUser, SetPassword, IsOwnerEmail, EmailKey;
    var normal := cfg.normalize(email).value;
    StoredUser(cfg, s, normal);
    var found := UserByEmail(s, normal);
    if found.Some? {
      SetPasswordFrame(cfg, s, found.value.id, password, Some(false), None, env);
    } else {
      var u := NewUser(cfg, normal, Owner, true, env);
      StoreUserFrame(cfg, s, u, password, env);
    }
  }

  // ----- Links and logins that create or share a user -----

  /** For an address without a user, a magic link used in time registers one, active and verified,
      as a plain user unless there is a single owner, and logs it in. */
  lemma MagicLinkCreatesUser(cfg: Config, s: Store, email: string, env: Env, env': Env)
    requires Inv(cfg, s) && Unused(s, env.drawn) && RequestMagicLink(cfg, s, email, true, env).1.Ok?
    requires cfg.normalize(email) != Some("") && cfg.normalize(cfg.normalize(email).value) == cfg.normalize(email)
    requires UserByEmail(s, cfg.normalize(email).value) == None
    requires env'.now < env.now + cfg.flowTtl && Unused(RequestMagicLink(cfg, s, email, true, env).0, env'.drawn)
    ensures var (s', r) := ConsumeMagicLink(cfg, RequestMagicLink(cfg, s, email, true, env).0, env.drawn.token, env');
      && r.Ok? && r.value.userId == env'.drawn.user && env'.drawn.user in s'.users
      && s'.users[env'.drawn.user].email == cfg.normalize(email).value && s'.users[env'.drawn.user].verified
      && s'.users[env'.drawn.user].role == (if cfg.profile == SingleOwner then Owner else Role.User)
      && s'.users[env'.drawn.user].status == Active
  {
    hide Inv, CreateFlow, ConsumeFlow, FinishLogin, StoreUser, IsOwnerEmail, NewSession, EmailKey;
    var normal := cfg.normalize(email).value;
    var f := NewFlow(cfg, MagicLink, "email", None, Some(normal), None, env);
    FlowWorksOnce(s, f, env'.now, MagicLink, "email", env'.now);
    CreateLeaves(s, f);
    var s1 := CreateFlow(s, f).0;
    ConsumeLeaves(s1, f.stateHash, MagicLink, "email", env'.now);
    var s2 := ConsumeFlow(s1, f.stateHash, MagicLink, "email", env'.now).0;
    AddressIsFree(cfg, s, normal);
    var u := NewUser(cfg, normal, if cfg.profile == SingleOwner then Owner else Role.User, true, env');
    NewUserStored(cfg, s2, u, env');
    FinishLoginSucceeds(cfg, StoreUser(cfg, s2, u, "", env').0, u, "email", env');
    SessionBelongs(cfg, u, "email", env');
  }

  lemma AddressIsFree(cfg: Config, s: Store, email: string)
    requires Inv(cfg, s) && UserByEmail(s, email) == None
    ensures EmailKey(email) !in s.usersByEmail
  {
    hide SessionsIndexed, FlowsIndexed, CredentialsIndexed, IdentitiesKeyed, FactorsListed, CodesListed, Snapshots,
      EmailKey;
  }

  lemma NewUserStored(cfg: Config, s: Store, u: User, env: Env)
    requires EmailKey(u.email) !in s.usersByEmail
    ensures var (s', r) := StoreUser(cfg, s, u, "", env);
      r == Ok(u) && s'.users == s.users[u.id := u] && s'.sessionsByHash == s.sessionsByHash
  {
    hide EmailKey, IdentityKey, CreateUser, UpsertIdentity;
    CreateUserFrame(s, u);
    UpsertIdentityFrame(CreateUser(s, u).0, Identity(u.id, "email", u.email, u.email, u.verified));
  }

  /** A social login under the text of another pair logs in that pair's user, whatever its own
      address: two providers that share a text share the user. */
  lemma SharedTextSharesUser(cfg: Config, s: Store, p: SocialProfile, env: Env, q: SocialProfile, env': Env)
    requires Inv(cfg, s) && Unused(s, env.drawn) && p.subject != ""
    requires IdentityKey(p.provider, p.subject) == IdentityKey(q.provider, q.subject)
    requires LoginSocial(cfg, s, p, None, None, env).1.Ok?
    requires HashOf(env'.drawn.sessionToken) !in LoginSocial(cfg, s, p, None, None, env).0.sessionsByHash
    ensures var (s1, first) := LoginSocial(cfg, s, p, None, None, env);
      var second := LoginSocial(cfg, s1, q, None, None, env').1;
      second.Ok? && second.value.userId == first.value.userId
  {
    hide Inv, Unused, SocialUser, IdentityKey, IsOwnerEmail, NewSession;
    SocialLoginLinks(cfg, s, p, None, None, env);
    var s1 := LoginSocial(cfg, s, p, None, None, env).0;
    var (s0, user) := SocialUser(cfg, s, p, env);
    StepEvolves(cfg, s, OnSession(SocialLogin(p, None, None)), env);
    RecordedUser(cfg, s0, user.value, p.provider, env);
    LinkedUser(cfg, s1, q, user.value.id, env');
    FinishLoginSucceeds(cfg, s1, s1.users[user.value.id], q.provider, env');
    SessionBelongs(cfg, s1.users[user.value.id], q.provider, env');
    UsersKnowTheirIds(cfg, s1, user.value.id);
  }

  lemma SessionBelongs(cfg: Config, u: User, provider: string, env: Env)
    ensures NewSession(cfg, u, provider, env).userId == u.id
  {
    hide PermissionsFor;
  }

  lemma RecordedUser(cfg: Config, s: Store, u: User, provider: string, env: Env)
    requires LoginWith(cfg, s, u, provider, env).1.Ok?
    ensures var (s', x) := LoginWith(cfg, s, u, provider, env);
      && x.value.userId == u.id && u.id in s'.users && ProfileObjection(cfg, s'.users[u.id]) == None
  {
    hide IsOwnerEmail, PermissionsFor, EmailKey;
  }

  lemma LinkedUser(cfg: Config, s: Store, q: SocialProfile, id: UserId, env: Env)
    requires GetIdentity(s, q.provider, q.subject).Some? && GetIdentity(s, q.provider, q.subject).value.userId == id
    requires id in s.users
    ensures SocialUser(cfg, s, q, env) == (s, Ok(s.users[id]))
  {
    hide CreateUserCall, UpsertIdentity, UserByEmail;
  }
}

/** Exactly when the calls that use a login flow succeed, and that a used flow is refused for good. */
module FlowUse {
  import opened Prelude
  import opened Permissions
  import opened AuthModels
  import opened AuthStore
  import opened AuthCalls
  import opened AuthRuns
  import opened AuthInvariants
  import opened AuthSafety
  import opened AuthGuarantees
  import opened AuthMeaning
  import opened FlowRecords
  import F = Footprints
  import O = OneTime
  import SessionLifetimes
  import SessionRecords
  import UserRecords

  // ----- Whom a call admits -----

  /** The login is let in: the user with the address if there is one, else a new one. */
  ghost predicate LinkAdmits(cfg: Config, s: Store, email: string) {
    if exists user :: UserRecords.HasAddress(s, user, email) then
      exists user :: UserRecords.HasAddress(s, user, email) && Admitted(cfg, s.users[user])
    else UserRecords.Creatable(cfg, s, email)
  }

  /** The social login is let in: the linked user if the pair is known, else the user with the
      address under the linking rule, else a new one whose address need not be verified. */
  ghost predicate ProfileAdmits(cfg: Config, s: Store, p: SocialProfile) {
    var key := p.provider + ":" + p.subject;
    if key in s.identities then
      s.identities[key].userId in s.users && Admitted(cfg, s.users[s.identities[key].userId])
    else
      && p.email != ""
      && if exists user :: UserRecords.HasAddress(s, user, p.email) then
           && (cfg.linkingNeedsVerified ==> p.emailVerified)
           && exists user :: UserRecords.HasAddress(s, user, p.email) && Admitted(cfg, s.users[user])
         else
           && UserRecords.Creatable(cfg, s, p.email)
           && (cfg.requireVerified ==> p.emailVerified || cfg.profile == SingleOwner)
  }

  /** The flow is about this user: the recorded one while it is stored, else the one with its
      address. */
  predicate About(s: Store, f: Flow, user: UserId) {
    && user in s.users
    && if f.userId.Some? && f.userId.value in s.users then f.userId.value == user
       else f.email.Some? && f.email.value != "" && UserRecords.HasAddress(s, user, f.email.value)
  }

  // ----- Logins -----

  lemma LoginMeaning(cfg: Config, s: Store, u: User, provider: string, env: Env)
    requires u.id in s.users && HashOf(env.drawn.sessionToken) !in s.sessionsByHash
    ensures LoginWith(cfg, s, u, provider, env).1.Ok? <==> Admitted(cfg, u)
  {
    hide FinishLogin, ProfileObjection, Admitted, SessionRecords.IssuedTo;
    ObjectionMeaning(cfg, u);
    SessionRecords.LoginSessions(cfg, s, u, provider, env);
  }

  lemma AdmitsAddress(cfg: Config, s: Store, email: string)
    requires Inv(cfg, s)
    ensures var found := UserByEmail(s, email);
      && (found.Some? <==> exists user :: UserRecords.HasAddress(s, user, email))
      && (found.Some? ==> UserRecords.HasAddress(s, found.value.id, email) && s.users[found.value.id] == found.value)
      && (found.Some? ==> forall user :: UserRecords.HasAddress(s, user, email) ==> user == found.value.id)
  {
    hide Inv, UserByEmail, EmailKey;
    AddressFinds(cfg, s, email);
    var found := UserByEmail(s, email);
    if found.Some? {
      assert UserRecords.HasAddress(s, found.value.id, email);
    }
  }

  /** A registration and the login of the new user. */
  lemma RegistrationMeaning(cfg: Config, s: Store, email: string, verified: bool, provider: string, env: Env)
    requires Inv(cfg, s) && env.drawn.user !in s.users && HashOf(env.drawn.sessionToken) !in s.sessionsByHash
    ensures var role := if cfg.profile == SingleOwner then Owner else Role.User;
      var (s', created) := CreateUserCall(cfg, s, email, role, "", verified, env);
      && (created.Ok? <==> UserRecords.Creatable(cfg, s, email))
      && (created.Ok? ==>
            && created.value.id in s'.users && s'.sessionsByHash == s.sessionsByHash
            && (Admitted(cfg, created.value) <==> (cfg.requireVerified ==> verified || cfg.profile == SingleOwner)))
  {
    hide Inv, CreateUserCall;
    var role := if cfg.profile == SingleOwner then Owner else Role.User;
    UserRecords.CreateUserMeaning(cfg, s, email, role, "", verified, env);
    F.CreateUserCallLeaves(cfg, s, email, role, "", verified, env);
  }

  /** A live link of a non-empty address logs in whom it admits, and nothing else does. */
  lemma MagicLinkMeaning(cfg: Config, s: Store, token: Secret, env: Env)
    requires Inv(cfg, s) && Unused(s, env.drawn)
    ensures ConsumeMagicLink(cfg, s, token, env).1.Ok? <==> exists id :: LogsIn(cfg, s, id, token, env.now)
  {
    hide Inv, Unused, ConsumeFlow, UserByEmail, LoginWith, CreateUserCall, Consumed, LinkAdmits, Live;
    var u := Use(token, MagicLink, "email", None);
    ConsumesLive(cfg, s, u, env.now);
    LiveIsOne(cfg, s, u, env.now);
    var (s1, consumed) := ConsumeFlow(s, HashOf(token), MagicLink, "email", env.now);
    if consumed.Some? && consumed.value.email.Some? && consumed.value.email.value != "" {
      ConsumeLeaves(s, HashOf(token), MagicLink, "email", env.now);
      O.ConsumptionIsValid(cfg, s, HashOf(token), MagicLink, "email", env.now);
      DrawnIsNew(s, env.drawn);
      LinkLoginMeaning(cfg, s1, consumed.value.email.value, env);
      SameAdmission(cfg, s, s1, consumed.value.email.value);
      assert LogsIn(cfg, s, consumed.value.id, token, env.now) <==> LinkAdmits(cfg, s, consumed.value.email.value);
      var email := consumed.value.email.value;
      var role := if cfg.profile == SingleOwner then Owner else Role.User;
      var (s2, created) := CreateUserCall(cfg, s1, email, role, "", true, env);
      if UserByEmail(s1, email).Some? {
        var u := UserByEmail(s1, email).value;
        assert ConsumeMagicLink(cfg, s, token, env) == LoginWith(cfg, s1, u, "email", env);
      } else if created.Ok? {
        assert ConsumeMagicLink(cfg, s, token, env) == LoginWith(cfg, s2, created.value, "email", env);
      } else {
        assert ConsumeMagicLink(cfg, s, token, env).1.Err?;
      }
    }
  }

  ghost predicate LogsIn(cfg: Config, s: Store, id: FlowId, token: Secret, now: Time) {
    && id in s.flows && Live(s.flows[id], Use(token, MagicLink, "email", None), now)
    && s.flows[id].email.Some? && s.flows[id].email.value != "" && LinkAdmits(cfg, s, s.flows[id].email.value)
  }

  lemma DrawnIsNew(s: Store, n: New)
    requires Unused(s, n)
    ensures n.user !in s.users && HashOf(n.sessionToken) !in s.sessionsByHash && n.session !in s.sessions
  {
  }

  lemma LiveIsOne(cfg: Config, s: Store, u: Use, now: Time)
    requires Inv(cfg, s)
    ensures forall i, j ::
      i in s.flows && j in s.flows && Live(s.flows[i], u, now) && Live(s.flows[j], u, now) ==> i == j
  {
    hide Inv;
    FlowIds(cfg, s);
  }

  lemma SameAdmission(cfg: Config, s: Store, s': Store, email: string)
    requires s'.users == s.users
    ensures LinkAdmits(cfg, s', email) <==> LinkAdmits(cfg, s, email)
  {
    hide EmailKey, Admitted;
    assert forall user :: UserRecords.HasAddress(s', user, email) <==> UserRecords.HasAddress(s, user, email);
    if user :| UserRecords.HasAddress(s, user, email) && Admitted(cfg, s.users[user]) {
      assert UserRecords.HasAddress(s', user, email) && Admitted(cfg, s'.users[user]);
    }
    if user :| UserRecords.HasAddress(s', user, email) && Admitted(cfg, s'.users[user]) {
      assert UserRecords.HasAddress(s, user, email) && Admitted(cfg, s.users[user]);
    }
  }

  lemma LinkLoginMeaning(cfg: Config, s: Store, email: string, env: Env)
    requires Inv(cfg, s) && env.drawn.user !in s.users && HashOf(env.drawn.sessionToken) !in s.sessionsByHash
    ensures var role := if cfg.profile == SingleOwner then Owner else Role.User;
      var (s', created) := CreateUserCall(cfg, s, email, role, "", true, env);
      (match UserByEmail(s, email)
       case Some(u) => LoginWith(cfg, s, u, "email", env).1.Ok?
       case None => created.Ok? && LoginWith(cfg, s', created.value, "email", env).1.Ok?)
        <==> LinkAdmits(cfg, s, email)
  {
    hide Inv, UserByEmail, LoginWith, CreateUserCall, Admitted, UserRecords.Creatable;
    AdmitsAddress(cfg, s, email);
    RegistrationMeaning(cfg, s, email, true, "email", env);
    var found := UserByEmail(s, email);
    if found.Some? {
      LoginMeaning(cfg, s, found.value, "email", env);
    } else {
      var role := if cfg.profile == SingleOwner then Owner else Role.User;
      var (s', created) := CreateUserCall(cfg, s, email, role, "", true, env);
      if created.Ok? {
        LoginMeaning(cfg, s', created.value, "email", env);
      }
    }
  }

  /** The linking half of a social login finds or registers a user exactly then. */
  lemma SocialUserMeaning(cfg: Config, s: Store, p: SocialProfile, env: Env)
    requires Inv(cfg, s) && env.drawn.user !in s.users && HashOf(env.drawn.sessionToken) !in s.sessionsByHash
    ensures var (s', user) := SocialUser(cfg, s, p, env);
      (user.Ok? && Admitted(cfg, user.value)) <==> ProfileAdmits(cfg, s, p)
  {
    hide Inv, UserByEmail, CreateUserCall, Admitted, UserRecords.Creatable, UpsertIdentity;
    AdmitsAddress(cfg, s, p.email);
    RegistrationMeaning(cfg, s, p.email, p.emailVerified, p.provider, env);
    assert IdentityKey(p.provider, p.subject) == p.provider + ":" + p.subject;
  }

  /** A social login succeeds exactly when the state given, if any, is live with the profile's
      provider and the nonce given, and the profile is let in. */
  lemma SocialLoginMeaning(cfg: Config, s: Store, p: SocialProfile, given: Option<Secret>, nonce: Option<Secret>,
                           env: Env)
    requires Inv(cfg, s) && Unused(s, env.drawn)
    ensures LoginSocial(cfg, s, p, given, nonce, env).1.Ok? <==> (
      && (given.Some? ==> SomeLive(s, Use(given.value, OAuth, p.provider, nonce), env.now))
      && ProfileAdmits(cfg, s, p))
  {
    hide Inv, Unused, ConsumeSocialState, SocialUser, LoginWith, SomeLive, Consumed, WrongNonceOnly, ProfileAdmits,
      Live, Admitted, Reached;
    DrawnIsNew(s, env.drawn);
    var s1 := if given.Some? then ConsumeSocialState(cfg, s, p.provider, given.value, nonce, env).0 else s;
    var at := At(env.now);
    Begin(cfg, s, at);
    if given.Some? {
      SocialStateMeaning(cfg, s, p.provider, given.value, nonce, env);
      ConsumeSocialKeeps(cfg, s, s, p.provider, given.value, nonce, env, at);
      ConsumeSocialFrame(cfg, s, p.provider, given.value, nonce, env);
    }
    SessionLifetimes.ReachedIsValid(cfg, s, s1, at);
    SocialUserMeaning(cfg, s1, p, env);
    SameProfileAdmission(cfg, s, s1, p);
    SocialUserFrame(cfg, s, s1, p, env, at);
    F.SocialUserLeaves(cfg, s1, p, env);
    var (s2, user) := SocialUser(cfg, s1, p, env);
    if user.Ok? {
      LoginMeaning(cfg, s2, user.value, p.provider, env);
    }
  }

  lemma SameProfileAdmission(cfg: Config, s: Store, s': Store, p: SocialProfile)
    requires s'.users == s.users && s'.identities == s.identities
    ensures ProfileAdmits(cfg, s', p) <==> ProfileAdmits(cfg, s, p)
  {
    hide EmailKey, Admitted;
    var email := p.email;
    assert forall user :: UserRecords.HasAddress(s', user, email) <==> UserRecords.HasAddress(s, user, email);
    if user :| UserRecords.HasAddress(s, user, email) && Admitted(cfg, s.users[user]) {
      assert UserRecords.HasAddress(s', user, email) && Admitted(cfg, s'.users[user]);
    }
    if user :| UserRecords.HasAddress(s', user, email) && Admitted(cfg, s'.users[user]) {
      assert UserRecords.HasAddress(s, user, email) && Admitted(cfg, s.users[user]);
    }
  }

  // ----- Resets and verifications -----

  lemma FlowUserMeaning(cfg: Config, s: Store, f: Flow)
    requires Inv(cfg, s)
    ensures var found := FlowUser(s, f);
      && (found.Some? ==> About(s, f, found.value.id) && s.users[found.value.id] == found.value)
      && (forall user :: About(s, f, user) ==> found == Some(s.users[user]) && s.users[user].id == user)
  {
    hide Inv, UserByEmail, EmailKey;
    UserRecords.StoredIds(cfg, s);
    if f.email.Some? {
      AddressFinds(cfg, s, f.email.value);
    }
  }

  lemma SameAbout(s: Store, s': Store, f: Flow, g: Flow)
    requires s'.users == s.users && g.userId == f.userId && g.email == f.email
    ensures forall user :: About(s', g, user) <==> About(s, f, user)
  {
    hide EmailKey;
  }

  /** A reset succeeds exactly with a live flow about an active user, the owner if there is a
      single one, and a password of eight characters, and answers that user. */
  lemma ResetMeaning(cfg: Config, s: Store, token: Secret, password: string, env: Env)
    requires Inv(cfg, s)
    ensures var r := ConsumeReset(cfg, s, token, password, env).1;
      && (r.Ok? <==> exists id, user :: Resets(cfg, s, id, user, token, password, env.now))
      && (forall id, user :: Resets(cfg, s, id, user, token, password, env.now) ==> r == Ok(s.users[user]))
  {
    hide Inv, ConsumeFlow, FlowUser, SetPassword, RevokeForUser, Consumed, About, Live;
    var u := Use(token, PasswordReset, "email", None);
    ConsumesLive(cfg, s, u, env.now);
    LiveIsOne(cfg, s, u, env.now);
    var (s1, consumed) := ConsumeFlow(s, HashOf(token), PasswordReset, "email", env.now);
    if consumed.Some? {
      ConsumeLeaves(s, HashOf(token), PasswordReset, "email", env.now);
      O.ConsumptionIsValid(cfg, s, HashOf(token), PasswordReset, "email", env.now);
      FlowUserMeaning(cfg, s1, consumed.value);
      SameAbout(s, s1, s.flows[consumed.value.id], consumed.value);
      var found := FlowUser(s1, consumed.value);
      if found.Some? {
        UserRecords.PasswordSetMeaning(cfg, s1, found.value.id, password, Some(false), None, env);
        AboutStored(s1, consumed.value, found.value.id);
        if ConsumeReset(cfg, s, token, password, env).1.Ok? {
          assert Resets(cfg, s, consumed.value.id, found.value.id, token, password, env.now);
        }
      }
    }
  }

  lemma AboutStored(s: Store, f: Flow, user: UserId)
    requires About(s, f, user)
    ensures user in s.users
  {
  }

  predicate Resets(cfg: Config, s: Store, id: FlowId, user: UserId, token: Secret, password: string, now: Time) {
    && id in s.flows && Live(s.flows[id], Use(token, PasswordReset, "email", None), now)
    && user in s.users && About(s, s.flows[id], user) && s.users[user].status == Active
    && OwnersOwn(cfg, s.users[user].email) && |password| >= 8
  }

  /** A verification succeeds exactly with a live flow about an active user whose address is
      still, once normal, the one the flow was sent to. */
  lemma VerificationMeaning(cfg: Config, s: Store, token: Secret, env: Env)
    requires Inv(cfg, s)
    ensures ConsumeVerification(cfg, s, token, env).1.Ok? <==>
      exists id, user :: Confirms(cfg, s, id, user, token, env.now)
  {
    hide Inv, ConsumeFlow, FlowUser, UpdateUser, UpsertIdentity, GetIdentity, Consumed, About, Live;
    var u := Use(token, EmailVerification, "email", None);
    ConsumesLive(cfg, s, u, env.now);
    LiveIsOne(cfg, s, u, env.now);
    var (s1, consumed) := ConsumeFlow(s, HashOf(token), EmailVerification, "email", env.now);
    if consumed.Some? {
      ConsumeLeaves(s, HashOf(token), EmailVerification, "email", env.now);
      O.ConsumptionIsValid(cfg, s, HashOf(token), EmailVerification, "email", env.now);
      FlowUserMeaning(cfg, s1, consumed.value);
      SameAbout(s, s1, s.flows[consumed.value.id], consumed.value);
      var found := FlowUser(s1, consumed.value);
      if found.Some? {
        AboutStored(s1, consumed.value, found.value.id);
        UserRecords.UpdateSucceeds(s1, found.value.(verified := true, updatedAt := env.now));
        if ConsumeVerification(cfg, s, token, env).1.Ok? {
          assert Confirms(cfg, s, consumed.value.id, found.value.id, token, env.now);
        }
      }
    }
  }

  predicate Confirms(cfg: Config, s: Store, id: FlowId, user: UserId, token: Secret, now: Time) {
    && id in s.flows && Live(s.flows[id], Use(token, EmailVerification, "email", None), now)
    && user in s.users && About(s, s.flows[id], user) && s.users[user].status == Active
    && var sent := s.flows[id].email;
       (sent.Some? && sent.value != "" ==>
          cfg.normalize(sent.value).Some? && cfg.normalize(s.users[user].email) == cfg.normalize(sent.value))
  }

  // ----- Once and for all -----

  /** No call that presents a token succeeds without a live flow. */
  lemma UseNeedsLive(cfg: Config, s: Store, call: Call, env: Env)
    requires Inv(cfg, s) && Unused(s, env.drawn) && UseOf(call).Some? && Step(cfg, s, call, env).1.Ok?
    ensures SomeLive(s, UseOf(call).value, env.now)
  {
    hide Inv, Unused, ConsumeMagicLink, ConsumeVerification, ConsumeReset, ConsumeSocialState, LoginSocial, Live,
      Consumed, WrongNonceOnly, LinkAdmits, ProfileAdmits;
    match call
    case Account(UseMagicLink(token)) => MagicLinkMeaning(cfg, s, token, env);
    case Account(UseVerification(token)) => VerificationMeaning(cfg, s, token, env);
    case Account(UseReset(token, password)) => ResetMeaning(cfg, s, token, password, env);
    case OnSession(UseSocialState(provider, state, nonce)) => SocialStateMeaning(cfg, s, provider, state, nonce, env);
    case OnSession(SocialLogin(p, given, nonce)) => SocialLoginMeaning(cfg, s, p, given, nonce, env);
  }

  /** A token whose flow a call has used up, whatever that call answered, is refused by every call
      of any kind after every run that does not draw it again. */
  lemma UsedForGood(cfg: Config, s: Store, call: Call, env: Env, events: seq<Event>, again: Call, env': Env)
    requires Inv(cfg, s) && Unused(s, env.drawn)
    requires UseOf(call).Some? && SomeLive(s, UseOf(call).value, env.now)
    requires FreshRun(cfg, Step(cfg, s, call, env).0, events)
    requires O.NeverTheToken(events, HashOf(UseOf(call).value.token))
    requires UseOf(again).Some? && UseOf(again).value.token == UseOf(call).value.token
    requires Unused(Run(cfg, Step(cfg, s, call, env).0, events), env'.drawn)
    ensures Step(cfg, Run(cfg, Step(cfg, s, call, env).0, events), again, env').1.Err?
  {
    hide Inv, Unused, Step, FreshRun, Run, O.NeverTheToken, O.NoFlow, UseOf;
    var h := HashOf(UseOf(call).value.token);
    var s1 := Step(cfg, s, call, env).0;
    var s2 := Run(cfg, s1, events);
    StepEvolves(cfg, s, call, env);
    SessionLifetimes.ReachedIsValid(cfg, s, s1, MomentOf(cfg, s, call, env));
    LiveIsUsed(cfg, s, call, env);
    O.NoneStays(cfg, s1, events, 0, h);
    RunKeeps(cfg, s1, events);
    if Step(cfg, s2, again, env').1.Ok? {
      UseNeedsLive(cfg, s2, again, env');
      NoneIsLive(s2, UseOf(again).value, env'.now);
    }
  }

  lemma NoneIsLive(s: Store, u: Use, now: Time)
    requires O.NoFlow(s, HashOf(u.token))
    ensures !SomeLive(s, u, now)
  {
  }

  lemma LiveIsUsed(cfg: Config, s: Store, call: Call, env: Env)
    requires Inv(cfg, s) && Unused(s, env.drawn)
    requires UseOf(call).Some? && SomeLive(s, UseOf(call).value, env.now)
    ensures O.NoFlow(Step(cfg, s, call, env).0, HashOf(UseOf(call).value.token))
  {
    hide Inv, Unused, Step, Stores, Requested, MayRequest;
    FlowsFollowCalls(cfg, s, call, env);
    FlowIds(cfg, s);
    UsesDoNotRequest(cfg, s, call, env);
    var u := UseOf(call).value;
    var id :| id in s.flows && Live(s.flows[id], u, env.now);
    var flows := Step(cfg, s, call, env).0.flows;
    forall other | other in flows && flows[other].stateHash == HashOf(u.token) ensures flows[other].consumedAt.Some? {
      assert other == id;
    }
  }

  lemma UsesDoNotRequest(cfg: Config, s: Store, call: Call, env: Env)
    requires UseOf(call).Some?
    ensures !Stores(cfg, s, call, env)
  {
  }
}

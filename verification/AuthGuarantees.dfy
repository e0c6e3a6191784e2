/** What whole runs of service and admin calls guarantee: lookups agree with scans, a session
    grants what the current role grants, an active owner or admin remains, and social
    identities stay with their user. */
module AuthGuarantees {
  import opened Prelude
  import opened Text
  import opened Permissions
  import opened AuthModels
  import opened AuthStore
  import opened AuthCalls
  import opened AuthRuns
  import opened AuthInvariants
  import opened AuthSafety

  // ----- The invariant over runs -----

  lemma EmptyStoreIsValid(cfg: Config)
    ensures Inv(cfg, EMPTY)
  {
  }

  lemma StepEvolves(cfg: Config, s: Store, call: Call, env: Env)
    requires Inv(cfg, s) && Unused(s, env.drawn)
    ensures Reached(cfg, s, Step(cfg, s, call, env).0, MomentOf(cfg, s, call, env))
  {
    hide Inv, Reached, MomentOf, Step, Unused;
    var at := MomentOf(cfg, s, call, env);
    CheckedKeeps(cfg, s, call, env, at);
    StepKeeps(cfg, s, s, call, env, at);
  }

  lemma {:induction false} RunKeeps(cfg: Config, s: Store, events: seq<Event>)
    requires Inv(cfg, s) && FreshRun(cfg, s, events)
    ensures Inv(cfg, Run(cfg, s, events))
    decreases |events|
  {
    hide Inv, Unused, Step, MomentOf;
    if events != [] {
      var e := events[|events| - 1];
      RunKeeps(cfg, s, events[..|events| - 1]);
      StepEvolves(cfg, Run(cfg, s, events[..|events| - 1]), e.call, e.env);
    }
  }

  // ----- Lookups are scans -----

  /** Linear search of a map in the given order of its keys. */
  function First<K(==), V>(m: map<K, V>, order: seq<K>, wanted: V -> bool): Option<V> {
    if order == [] then None
    else if order[0] in m && wanted(m[order[0]]) then Some(m[order[0]])
    else First(m, order[1..], wanted)
  }

  lemma {:induction false} FirstIsUnique<K, V>(m: map<K, V>, order: seq<K>, wanted: V -> bool, k: K)
    requires k in order && k in m && wanted(m[k])
    requires forall j :: j in m && wanted(m[j]) ==> j == k
    ensures First(m, order, wanted) == Some(m[k])
  {
    if order[0] != k {
      FirstIsUnique(m, order[1..], wanted, k);
    }
  }

  lemma {:induction false} FirstIsNone<K, V>(m: map<K, V>, order: seq<K>, wanted: V -> bool)
    requires forall j :: j in m ==> !wanted(m[j])
    ensures First(m, order, wanted) == None
  {
    if order != [] {
      FirstIsNone(m, order[1..], wanted);
    }
  }

  function HasEmail(email: string): User -> bool { (u: User) => EmailKey(u.email) == EmailKey(email) }
  function HasToken(h: Hash): Session -> bool { (x: Session) => x.tokenHash == h }
  function HasState(h: Hash): Flow -> bool { (f: Flow) => f.stateHash == h }
  function IsPasswordOf(user: UserId): Credential -> bool {
    (c: Credential) => c.userId == user && c.hash.Some? && c.revokedAt == None
  }

  predicate Enumerates<K(!new), V>(order: seq<K>, m: map<K, V>) {
    forall k :: k in m ==> k in order
  }

  /** A lookup through an index is a scan when every entry of the index leads to the one
      matching record and every matching record is indexed. */
  lemma ViaIsScan<K, I, V>(index: map<K, I>, m: map<I, V>, order: seq<I>, wanted: V -> bool, k: K)
    requires k in index ==> index[k] in m && index[k] in order && wanted(m[index[k]])
    requires forall j :: j in m && wanted(m[j]) ==> k in index && index[k] == j
    ensures Via(index, m, k) == First(m, order, wanted)
  {
    if k in index {
      FirstIsUnique(m, order, wanted, index[k]);
    } else {
      FirstIsNone(m, order, wanted);
    }
  }

  lemma UserScan(s: Store, order: seq<UserId>, email: string)
    requires UsersIndexed(s.users, s.usersByEmail) && Enumerates(order, s.users)
    ensures UserByEmail(s, email) == First(s.users, order, HasEmail(email))
  {
    hide EmailKey;
    ViaIsScan(s.usersByEmail, s.users, order, HasEmail(email), EmailKey(email));
  }

  lemma SessionScan(s: Store, order: seq<SessionId>, h: Hash)
    requires SessionsIndexed(s.sessions, s.sessionsByHash) && Enumerates(order, s.sessions)
    ensures SessionByHash(s, h) == First(s.sessions, order, HasToken(h))
  {
    ViaIsScan(s.sessionsByHash, s.sessions, order, HasToken(h), h);
  }

  lemma FlowScan(s: Store, order: seq<FlowId>, h: Hash)
    requires FlowsIndexed(s.flows, s.flowsByHash) && Enumerates(order, s.flows)
    ensures FlowByHash(s, h) == First(s.flows, order, HasState(h))
  {
    ViaIsScan(s.flowsByHash, s.flows, order, HasState(h), h);
  }

  lemma CredentialScan(s: Store, order: seq<CredentialId>, user: UserId)
    requires CredentialsIndexed(s.credentials, s.passwordOf) && Enumerates(order, s.credentials)
    ensures PasswordCredential(s, user) == First(s.credentials, order, IsPasswordOf(user))
  {
    ViaIsScan(s.passwordOf, s.credentials, order, IsPasswordOf(user), user);
  }

  /** After any run, each indexed lookup finds what a scan of the records in any order finds. */
  lemma LookupsAreScans(cfg: Config, start: Store, events: seq<Event>, users: seq<UserId>, sessions: seq<SessionId>,
                        flows: seq<FlowId>,
                        credentials: seq<CredentialId>, email: string, h: Hash, user: UserId)
    requires Inv(cfg, start) && FreshRun(cfg, start, events)
    requires var s := Run(cfg, start, events);
      && Enumerates(users, s.users) && Enumerates(sessions, s.sessions)
      && Enumerates(flows, s.flows) && Enumerates(credentials, s.credentials)
    ensures var s := Run(cfg, start, events);
      && UserByEmail(s, email) == First(s.users, users, HasEmail(email))
      && SessionByHash(s, h) == First(s.sessions, sessions, HasToken(h))
      && FlowByHash(s, h) == First(s.flows, flows, HasState(h))
      && PasswordCredential(s, user) == First(s.credentials, credentials, IsPasswordOf(user))
  {
    hide Run, FreshRun, Snapshots, CodesListed, FactorsListed, IdentitiesKeyed, UsersIndexed, SessionsIndexed,
      FlowsIndexed, CredentialsIndexed, Enumerates, First, UserByEmail, SessionByHash, FlowByHash, PasswordCredential;
    RunKeeps(cfg, start, events);
    var s := Run(cfg, start, events);
    UserScan(s, users, email);
    SessionScan(s, sessions, h);
    FlowScan(s, flows, h);
    CredentialScan(s, credentials, user);
  }

  // ----- What a session grants -----

  /** What a user may do now. In the single-owner profile the configured owner may do anything;
      otherwise owners and admins may, and viewers and users may read what is listed here. */
  predicate MayUse(cfg: Config, u: User, permission: string) {
    || permission == ""
    || (if cfg.profile == SingleOwner then
          cfg.ownerEmail == "" || u.email == "" || Lower(u.email) == Lower(cfg.ownerEmail)
        else
          || u.role == Owner || u.role == Admin
          || (u.role == Viewer && Reads(permission, {"profile", "health", "dashboard", "services", "toolbox", "clients",
                                                     "settings", "logs"}))
          || (u.role == Role.User && Reads(permission, {"profile", "dashboard"})))
  }

  /** The stored session `id` has the token, is neither revoked nor at one of its two ends, and
      its active user may use `permission`. */
  predicate UsableSession(cfg: Config, s: Store, id: SessionId, h: Hash, permission: string, now: Time) {
    && id in s.sessions && s.sessions[id].userId in s.users
    && var x := s.sessions[id];
       && x.tokenHash == h && x.revokedAt == None && now < x.expiresAt
       && (x.idleExpiresAt.Some? ==> now < x.idleExpiresAt.value)
       && s.users[x.userId].status == Active
       && MayUse(cfg, s.users[x.userId], permission)
  }

  lemma GrantsMeaning(cfg: Config, u: User, permission: string)
    ensures MayUse(cfg, u, permission) <==> (permission == ""
      || Allows(PermissionsFor(cfg.profile, cfg.ownerEmail, SessionRole(cfg, u), u.email), permission))
  {
    hide Allows, Reads, Lower;
    if cfg.profile == SingleOwner {
      SingleOwnerAllows(cfg.ownerEmail, Owner, u.email, permission);
    } else {
      RolesAllow(cfg.profile, cfg.ownerEmail, u.role, u.email, permission);
    }
  }

  /** After any run a verification succeeds exactly when some stored session carries the token,
      is neither revoked nor expired, and belongs to an active user whose current role grants
      the permission: the snapshot in the session never disagrees with the role. */
  lemma VerifyFollowsCurrentRole(cfg: Config, start: Store, events: seq<Event>, token: Secret, permission: string,
                                 now: Time)
    requires Inv(cfg, start) && FreshRun(cfg, start, events)
    ensures var s := Run(cfg, start, events);
      && (VerifySession(cfg, s, token, permission, now).1.Ok? <==>
            exists id :: UsableSession(cfg, s, id, HashOf(token), permission, now))
  {
    RunKeeps(cfg, start, events);
    var s := Run(cfg, start, events);
    VerifyOutcome(cfg, s, token, permission, now);
    SnapshotOutcome(cfg, s, token, permission, now);
  }

  /** The session carries the policy's role and permissions for its user's current role. */
  predicate FollowsRole(cfg: Config, users: map<UserId, User>, x: Session) {
    && x.userId in users
    && x.role == SessionRole(cfg, users[x.userId])
    && x.permissions
         == PermissionsFor(cfg.profile, cfg.ownerEmail, SessionRole(cfg, users[x.userId]), users[x.userId].email)
  }

  /** After any run, every unrevoked session follows its user's current role. */
  lemma SnapshotsFollowRoles(cfg: Config, start: Store, events: seq<Event>)
    requires Inv(cfg, start) && FreshRun(cfg, start, events)
    ensures var s := Run(cfg, start, events);
      forall id :: Unrevoked(s, id) ==> FollowsRole(cfg, s.users, s.sessions[id])
  {
    hide Run, FreshRun, PermissionsFor, SessionRole, UsersIndexed, SessionsIndexed, FlowsIndexed, CredentialsIndexed,
      IdentitiesKeyed, FactorsListed, CodesListed;
    RunKeeps(cfg, start, events);
  }

  lemma VerifyOutcome(cfg: Config, s: Store, token: Secret, permission: string, now: Time)
    requires Inv(cfg, s)
    ensures VerifySession(cfg, s, token, permission, now).1.Ok?
      <==> SessionObjection(s, SessionByHash(s, HashOf(token)), permission, now) == None
  {
    hide Inv, Refresh, Expired, Allows, SessionByHash;
    var at := At(now);
    Begin(cfg, s, at);
    SessionFound(cfg, s, s, HashOf(token), at);
    var found := SessionByHash(s, HashOf(token));
    if SessionObjection(s, found, permission, now) == None {
      Refreshed(cfg, s, s, found.value, now, at);
    }
  }

  lemma SnapshotOutcome(cfg: Config, s: Store, token: Secret, permission: string, now: Time)
    requires Inv(cfg, s)
    ensures SessionObjection(s, SessionByHash(s, HashOf(token)), permission, now) == None
      <==> exists id :: UsableSession(cfg, s, id, HashOf(token), permission, now)
  {
    hide Allows, PermissionsFor, MayUse, UsersIndexed, FlowsIndexed, CredentialsIndexed, IdentitiesKeyed,
      FactorsListed, CodesListed;
    var h := HashOf(token);
    if h in s.sessionsByHash {
      GrantsMeaning(cfg, s.users[s.sessions[s.sessionsByHash[h]].userId], permission);
    }
    if SessionObjection(s, SessionByHash(s, h), permission, now) == None {
      assert UsableSession(cfg, s, s.sessionsByHash[h], h, permission, now);
    }
    if id :| UsableSession(cfg, s, id, h, permission, now) {
      assert s.sessionsByHash[h] == id;
    }
  }

  // ----- An active owner or admin remains -----

  lemma {:induction false} PrivilegeRemains(cfg: Config, s: Store, events: seq<Event>)
    requires Inv(cfg, s) && FreshRun(cfg, s, events) && SomePrivileged(s.users)
    ensures SomePrivileged(Run(cfg, s, events).users)
    decreases |events|
  {
    hide Inv, Unused, Step, MomentOf, SomePrivileged;
    if events != [] {
      var init, e := events[..|events| - 1], events[|events| - 1];
      PrivilegeRemains(cfg, s, init);
      RunKeeps(cfg, s, init);
      StepEvolves(cfg, Run(cfg, s, init), e.call, e.env);
    }
  }

  // ----- Social identities -----

  /** Providers whose identities are not kept where address identities are. */
  predicate SocialProvider(p: string) {
    p != "email" && !("email:" <= p)
  }

  lemma KeyParts(p: string, s: string)
    ensures var k := IdentityKey(p, s);
      |k| == |p| + 1 + |s| && k[..|p|] == p && k[|p|] == ':' && k[|p| + 1..] == s
  {
  }

  /** One text for two pairs: the shorter provider, with its colon, starts the longer one, and
      the subject makes up the rest. */
  lemma LongerProvider(p: string, s: string, q: string, t: string)
    requires IdentityKey(p, s) == IdentityKey(q, t) && |p| < |q|
    ensures p + ":" <= q && s == q[|p| + 1..] + ":" + t
  {
    KeyParts(p, s);
    KeyParts(q, t);
    var k := IdentityKey(p, s);
    assert k == IdentityKey(q, t);
    assert q == k[..|q|] && q[..|p|] == k[..|p|] && q[|p|] == k[|p|];
    assert p + ":" == q[..|p| + 1];
    assert q[|p| + 1..] + ":" + t == k[|p| + 1..];
  }

  lemma ColonJoins(p: string, q: string, t: string)
    requires p + ":" <= q
    ensures IdentityKey(p, q[|p| + 1..] + ":" + t) == IdentityKey(q, t)
  {
    assert q == p + ":" + q[|p| + 1..];
  }

  /** When two pairs are kept under one text, exactly. */
  lemma KeysCollide(p: string, s: string, q: string, t: string)
    ensures IdentityKey(p, s) == IdentityKey(q, t) <==>
      || (p == q && s == t)
      || (p + ":" <= q && s == q[|p| + 1..] + ":" + t)
      || (q + ":" <= p && t == p[|q| + 1..] + ":" + s)
  {
    if IdentityKey(p, s) == IdentityKey(q, t) {
      if |p| < |q| {
        LongerProvider(p, s, q, t);
      } else if |q| < |p| {
        LongerProvider(q, t, p, s);
      } else {
        KeyParts(p, s);
        KeyParts(q, t);
      }
    }
    if p + ":" <= q {
      ColonJoins(p, q, t);
    }
    if q + ":" <= p {
      ColonJoins(q, p, s);
    }
  }

  /** Two providers share a text for some of their subjects exactly when one of them, with a
      colon, starts the other. */
  lemma ProvidersCollide(p: string, q: string)
    requires p != q
    ensures (exists s, t :: s != "" && t != "" && IdentityKey(p, s) == IdentityKey(q, t))
      <==> p + ":" <= q || q + ":" <= p
  {
    if s, t :| s != "" && t != "" && IdentityKey(p, s) == IdentityKey(q, t) {
      KeysCollide(p, s, q, t);
    }
    if p + ":" <= q {
      KeysCollide(p, q[|p| + 1..] + ":" + "x", q, "x");
    } else if q + ":" <= p {
      KeysCollide(p, "x", q, p[|q| + 1..] + ":" + "x");
    }
  }

  /** A provider's identities are kept where address identities are exactly when it is "email"
      or starts with it and a colon. */
  lemma EmailKeysAreOfEmail(provider: string, subject: string)
    ensures EmailKeyed(IdentityKey(provider, subject)) <==> !SocialProvider(provider)
  {
    var k := IdentityKey(provider, subject);
    KeyParts(provider, subject);
    if "email:" <= provider {
      assert k[..6] == provider[..6];
    }
    if provider == "email" {
      EmailKeyIsKeyed(subject);
    }
    if EmailKeyed(k) {
      assert k == IdentityKey("email", k[6..]);
      KeysCollide(provider, subject, "email", k[6..]);
      if provider + ":" <= "email" {
        ColonWithin(provider, "email");
      }
    }
  }

  lemma ColonWithin(p: string, q: string)
    requires p + ":" <= q
    ensures ':' in q
  {
    assert q[|p|] == (p + ":")[|p|];
  }

  lemma {:induction false} IdentityStays(cfg: Config, s: Store, events: seq<Event>, k: string)
    requires Inv(cfg, s) && FreshRun(cfg, s, events) && k in s.identities && !EmailKeyed(k)
    ensures var s' := Run(cfg, s, events); k in s'.identities && s'.identities[k] == s.identities[k]
    decreases |events|
  {
    hide Inv, Unused, Step, MomentOf, EmailKeyed;
    if events != [] {
      var init, e := events[..|events| - 1], events[|events| - 1];
      IdentityStays(cfg, s, init, k);
      RunKeeps(cfg, s, init);
      StepEvolves(cfg, Run(cfg, s, init), e.call, e.env);
    }
  }

  /** A social login leaves its (provider, subject) pair linked to the user it logs in. */
  lemma SocialLoginLinks(cfg: Config, s: Store, p: SocialProfile, given: Option<Secret>, nonce: Option<Secret>,
                         env: Env)
    requires Inv(cfg, s) && Unused(s, env.drawn) && p.subject != ""
    requires LoginSocial(cfg, s, p, given, nonce, env).1.Ok?
    ensures var (s', x) := LoginSocial(cfg, s, p, given, nonce, env);
      && GetIdentity(s', p.provider, p.subject).Some?
      && GetIdentity(s', p.provider, p.subject).value.userId == x.value.userId
  {
    hide Inv, Unused, ConsumeSocialState, SocialUser, LoginWith, IdentityKey;
    var s1 := if given.Some? then ConsumeSocialState(cfg, s, p.provider, given.value, nonce, env).0 else s;
    var at := At(env.now);
    Begin(cfg, s, at);
    if given.Some? {
      ConsumeSocialKeeps(cfg, s, s, p.provider, given.value, nonce, env, at);
    }
    SocialUserLinks(cfg, s, s1, p, env, at);
    var (s2, user) := SocialUser(cfg, s1, p, env);
    LoginWithFrame(cfg, s2, user.value, p.provider, env);
  }

  lemma SocialUserLinks(cfg: Config, s0: Store, s: Store, p: SocialProfile, env: Env, at: Moment)
    requires Reached(cfg, s0, s, at) && p.subject != "" && SocialUser(cfg, s, p, env).1.Ok?
    ensures var (s', user) := SocialUser(cfg, s, p, env);
      && GetIdentity(s', p.provider, p.subject).Some?
      && GetIdentity(s', p.provider, p.subject).value.userId == user.value.id
  {
    hide Reached, CreateUserCall, IdentityKey, UserByEmail;
    var known := GetIdentity(s, p.provider, p.subject);
    if known.Some? {
      IdentityFound(cfg, s0, s, p.provider, p.subject, at);
      UserIds(cfg, s0, s, known.value.userId, at);
    }
  }

  lemma LoginWithFrame(cfg: Config, s: Store, u: User, provider: string, env: Env)
    ensures var (s', x) := LoginWith(cfg, s, u, provider, env);
      s'.identities == s.identities && (x.Ok? ==> x.value.userId == u.id)
  {
    hide ProfileObjection, PermissionsFor, IdleDeadline, EmailKey;
  }

  /** Two social logins whose pairs are kept under one text, as the same pair always is, log in
      one user, any run apart. */
  lemma SocialLoginsAgree(cfg: Config, s: Store, p: SocialProfile, given: Option<Secret>, nonce: Option<Secret>,
                          env: Env, between: seq<Event>,
                          q: SocialProfile, given': Option<Secret>, nonce': Option<Secret>, env': Env)
    requires Inv(cfg, s) && Unused(s, env.drawn) && p.subject != "" && q.subject != "" && SocialProvider(p.provider)
    requires IdentityKey(p.provider, p.subject) == IdentityKey(q.provider, q.subject)
    requires var s1 := LoginSocial(cfg, s, p, given, nonce, env).0;
      FreshRun(cfg, s1, between) && Unused(Run(cfg, s1, between), env'.drawn)
    requires LoginSocial(cfg, s, p, given, nonce, env).1.Ok?
    requires var s1 := LoginSocial(cfg, s, p, given, nonce, env).0;
      LoginSocial(cfg, Run(cfg, s1, between), q, given', nonce', env').1.Ok?
    ensures var (s1, x) := LoginSocial(cfg, s, p, given, nonce, env);
      LoginSocial(cfg, Run(cfg, s1, between), q, given', nonce', env').1.value.userId == x.value.userId
  {
    hide Inv, Unused, LoginSocial, IdentityKey, Run, FreshRun, EmailKeyed, SocialProvider;
    var s1 := LoginSocial(cfg, s, p, given, nonce, env).0;
    var s2 := Run(cfg, s1, between);
    StepEvolves(cfg, s, OnSession(SocialLogin(p, given, nonce)), env);
    SocialLoginLinks(cfg, s, p, given, nonce, env);
    EmailKeysAreOfEmail(p.provider, p.subject);
    IdentityStays(cfg, s1, between, IdentityKey(p.provider, p.subject));
    RunKeeps(cfg, s1, between);
    var again := OnSession(SocialLogin(q, given', nonce'));
    StepEvolves(cfg, s2, again, env');
    SocialLoginLinks(cfg, s2, q, given', nonce', env');
  }

  /** The call that made a link: the first one after which the identity is there. */
  predicate LinkedAt(cfg: Config, s: Store, events: seq<Event>, k: string, i: nat)
    requires i < |events|
  {
    k !in Run(cfg, s, events[..i]).identities && k in Run(cfg, s, events[..i + 1]).identities
  }

  /** Call `i`, a social login, made the link with its profile: to a user created in that call,
      or to one with the profile's address, which the provider vouched for if the configuration
      asks. The link has not changed since. */
  predicate LinkMade(cfg: Config, s: Store, events: seq<Event>, k: string, i: nat) {
    && i < |events| && LinkedAt(cfg, s, events, k, i)
    && k in Run(cfg, s, events).identities
    && var identity := Run(cfg, s, events).identities[k];
    Vouched(ProfileOf(events[i].call), identity) && LinkAllowed(cfg, Run(cfg, s, events[..i]).users, identity)
  }

  /** Every social link that a run adds was made by one of its calls as allowed. */
  lemma {:induction false} LinksWereVerified(cfg: Config, s: Store, events: seq<Event>, k: string)
    requires Inv(cfg, s) && FreshRun(cfg, s, events) && !EmailKeyed(k)
    ensures k !in s.identities && k in Run(cfg, s, events).identities ==>
      exists i: nat :: LinkMade(cfg, s, events, k, i)
    decreases |events|
  {
    hide Inv, Unused, Step, EmailKeyed, VerifiedHash, IsStepUp, Reinstated, ProfileOf, Vouched, LinkAllowed;
    if events != [] && k !in s.identities && k in Run(cfg, s, events).identities {
      var n := |events| - 1;
      var init, e := events[..n], events[n];
      RunKeeps(cfg, s, init);
      StepEvolves(cfg, Run(cfg, s, init), e.call, e.env);
      assert events[..n + 1] == events;
      if k in Run(cfg, s, init).identities {
        LinksWereVerified(cfg, s, init, k);
        var i: nat :| LinkMade(cfg, s, init, k, i);
        assert init[..i] == events[..i] && init[..i + 1] == events[..i + 1];
        assert LinkMade(cfg, s, events, k, i);
      } else {
        assert LinkMade(cfg, s, events, k, n);
      }
    }
  }
}

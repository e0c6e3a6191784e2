/** What every call keeps: the indexes agree with the primary maps, session snapshots follow
    the current roles, and how users, sessions and identities may evolve. */
module AuthInvariants {
  import opened Prelude
  import opened Permissions
  import opened AuthModels
  import opened AuthStore
  import opened AuthCalls

  // ----- Invariants, each over the maps it speaks of -----

  ghost predicate UsersIndexed(users: map<UserId, User>, byEmail: map<string, UserId>) {
    && (forall u :: u in users ==>
          users[u].id == u && EmailKey(users[u].email) in byEmail && byEmail[EmailKey(users[u].email)] == u)
    && (forall e :: e in byEmail ==> byEmail[e] in users && EmailKey(users[byEmail[e]].email) == e)
  }

  ghost predicate SessionsIndexed(sessions: map<SessionId, Session>, byHash: map<Hash, SessionId>) {
    && (forall id :: id in sessions ==>
          sessions[id].id == id && sessions[id].tokenHash in byHash && byHash[sessions[id].tokenHash] == id)
    && (forall h :: h in byHash ==> byHash[h] in sessions && sessions[byHash[h]].tokenHash == h)
  }

  ghost predicate FlowsIndexed(flows: map<FlowId, Flow>, byHash: map<Hash, FlowId>) {
    && (forall id :: id in flows ==>
          flows[id].id == id && flows[id].stateHash in byHash && byHash[flows[id].stateHash] == id)
    && (forall h :: h in byHash ==> byHash[h] in flows && flows[byHash[h]].stateHash == h)
  }

  /** Each user's password credential is the one usable credential stored for that user. */
  ghost predicate CredentialsIndexed(credentials: map<CredentialId, Credential>, passwordOf: map<UserId, CredentialId>)
  {
    && (forall id :: id in credentials ==>
          && credentials[id].id == id && credentials[id].hash.Some? && credentials[id].revokedAt == None
          && credentials[id].userId in passwordOf && passwordOf[credentials[id].userId] == id)
    && (forall u :: u in passwordOf ==> passwordOf[u] in credentials && credentials[passwordOf[u]].userId == u)
  }

  ghost predicate IdentitiesKeyed(identities: map<string, Identity>, users: map<UserId, User>) {
    forall k :: k in identities ==>
      k == IdentityKey(identities[k].provider, identities[k].subject) && identities[k].userId in users
  }

  ghost predicate FactorsListed(factors: map<FactorId, Factor>, order: seq<FactorId>) {
    && (forall id :: id in factors ==> factors[id].id == id)
    && (forall id :: id in factors <==> id in order)
    && (forall i, j :: 0 <= i < j < |order| ==> order[i] != order[j])
  }

  ghost predicate CodesListed(codes: map<CodeId, RecoveryCode>, order: seq<CodeId>) {
    && (forall id :: id in codes ==> codes[id].id == id)
    && (forall id :: id in codes <==> id in order)
    && (forall i, j :: 0 <= i < j < |order| ==> order[i] != order[j])
  }

  function SessionRole(cfg: Config, u: User): Role {
    if cfg.profile == SingleOwner then Owner else u.role
  }

  /** Sessions belong to stored users, carry the policy's permissions for their role, and the
      unrevoked ones carry the current role. */
  ghost predicate Snapshots(cfg: Config, users: map<UserId, User>, sessions: map<SessionId, Session>) {
    forall id :: id in sessions ==>
      && sessions[id].userId in users
      && sessions[id].email == users[sessions[id].userId].email
      && sessions[id].permissions == PermissionsFor(cfg.profile, cfg.ownerEmail, sessions[id].role, sessions[id].email)
      && (sessions[id].revokedAt == None ==> sessions[id].role == SessionRole(cfg, users[sessions[id].userId]))
  }

  ghost predicate Inv(cfg: Config, s: Store) {
    && UsersIndexed(s.users, s.usersByEmail)
    && SessionsIndexed(s.sessions, s.sessionsByHash)
    && FlowsIndexed(s.flows, s.flowsByHash)
    && CredentialsIndexed(s.credentials, s.passwordOf)
    && IdentitiesKeyed(s.identities, s.users)
    && FactorsListed(s.factors, s.factorOrder)
    && CodesListed(s.codes, s.codeOrder)
    && Snapshots(cfg, s.users, s.sessions)
  }

  // ----- Evolution -----

  ghost predicate SomePrivileged(users: map<UserId, User>) {
    exists u :: u in users && users[u].status == Active && (users[u].role == Owner || users[u].role == Admin)
  }

  /** A call in progress: its time, the token it has verified, whether it is a step-up, the user
      it reinstates, and the provider profile it logs in with. */
  datatype Moment = Moment(now: Time, verified: Option<Hash>, stepUp: bool, reinstated: Option<UserId>,
                           profile: Option<SocialProfile>)

  /** A call that does none of these. */
  function At(now: Time): Moment {
    Moment(now, None, false, None, None)
  }

  /** Only a reinstatement makes a suspended user active. */
  predicate StatusStep(u: User, v: User, at: Moment) {
    u.status != Active && v.status == Active ==> at.reinstated == Some(u.id)
  }

  /** Users stay, with their id and address. */
  ghost predicate UsersEvolve(a: map<UserId, User>, b: map<UserId, User>, at: Moment) {
    && (forall u :: u in a ==> u in b && b[u].id == a[u].id && b[u].email == a[u].email && StatusStep(a[u], b[u], at))
    && (SomePrivileged(a) ==> SomePrivileged(b))
  }

  /** What a call may do to one session: never change whose it is or when it ends, never lower
      its assurance, never touch a revoked one. Only the session the call has verified is seen
      again, and then its idle deadline moves with it to one idle lifetime from now, except
      that a step-up may move the time it was seen alone. */
  predicate SessionStep(cfg: Config, x: Session, y: Session, at: Moment) {
    && y.id == x.id && y.tokenHash == x.tokenHash && y.userId == x.userId && y.email == x.email && y.role == x.role
    && y.permissions == x.permissions && y.createdAt == x.createdAt && y.expiresAt == x.expiresAt
    && (x.revokedAt.Some? ==> y == x)
    && (x.assurance == AAL2 ==> y.assurance == AAL2)
    && (y.assurance == x.assurance || (at.stepUp && at.verified == Some(x.tokenHash)))
    && (y.idleExpiresAt == x.idleExpiresAt || y.idleExpiresAt == IdleDeadline(cfg, at.now))
    && (at.verified != Some(x.tokenHash) ==> y.idleExpiresAt == x.idleExpiresAt && y.lastSeenAt == x.lastSeenAt)
    && (!at.stepUp ==>
          || (y.idleExpiresAt == x.idleExpiresAt && y.lastSeenAt == x.lastSeenAt)
          || (y.idleExpiresAt == IdleDeadline(cfg, at.now) && y.lastSeenAt == Some(at.now)))
  }

  /** A session issued by the call: it is as if just seen, and no step-up has raised it. */
  predicate Issued(cfg: Config, x: Session, at: Moment) {
    && x.createdAt == at.now && x.expiresAt == at.now + cfg.sessionTtl && x.idleExpiresAt == IdleDeadline(cfg, at.now)
    && (!(at.stepUp && at.verified == Some(x.tokenHash)) ==> x.lastSeenAt == Some(at.now) && x.assurance == AAL1)
  }

  ghost predicate SessionsEvolve(cfg: Config, a: map<SessionId, Session>, b: map<SessionId, Session>, at: Moment) {
    && (forall id :: id in a ==> id in b && SessionStep(cfg, a[id], b[id], at))
    && (forall id :: id in b && id !in a ==> Issued(cfg, b[id], at))
  }

  predicate EmailKeyed(k: string) {
    |k| >= 6 && k[..6] == "email:"
  }

  /** Identities kept under other texts than addresses stay as they are, and a new one is the
      profile of the call, linked as allowed. */
  ghost predicate IdentitiesEvolve(cfg: Config, users: map<UserId, User>, a: map<string, Identity>,
                                   b: map<string, Identity>, at: Moment)
  {
    && (forall k :: k in a ==> k in b && (EmailKeyed(k) || b[k] == a[k]))
    && (forall k :: k in b && k !in a ==> EmailKeyed(k) || (Vouched(at.profile, b[k]) && LinkAllowed(cfg, users, b[k])))
  }

  /** The identity says what the profile says. */
  predicate Vouched(profile: Option<SocialProfile>, i: Identity) {
    profile == Some(SocialProfile(i.provider, i.subject, i.email, i.verified))
  }

  /** A link to a user already there rests on that user's address, verified by the provider if
      the configuration says so. */
  predicate LinkAllowed(cfg: Config, users: map<UserId, User>, i: Identity) {
    i.userId in users ==>
      EmailKey(i.email) == EmailKey(users[i.userId].email) && (cfg.linkingNeedsVerified ==> i.verified)
  }

  ghost predicate Evolves(cfg: Config, a: Store, b: Store, at: Moment) {
    && UsersEvolve(a.users, b.users, at)
    && SessionsEvolve(cfg, a.sessions, b.sessions, at)
    && IdentitiesEvolve(cfg, a.users, a.identities, b.identities, at)
  }

  /** `s` satisfies the invariants and was reached from `s0` within one call. */
  ghost predicate Reached(cfg: Config, s0: Store, s: Store, at: Moment) {
    Inv(cfg, s) && Evolves(cfg, s0, s, at)
  }

  lemma Begin(cfg: Config, s: Store, at: Moment)
    requires Inv(cfg, s)
    ensures Reached(cfg, s, s, at)
  {
  }

  // ----- Writing users -----

  lemma UsersIndexedWrite(users: map<UserId, User>, byEmail: map<string, UserId>, u: User)
    requires UsersIndexed(users, byEmail)
    requires if u.id in users then users[u.id].email == u.email else EmailKey(u.email) !in byEmail
    ensures UsersIndexed(users[u.id := u], byEmail[EmailKey(u.email) := u.id])
  {
  }

  lemma SnapshotsUserWrite(cfg: Config, users: map<UserId, User>, sessions: map<SessionId, Session>, u: User)
    requires Snapshots(cfg, users, sessions)
    requires u.id in users ==> users[u.id].email == u.email
    requires u.id in users && users[u.id].role != u.role ==>
      forall id :: id in sessions && sessions[id].userId == u.id ==> sessions[id].revokedAt.Some?
    ensures Snapshots(cfg, users[u.id := u], sessions)
  {
  }

  predicate StillPrivileged(users: map<UserId, User>, u: User) {
    || u.id !in users
    || (Privileged(u.role) && (u.status == Active || u.status == users[u.id].status))
    || !(Privileged(users[u.id].role) && users[u.id].status == Active)
    || exists id :: id in users && id != u.id && users[id].status == Active && Privileged(users[id].role)
  }

  /** Writing `u` over the stored user leaves its address, and its status as a call may. */
  predicate Rewrite(users: map<UserId, User>, u: User, at: Moment) {
    u.id in users ==> users[u.id].id == u.id && users[u.id].email == u.email && StatusStep(users[u.id], u, at)
  }

  lemma UsersEvolveWrite(users0: map<UserId, User>, users: map<UserId, User>, u: User, at: Moment)
    requires UsersEvolve(users0, users, at) && StillPrivileged(users, u) && Rewrite(users, u, at)
    ensures UsersEvolve(users0, users[u.id := u], at)
  {
    var users' := users[u.id := u];
    if SomePrivileged(users) {
      var p :| p in users && users[p].status == Active && Privileged(users[p].role);
      if p != u.id {
        assert users'[p].status == Active && Privileged(users'[p].role);
      } else if Privileged(u.role) && u.status == Active {
        assert users'[u.id].status == Active && Privileged(users'[u.id].role);
      } else {
        var id :| id in users && id != u.id && users[id].status == Active && Privileged(users[id].role);
        assert users'[id].status == Active && Privileged(users'[id].role);
      }
    }
  }

  lemma IdentitiesKeyedUserWrite(identities: map<string, Identity>, users: map<UserId, User>, u: User)
    requires IdentitiesKeyed(identities, users)
    ensures IdentitiesKeyed(identities, users[u.id := u])
  {
  }

  /** Writing a user record: a new user with a free address, or a stored one that keeps its
      address, its role unless all its sessions are revoked, and its privilege unless another
      privileged user is active. */
  lemma UserWriteKeeps(cfg: Config, s0: Store, s: Store, u: User, at: Moment)
    requires Reached(cfg, s0, s, at)
    requires if u.id in s.users then Rewrite(s.users, u, at) else EmailKey(u.email) !in s.usersByEmail
    requires u.id in s.users && s.users[u.id].role != u.role ==>
      forall id :: id in s.sessions && s.sessions[id].userId == u.id ==> s.sessions[id].revokedAt.Some?
    requires StillPrivileged(s.users, u)
    ensures Reached(cfg, s0,
                    s.(users := s.users[u.id := u], usersByEmail := s.usersByEmail[EmailKey(u.email) := u.id]), at)
  {
    UsersIndexedWrite(s.users, s.usersByEmail, u);
    SnapshotsUserWrite(cfg, s.users, s.sessions, u);
    UsersEvolveWrite(s0.users, s.users, u, at);
    IdentitiesKeyedUserWrite(s.identities, s.users, u);
    hide UsersIndexed, Snapshots, UsersEvolve, IdentitiesKeyed, SessionsIndexed, FlowsIndexed, CredentialsIndexed,
      FactorsListed, CodesListed, SessionsEvolve, IdentitiesEvolve;
  }

  // ----- Writing sessions -----

  /** Every session is rewritten as a call may. */
  ghost predicate Rewrites(cfg: Config, a: map<SessionId, Session>, b: map<SessionId, Session>, at: Moment) {
    a.Keys == b.Keys && forall id :: id in a ==> SessionStep(cfg, a[id], b[id], at)
  }

  lemma SessionsIndexedRewrite(cfg: Config, a: map<SessionId, Session>, b: map<SessionId, Session>,
                               byHash: map<Hash, SessionId>, at: Moment)
    requires SessionsIndexed(a, byHash) && Rewrites(cfg, a, b, at)
    ensures SessionsIndexed(b, byHash)
  {
    forall id | id in b ensures b[id].id == id && b[id].tokenHash in byHash && byHash[b[id].tokenHash] == id {
      assert SessionStep(cfg, a[id], b[id], at);
    }
    forall h | h in byHash ensures byHash[h] in b && b[byHash[h]].tokenHash == h {
      assert SessionStep(cfg, a[byHash[h]], b[byHash[h]], at);
    }
  }

  lemma SnapshotsRewrite(cfg: Config, users: map<UserId, User>, a: map<SessionId, Session>, b: map<SessionId, Session>,
                         at: Moment)
    requires Snapshots(cfg, users, a) && Rewrites(cfg, a, b, at)
    ensures Snapshots(cfg, users, b)
  {
    forall id | id in b
      ensures b[id].userId in users && b[id].email == users[b[id].userId].email
      ensures b[id].permissions == PermissionsFor(cfg.profile, cfg.ownerEmail, b[id].role, b[id].email)
      ensures b[id].revokedAt == None ==> b[id].role == SessionRole(cfg, users[b[id].userId])
    {
      assert SessionStep(cfg, a[id], b[id], at);
    }
  }

  lemma SessionStepComposes(cfg: Config, x: Session, y: Session, z: Session, at: Moment)
    requires SessionStep(cfg, x, y, at) && SessionStep(cfg, y, z, at)
    ensures SessionStep(cfg, x, z, at)
  {
  }

  lemma SessionsEvolveRewrite(cfg: Config, s0: map<SessionId, Session>, a: map<SessionId, Session>,
                              b: map<SessionId, Session>, at: Moment)
    requires SessionsEvolve(cfg, s0, a, at) && Rewrites(cfg, a, b, at)
    ensures SessionsEvolve(cfg, s0, b, at)
  {
    forall id | id in s0 ensures id in b && SessionStep(cfg, s0[id], b[id], at) {
      SessionStepComposes(cfg, s0[id], a[id], b[id], at);
    }
    forall id | id in b && id !in s0 ensures Issued(cfg, b[id], at) {
      assert SessionStep(cfg, a[id], b[id], at);
    }
  }

  lemma RewriteKeeps(cfg: Config, s0: Store, s: Store, sessions: map<SessionId, Session>, at: Moment)
    requires Reached(cfg, s0, s, at) && Rewrites(cfg, s.sessions, sessions, at)
    ensures Reached(cfg, s0, s.(sessions := sessions), at)
  {
    SessionsIndexedRewrite(cfg, s.sessions, sessions, s.sessionsByHash, at);
    SnapshotsRewrite(cfg, s.users, s.sessions, sessions, at);
    SessionsEvolveRewrite(cfg, s0.sessions, s.sessions, sessions, at);
    hide UsersIndexed, Snapshots, UsersEvolve, IdentitiesKeyed, SessionsIndexed, FlowsIndexed, CredentialsIndexed,
      FactorsListed, CodesListed, SessionsEvolve, IdentitiesEvolve;
  }

  lemma RewriteOne(cfg: Config, sessions: map<SessionId, Session>, id: SessionId, y: Session, at: Moment)
    requires id in sessions && SessionStep(cfg, sessions[id], y, at)
    ensures Rewrites(cfg, sessions, sessions[id := y], at)
  {
  }

  lemma IndexEntryStays(s: Store, id: SessionId)
    requires SessionsIndexed(s.sessions, s.sessionsByHash) && id in s.sessions
    ensures s.sessionsByHash[s.sessions[id].tokenHash := id] == s.sessionsByHash
  {
  }

  // ----- Storage operations -----

  lemma CreateUserKeeps(cfg: Config, s0: Store, s: Store, u: User, at: Moment)
    requires Reached(cfg, s0, s, at) && u.id !in s.users
    ensures Reached(cfg, s0, CreateUser(s, u).0, at)
  {
    hide Reached;
    if EmailKey(u.email) !in s.usersByEmail {
      UserWriteKeeps(cfg, s0, s, u, at);
    }
  }

  lemma UpdateUserKeeps(cfg: Config, s0: Store, s: Store, u: User, at: Moment)
    requires Reached(cfg, s0, s, at)
    requires u.id in s.users ==> Rewrite(s.users, u, at) && u.role == s.users[u.id].role && StillPrivileged(s.users, u)
    ensures Reached(cfg, s0, UpdateUser(s, u).0, at)
  {
    hide Reached;
    if u.id in s.users {
      UserWriteKeeps(cfg, s0, s, u, at);
    }
  }

  lemma UpsertIdentityKeeps(cfg: Config, s0: Store, s: Store, i: Identity, at: Moment)
    requires Reached(cfg, s0, s, at) && i.userId in s.users
    requires var k := IdentityKey(i.provider, i.subject);
      EmailKeyed(k) || (k !in s.identities && Vouched(at.profile, i) && LinkAllowed(cfg, s0.users, i))
    ensures Reached(cfg, s0, UpsertIdentity(s, i), at)
  {
    if i.subject != "" {
      IdentityWrite(cfg, s0.users, s0.identities, s.identities, s.users, i, at);
      hide UsersIndexed, Snapshots, UsersEvolve, IdentitiesKeyed, SessionsIndexed, FlowsIndexed, CredentialsIndexed,
        FactorsListed, CodesListed, SessionsEvolve, IdentitiesEvolve;
    }
  }

  lemma IdentityWrite(cfg: Config, users0: map<UserId, User>, before: map<string, Identity>,
                      identities: map<string, Identity>,
                      users: map<UserId, User>, i: Identity, at: Moment)
    requires IdentitiesKeyed(identities, users) && IdentitiesEvolve(cfg, users0, before, identities, at)
    requires i.userId in users
    requires var k := IdentityKey(i.provider, i.subject);
      EmailKeyed(k) || (k !in identities && Vouched(at.profile, i) && LinkAllowed(cfg, users0, i))
    ensures IdentitiesKeyed(identities[IdentityKey(i.provider, i.subject) := i], users)
    ensures IdentitiesEvolve(cfg, users0, before, identities[IdentityKey(i.provider, i.subject) := i], at)
  {
  }

  lemma UpsertCredentialKeeps(cfg: Config, s0: Store, s: Store, c: Credential, at: Moment)
    requires Reached(cfg, s0, s, at) && c.hash.Some? && c.revokedAt == None
    requires c.userId in s.passwordOf ==> s.passwordOf[c.userId] == c.id
    requires c.id in s.credentials ==> s.credentials[c.id].userId == c.userId
    ensures Reached(cfg, s0, UpsertCredential(s, c), at)
  {
    CredentialWrite(s.credentials, s.passwordOf, c);
    hide UsersIndexed, Snapshots, UsersEvolve, IdentitiesKeyed, SessionsIndexed, FlowsIndexed, CredentialsIndexed,
      FactorsListed, CodesListed, SessionsEvolve, IdentitiesEvolve;
  }

  lemma CredentialWrite(credentials: map<CredentialId, Credential>, passwordOf: map<UserId, CredentialId>,
                        c: Credential)
    requires CredentialsIndexed(credentials, passwordOf) && c.hash.Some? && c.revokedAt == None
    requires c.userId in passwordOf ==> passwordOf[c.userId] == c.id
    requires c.id in credentials ==> credentials[c.id].userId == c.userId
    ensures CredentialsIndexed(credentials[c.id := c], passwordOf[c.userId := c.id])
  {
  }

  lemma CreateFlowKeeps(cfg: Config, s0: Store, s: Store, f: Flow, at: Moment)
    requires Reached(cfg, s0, s, at) && f.id !in s.flows
    ensures Reached(cfg, s0, CreateFlow(s, f).0, at)
  {
    if f.stateHash !in s.flowsByHash {
      FlowWrite(s.flows, s.flowsByHash, f);
      ReindexFlowsKeeps(cfg, s0, s, s.flows[f.id := f], s.flowsByHash[f.stateHash := f.id], at);
    }
  }

  lemma FlowWrite(flows: map<FlowId, Flow>, byHash: map<Hash, FlowId>, f: Flow)
    requires FlowsIndexed(flows, byHash)
    requires if f.id in flows then flows[f.id].stateHash == f.stateHash else f.stateHash !in byHash
    ensures FlowsIndexed(flows[f.id := f], byHash[f.stateHash := f.id])
    ensures f.id in flows ==> byHash[f.stateHash := f.id] == byHash
  {
  }

  lemma ConsumeFlowKeeps(cfg: Config, s0: Store, s: Store, h: Hash, kind: FlowKind, provider: string, at: Moment)
    requires Reached(cfg, s0, s, at)
    ensures Reached(cfg, s0, ConsumeFlow(s, h, kind, provider, at.now).0, at)
  {
    var (s', consumed) := ConsumeFlow(s, h, kind, provider, at.now);
    if consumed.Some? {
      FlowWrite(s.flows, s.flowsByHash, consumed.value);
      ReindexFlowsKeeps(cfg, s0, s, s'.flows, s.flowsByHash, at);
    }
  }

  lemma CreateSessionKeeps(cfg: Config, s0: Store, s: Store, x: Session, at: Moment)
    requires Reached(cfg, s0, s, at) && x.id !in s.sessions && x.userId in s.users
    requires x.email == s.users[x.userId].email && x.role == SessionRole(cfg, s.users[x.userId])
    requires x.permissions == PermissionsFor(cfg.profile, cfg.ownerEmail, x.role, x.email) && Issued(cfg, x, at)
    ensures Reached(cfg, s0, CreateSession(s, x).0, at)
  {
    if x.tokenHash !in s.sessionsByHash {
      SessionIndexAdded(s.sessions, s.sessionsByHash, x);
      SessionEvolutionAdded(cfg, s0.sessions, s.sessions, x, at);
      SnapshotAdded(cfg, s.users, s.sessions, x);
      hide UsersIndexed, Snapshots, UsersEvolve, IdentitiesKeyed, SessionsIndexed, FlowsIndexed, CredentialsIndexed,
        FactorsListed, CodesListed, SessionsEvolve, IdentitiesEvolve;
    }
  }

  lemma SessionIndexAdded(sessions: map<SessionId, Session>, byHash: map<Hash, SessionId>, x: Session)
    requires SessionsIndexed(sessions, byHash) && x.id !in sessions && x.tokenHash !in byHash
    ensures SessionsIndexed(sessions[x.id := x], byHash[x.tokenHash := x.id])
  {
  }

  lemma SessionEvolutionAdded(cfg: Config, before: map<SessionId, Session>, sessions: map<SessionId, Session>,
                              x: Session, at: Moment)
    requires SessionsEvolve(cfg, before, sessions, at) && x.id !in sessions && Issued(cfg, x, at)
    ensures SessionsEvolve(cfg, before, sessions[x.id := x], at)
  {
    hide SessionStep, Issued;
  }

  lemma SnapshotAdded(cfg: Config, users: map<UserId, User>, sessions: map<SessionId, Session>, x: Session)
    requires Snapshots(cfg, users, sessions) && x.userId in users
    requires x.email == users[x.userId].email && x.role == SessionRole(cfg, users[x.userId])
    requires x.permissions == PermissionsFor(cfg.profile, cfg.ownerEmail, x.role, x.email)
    ensures Snapshots(cfg, users, sessions[x.id := x])
  {
    hide PermissionsFor, SessionRole;
  }

  lemma TouchKeeps(cfg: Config, s0: Store, s: Store, id: SessionId, at: Moment)
    requires Reached(cfg, s0, s, at) && id in s.sessions && at.verified == Some(s.sessions[id].tokenHash)
    ensures Reached(cfg, s0, TouchSession(s, id, at.now, IdleDeadline(cfg, at.now)).0, at)
  {
    IndexEntryStays(s, id);
    hide Reached;
    var (s', touched) := TouchSession(s, id, at.now, IdleDeadline(cfg, at.now));
    if touched.Some? {
      RewriteOne(cfg, s.sessions, id, touched.value, at);
      RewriteKeeps(cfg, s0, s, s'.sessions, at);
    }
  }

  lemma RaiseKeeps(cfg: Config, s0: Store, s: Store, id: SessionId, at: Moment)
    requires Reached(cfg, s0, s, at) && at.stepUp
    requires id in s.sessions ==> at.verified == Some(s.sessions[id].tokenHash)
    ensures Reached(cfg, s0, SetAssurance(s, id, AAL2, at.now).0, at)
  {
    if id in s.sessions {
      IndexEntryStays(s, id);
    }
    hide Reached;
    var (s', raised) := SetAssurance(s, id, AAL2, at.now);
    if raised.Some? {
      RewriteOne(cfg, s.sessions, id, raised.value, at);
      RewriteKeeps(cfg, s0, s, s'.sessions, at);
    }
  }

  lemma RevokeKeeps(cfg: Config, s0: Store, s: Store, id: SessionId, at: Moment)
    requires Reached(cfg, s0, s, at)
    ensures Reached(cfg, s0, RevokeSession(s, id, at.now), at)
  {
    hide Reached;
    if Unrevoked(s, id) {
      RewriteOne(cfg, s.sessions, id, s.sessions[id].(revokedAt := Some(at.now)), at);
      RewriteKeeps(cfg, s0, s, RevokeSession(s, id, at.now).sessions, at);
    }
  }

  lemma RevokeForUserKeeps(cfg: Config, s0: Store, s: Store, user: UserId, except: Option<SessionId>, at: Moment)
    requires Reached(cfg, s0, s, at)
    ensures Reached(cfg, s0, RevokeForUser(s, user, except, at.now), at)
  {
    hide Reached;
    RewriteKeeps(cfg, s0, s, RevokeForUser(s, user, except, at.now).sessions, at);
  }

  /** A new role is written together with the revocation of every session of the user: the two
      writes commute, and revoking first keeps the snapshots true throughout. */
  lemma RoleChangeKeeps(cfg: Config, s0: Store, s: Store, u: User, at: Moment)
    requires Reached(cfg, s0, s, at) && u.id in s.users && Rewrite(s.users, u, at) && StillPrivileged(s.users, u)
    ensures Reached(cfg, s0, RevokeForUser(UpdateUser(s, u).0, u.id, None, at.now), at)
  {
    hide Reached;
    var s1 := RevokeForUser(s, u.id, None, at.now);
    RevokeForUserKeeps(cfg, s0, s, u.id, None, at);
    UserWriteKeeps(cfg, s0, s1, u, at);
    assert RevokeForUser(UpdateUser(s, u).0, u.id, None, at.now) == UpdateUser(s1, u).0;
  }

  lemma CleanupRewrites(cfg: Config, s: Store, at: Moment)
    ensures Rewrites(cfg, s.sessions, Cleanup(s, at.now).sessions, at)
  {
    hide Expired, IdleDeadline;
  }

  lemma ReachedFlows(cfg: Config, s0: Store, s: Store, at: Moment)
    requires Reached(cfg, s0, s, at)
    ensures FlowsIndexed(s.flows, s.flowsByHash)
  {
    hide UsersIndexed, Snapshots, UsersEvolve, IdentitiesKeyed, SessionsIndexed, FlowsIndexed, CredentialsIndexed,
      FactorsListed, CodesListed, SessionsEvolve, IdentitiesEvolve;
  }

  lemma CleanupKeeps(cfg: Config, s0: Store, s: Store, at: Moment)
    requires Reached(cfg, s0, s, at)
    ensures Reached(cfg, s0, Cleanup(s, at.now), at)
  {
    hide Reached, FlowsIndexed, Rewrites, Expired;
    ReachedFlows(cfg, s0, s, at);
    FlowsCleaned(s.flows, s.flowsByHash, at.now);
    CleanupRewrites(cfg, s, at);
    var s' := Cleanup(s, at.now);
    RewriteKeeps(cfg, s0, s, s'.sessions, at);
    ReindexFlowsKeeps(cfg, s0, s.(sessions := s'.sessions), s'.flows, s'.flowsByHash, at);
  }

  lemma ReindexFlowsKeeps(cfg: Config, s0: Store, s: Store, flows: map<FlowId, Flow>, byHash: map<Hash, FlowId>,
                          at: Moment)
    requires Reached(cfg, s0, s, at) && FlowsIndexed(flows, byHash)
    ensures Reached(cfg, s0, s.(flows := flows, flowsByHash := byHash), at)
  {
    hide UsersIndexed, Snapshots, UsersEvolve, IdentitiesKeyed, SessionsIndexed, FlowsIndexed, CredentialsIndexed,
      FactorsListed, CodesListed, SessionsEvolve, IdentitiesEvolve;
  }

  lemma FlowsCleaned(flows: map<FlowId, Flow>, byHash: map<Hash, FlowId>, now: Time)
    requires FlowsIndexed(flows, byHash)
    ensures FlowsIndexed(map id | id in flows && now < flows[id].expiresAt :: flows[id],
                         byHash - set id | id in flows && flows[id].expiresAt <= now :: flows[id].stateHash)
  {
  }

  lemma CreateFactorKeeps(cfg: Config, s0: Store, s: Store, f: Factor, secret: Secret, at: Moment)
    requires Reached(cfg, s0, s, at) && f.id !in s.factors
    ensures Reached(cfg, s0, StoreSecret(CreateFactor(s, f), f.id, secret), at)
  {
    hide UsersIndexed, Snapshots, UsersEvolve, IdentitiesKeyed, SessionsIndexed, FlowsIndexed, CredentialsIndexed,
      CodesListed, SessionsEvolve, IdentitiesEvolve;
  }

  lemma UpdateFactorKeeps(cfg: Config, s0: Store, s: Store, f: Factor, at: Moment)
    requires Reached(cfg, s0, s, at)
    ensures Reached(cfg, s0, UpdateFactor(s, f).0, at)
  {
    hide UsersIndexed, Snapshots, UsersEvolve, IdentitiesKeyed, SessionsIndexed, FlowsIndexed, CredentialsIndexed,
      CodesListed, SessionsEvolve, IdentitiesEvolve;
  }

  lemma MarkCounterKeeps(cfg: Config, s0: Store, s: Store, id: FactorId, counter: int, at: Moment)
    requires Reached(cfg, s0, s, at)
    ensures Reached(cfg, s0, MarkCounter(s, id, counter, at.now).0, at)
  {
    hide UsersIndexed, Snapshots, UsersEvolve, IdentitiesKeyed, SessionsIndexed, FlowsIndexed, CredentialsIndexed,
      CodesListed, SessionsEvolve, IdentitiesEvolve;
  }

  lemma CreateCodeKeeps(cfg: Config, s0: Store, s: Store, c: RecoveryCode, at: Moment)
    requires Reached(cfg, s0, s, at)
    ensures Reached(cfg, s0, CreateCode(s, c), at)
  {
    hide UsersIndexed, Snapshots, UsersEvolve, IdentitiesKeyed, SessionsIndexed, FlowsIndexed, CredentialsIndexed,
      FactorsListed, SessionsEvolve, IdentitiesEvolve;
  }

  lemma MarkCodeKeeps(cfg: Config, s0: Store, s: Store, id: CodeId, at: Moment)
    requires Reached(cfg, s0, s, at)
    ensures Reached(cfg, s0, MarkCode(s, id, at.now).0, at)
  {
    hide UsersIndexed, Snapshots, UsersEvolve, IdentitiesKeyed, SessionsIndexed, FlowsIndexed, CredentialsIndexed,
      FactorsListed, SessionsEvolve, IdentitiesEvolve;
  }
}

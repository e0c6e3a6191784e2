/** Storage operations as single steps, for interleavings: what the service's other calls may do
    to the storage between two steps of a protocol. */
module StorageOps {
  import opened Prelude
  import opened AuthModels
  import opened AuthStore
  import opened AuthCalls

  /** One call of a storage method, with the arguments the services pass. Enrolment writes a
      whole factor record and is one step. */
  datatype Op =
    | CreateUserOp(user: User)
    | UpdateUserOp(user: User)
    | UpsertIdentityOp(identity: Identity)
    | UpsertCredentialOp(credential: Credential)
    | CreateFlowOp(flow: Flow)
    | CreateSessionOp(session: Session)
    | RevokeOp(id: SessionId)
    | RevokeAllOp(owner: UserId, except: Option<SessionId>)
    | CleanupOp
    | CreateFactorOp(factor: Factor, secret: Secret)
    | EnrolOp(owner: UserId, factorId: FactorId, code: string)
    | CreateCodeOp(recovery: RecoveryCode)
    | ConsumeOp(state: Hash, kind: FlowKind, provider: string)
    | TouchOp(id: SessionId)
    | MarkCounterOp(factorId: FactorId, counter: int)
    | MarkCodeOp(codeId: CodeId)
    | RaiseOp(id: SessionId)

  function Apply(cfg: Config, s: Store, op: Op, env: Env): Store {
    match op
    case CreateUserOp(u) => CreateUser(s, u).0
    case UpdateUserOp(u) => UpdateUser(s, u).0
    case UpsertIdentityOp(i) => UpsertIdentity(s, i)
    case UpsertCredentialOp(c) => UpsertCredential(s, c)
    case CreateFlowOp(f) => CreateFlow(s, f).0
    case CreateSessionOp(x) => CreateSession(s, x).0
    case RevokeOp(id) => RevokeSession(s, id, env.now)
    case RevokeAllOp(owner, except) => RevokeForUser(s, owner, except, env.now)
    case CleanupOp => Cleanup(s, env.now)
    case CreateFactorOp(f, secret) => StoreSecret(CreateFactor(s, f), f.id, secret)
    case EnrolOp(owner, id, code) => VerifyEnrollment(cfg, s, owner, id, code, env).0
    case CreateCodeOp(c) => CreateCode(s, c)
    case ConsumeOp(h, kind, provider) => ConsumeFlow(s, h, kind, provider, env.now).0
    case TouchOp(id) => TouchSession(s, id, env.now, IdleDeadline(cfg, env.now)).0
    case MarkCounterOp(id, counter) => MarkCounter(s, id, counter, env.now).0
    case MarkCodeOp(id) => MarkCode(s, id, env.now).0
    case RaiseOp(id) => SetAssurance(s, id, AAL2, env.now).0
  }

  /** Only step-ups spend codes and counters and raise sessions. */
  predicate ByStepUp(op: Op) {
    op.MarkCounterOp? || op.MarkCodeOp? || op.RaiseOp?
  }

  /** The arguments are as the services draw them: new records have new ids, new sessions start
      at the first level, new codes and factors are unused, new factors not enabled. */
  predicate AsIssued(s: Store, op: Op) {
    match op
    case CreateUserOp(u) => u.id !in s.users
    case CreateFlowOp(f) => f.id !in s.flows && f.consumedAt == None
    case CreateSessionOp(x) => x.id !in s.sessions && x.assurance == AAL1 && x.revokedAt == None
    case CreateFactorOp(f, _) => f.id !in s.factors && f.lastUsedCounter == None && !f.enabled
    case CreateCodeOp(c) => c.id !in s.codes && c.usedAt == None
    case _ => true
  }

  // ----- What every step keeps of second factors and sessions -----

  ghost predicate UsersKeyed(users: map<UserId, User>) { forall id :: id in users ==> users[id].id == id }
  ghost predicate FactorsKeyed(factors: map<FactorId, Factor>) { forall id :: id in factors ==> factors[id].id == id }
  ghost predicate CodesKeyed(codes: map<CodeId, RecoveryCode>) { forall id :: id in codes ==> codes[id].id == id }
  ghost predicate SessionsKeyed(sessions: map<SessionId, Session>, byHash: map<Hash, SessionId>) {
    && (forall id :: id in sessions ==> sessions[id].id == id)
    && (forall h :: h in byHash ==> byHash[h] in sessions && sessions[byHash[h]].tokenHash == h)
  }

  /** Records are kept under their own ids, and token hashes lead to the sessions that bear them. */
  ghost predicate Keyed(s: Store) {
    UsersKeyed(s.users) && FactorsKeyed(s.factors) && CodesKeyed(s.codes) && SessionsKeyed(s.sessions, s.sessionsByHash)
  }

  predicate FactorGrows(f: Factor, g: Factor) {
    && g.userId == f.userId && g.kind == f.kind && g.secretHash == f.secretHash && (f.enabled ==> g.enabled)
    && (f.lastUsedCounter.Some? ==> g.lastUsedCounter.Some? && f.lastUsedCounter.value <= g.lastUsedCounter.value)
  }

  /** Factors stay with their user, kind and secret, an enabled one stays enabled, and their last
      counter never falls. */
  ghost predicate FactorsGrow(a: map<FactorId, Factor>, b: map<FactorId, Factor>) {
    forall id :: id in a ==> id in b && FactorGrows(a[id], b[id])
  }

  predicate CodeGrows(c: RecoveryCode, d: RecoveryCode) {
    d.userId == c.userId && d.codeHash == c.codeHash && (c.usedAt.Some? ==> d.usedAt.Some?)
  }

  /** Recovery codes stay with their user and hash, and a used one stays used. */
  ghost predicate CodesGrow(a: map<CodeId, RecoveryCode>, b: map<CodeId, RecoveryCode>) {
    forall id :: id in a ==> id in b && CodeGrows(a[id], b[id])
  }

  predicate SessionGrows(x: Session, y: Session) {
    && y.userId == x.userId && y.tokenHash == x.tokenHash
    && (x.revokedAt.Some? ==> y == x)
    && (x.assurance == AAL2 ==> y.assurance == AAL2)
  }

  /** Sessions stay with their user, a revoked one stays as it is, a raised one stays raised. */
  ghost predicate SessionsGrow(a: map<SessionId, Session>, b: map<SessionId, Session>) {
    forall id :: id in a ==> id in b && SessionGrows(a[id], b[id])
  }

  ghost predicate Grows(a: Store, b: Store) {
    FactorsGrow(a.factors, b.factors) && CodesGrow(a.codes, b.codes) && SessionsGrow(a.sessions, b.sessions)
  }

  /** A step raises no session and issues sessions at the first level. */
  ghost predicate SameLevels(a: map<SessionId, Session>, b: map<SessionId, Session>) {
    forall id :: id in b && b[id].assurance == AAL2 ==> id in a && a[id].assurance == AAL2
  }

  lemma GrowsThrough(a: Store, b: Store, c: Store)
    requires Grows(a, b) && Grows(b, c)
    ensures Grows(a, c)
  {
  }

  ghost predicate Kept(s: Store, s': Store) {
    Keyed(s') && Grows(s, s') && SameLevels(s.sessions, s'.sessions)
  }

  lemma SameIsKept(s: Store, s': Store)
    requires Keyed(s) && s'.sessions == s.sessions && s'.sessionsByHash == s.sessionsByHash && UsersKeyed(s'.users)
    requires s'.factors == s.factors && s'.codes == s.codes
    ensures Kept(s, s')
  {
  }

  lemma SessionsRewritten(s: Store, s': Store)
    requires Keyed(s) && s'.users == s.users && s'.factors == s.factors && s'.codes == s.codes
    requires SessionsKeyed(s'.sessions, s'.sessionsByHash) && SessionsGrow(s.sessions, s'.sessions)
    requires SameLevels(s.sessions, s'.sessions)
    ensures Kept(s, s')
  {
    hide SessionsKeyed, SessionsGrow, SameLevels;
  }

  lemma KeptItself(s: Store)
    requires Keyed(s)
    ensures Kept(s, s)
  {
  }

  lemma FactorsRewritten(s: Store, s': Store)
    requires Keyed(s) && s'.users == s.users && s'.sessions == s.sessions && s'.sessionsByHash == s.sessionsByHash
    requires s'.codes == s.codes
    requires FactorsKeyed(s'.factors) && FactorsGrow(s.factors, s'.factors)
    ensures Kept(s, s')
  {
    hide FactorsKeyed, FactorsGrow;
  }

  lemma UserKept(s: Store, u: User)
    requires Keyed(s)
    ensures Kept(s, CreateUser(s, u).0) && Kept(s, UpdateUser(s, u).0)
  {
    hide EmailKey, Kept, SessionsKeyed, FactorsKeyed, CodesKeyed;
    if EmailKey(u.email) !in s.usersByEmail {
      SameIsKept(s, CreateUser(s, u).0);
    }
    if u.id in s.users {
      SameIsKept(s, UpdateUser(s, u).0);
    }
    SameIsKept(s, s);
  }

  lemma IdentityKept(s: Store, i: Identity)
    requires Keyed(s)
    ensures Kept(s, UpsertIdentity(s, i))
  {
    hide IdentityKey, Kept, SessionsKeyed, FactorsKeyed, CodesKeyed, UsersKeyed;
    if i.subject != "" {
      SameIsKept(s, UpsertIdentity(s, i));
    } else {
      SameIsKept(s, s);
    }
  }

  lemma CredentialKept(s: Store, c: Credential)
    requires Keyed(s)
    ensures Kept(s, UpsertCredential(s, c))
  {
    hide Kept, SessionsKeyed, FactorsKeyed, CodesKeyed, UsersKeyed;
    SameIsKept(s, UpsertCredential(s, c));
  }

  lemma CreateFlowKept(s: Store, f: Flow)
    requires Keyed(s)
    ensures Kept(s, CreateFlow(s, f).0)
  {
    hide Kept, SessionsKeyed, FactorsKeyed, CodesKeyed, UsersKeyed;
    SameIsKept(s, CreateFlow(s, f).0);
  }

  lemma ConsumeFlowKept(s: Store, h: Hash, kind: FlowKind, provider: string, now: Time)
    requires Keyed(s)
    ensures Kept(s, ConsumeFlow(s, h, kind, provider, now).0)
  {
    hide Kept, SessionsKeyed, FactorsKeyed, CodesKeyed, UsersKeyed, Consumable, FlowByHash;
    if FlowByHash(s, h).Some? && Consumable(FlowByHash(s, h).value, kind, provider, now) {
      var f := FlowByHash(s, h).value;
      SameIsKept(s, s.(flows := s.flows[f.id := f.(consumedAt := Some(now))]));
    } else {
      SameIsKept(s, s);
    }
  }

  lemma CreateSessionKept(s: Store, x: Session)
    requires Keyed(s) && x.id !in s.sessions && x.assurance == AAL1
    ensures Kept(s, CreateSession(s, x).0)
  {
    hide Kept, FactorsKeyed, CodesKeyed, UsersKeyed;
    if x.tokenHash !in s.sessionsByHash {
      SessionsRewritten(s, CreateSession(s, x).0);
    } else {
      SameIsKept(s, s);
    }
  }

  lemma RevokeKept(s: Store, id: SessionId, now: Time)
    requires Keyed(s)
    ensures Kept(s, RevokeSession(s, id, now))
  {
    hide Kept, FactorsKeyed, CodesKeyed, UsersKeyed;
    if Unrevoked(s, id) {
      SessionsRewritten(s, RevokeSession(s, id, now));
    } else {
      SameIsKept(s, s);
    }
  }

  lemma RevokeAllKept(s: Store, owner: UserId, except: Option<SessionId>, now: Time)
    requires Keyed(s)
    ensures Kept(s, RevokeForUser(s, owner, except, now))
  {
    hide Kept, FactorsKeyed, CodesKeyed, UsersKeyed;
    SessionsRewritten(s, RevokeForUser(s, owner, except, now));
  }

  lemma CleanupKept(s: Store, now: Time)
    requires Keyed(s)
    ensures Kept(s, Cleanup(s, now))
  {
    hide Kept, FactorsKeyed, CodesKeyed, UsersKeyed, Expired;
    SessionsRewritten(s, Cleanup(s, now));
  }

  lemma TouchKept(s: Store, id: SessionId, seen: Time, idle: Option<Time>)
    requires Keyed(s)
    ensures Kept(s, TouchSession(s, id, seen, idle).0)
  {
    hide Kept, FactorsKeyed, CodesKeyed, UsersKeyed;
    if Unrevoked(s, id) {
      SessionsRewritten(s, TouchSession(s, id, seen, idle).0);
    } else {
      SameIsKept(s, s);
    }
  }

  lemma CreateFactorKept(s: Store, f: Factor, secret: Secret)
    requires Keyed(s) && f.id !in s.factors
    ensures Kept(s, StoreSecret(CreateFactor(s, f), f.id, secret))
  {
    hide CodesKeyed, UsersKeyed, SessionsKeyed;
  }

  lemma UpdateFactorKept(s: Store, f: Factor)
    requires Keyed(s) && f.id in s.factors && FactorGrows(s.factors[f.id], f)
    ensures Kept(s, UpdateFactor(s, f).0)
  {
    hide Kept, CodesKeyed, UsersKeyed, SessionsKeyed;
    FactorsRewritten(s, UpdateFactor(s, f).0);
  }

  lemma EnrolKept(cfg: Config, s: Store, owner: UserId, id: FactorId, code: string, env: Env)
    requires Keyed(s)
    ensures Kept(s, VerifyEnrollment(cfg, s, owner, id, code, env).0)
  {
    hide Kept, CodesKeyed, UsersKeyed, SessionsKeyed, CodeCounter, UpdateFactor;
    if id in s.factors && s.factors[id].kind == Totp && !s.factors[id].enabled {
      UpdateFactorKept(s, s.factors[id].(enabled := true, lastUsedAt := Some(env.now)));
      SameIsKept(s, s);
    } else {
      SameIsKept(s, s);
    }
  }

  lemma CreateCodeKept(s: Store, c: RecoveryCode)
    requires Keyed(s) && c.id !in s.codes
    ensures Kept(s, CreateCode(s, c))
  {
    hide FactorsKeyed, UsersKeyed, SessionsKeyed;
  }

  lemma MarkCounterKept(s: Store, id: FactorId, counter: int, now: Time)
    requires Keyed(s)
    ensures Kept(s, MarkCounter(s, id, counter, now).0)
  {
    hide Kept, CodesKeyed, UsersKeyed, SessionsKeyed;
    if id in s.factors && !Replayed(s.factors[id], counter) {
      FactorsRewritten(s, MarkCounter(s, id, counter, now).0);
    } else {
      SameIsKept(s, s);
    }
  }

  lemma MarkCodeKept(s: Store, id: CodeId, now: Time)
    requires Keyed(s)
    ensures Kept(s, MarkCode(s, id, now).0)
  {
    hide UsersKeyed, FactorsKeyed, SessionsKeyed;
    if id in s.codes && s.codes[id].usedAt == None {
    }
  }

  /** Raising a session raises no other. */
  ghost predicate OnlyRaises(a: map<SessionId, Session>, b: map<SessionId, Session>, id: SessionId) {
    forall k :: k in b && k != id && b[k].assurance == AAL2 ==> k in a && a[k].assurance == AAL2
  }

  lemma RaiseKept(s: Store, id: SessionId, now: Time)
    requires Keyed(s)
    ensures var (s', y) := SetAssurance(s, id, AAL2, now);
      && Keyed(s') && Grows(s, s') && OnlyRaises(s.sessions, s'.sessions, id)
      && (y == None ==> SameLevels(s.sessions, s'.sessions))
  {
    hide UsersKeyed, FactorsKeyed, CodesKeyed;
    if Unrevoked(s, id) {
    }
  }

  /** An operation keeps second factors and sessions, and but for step-ups the levels. */
  lemma ApplyKeeps(cfg: Config, s: Store, op: Op, env: Env)
    requires Keyed(s) && AsIssued(s, op)
    ensures Keyed(Apply(cfg, s, op, env)) && Grows(s, Apply(cfg, s, op, env))
    ensures !ByStepUp(op) ==> SameLevels(s.sessions, Apply(cfg, s, op, env).sessions)
  {
    hide Keyed, Grows, SameLevels, OnlyRaises, CreateUser, UpdateUser, UpsertIdentity, UpsertCredential, CreateFlow,
      CreateSession, RevokeSession, RevokeForUser, Cleanup, CreateFactor, StoreSecret, VerifyEnrollment, CreateCode,
      ConsumeFlow, TouchSession, MarkCounter, MarkCode, SetAssurance;
    match op
    case CreateUserOp(u) => UserKept(s, u);
    case UpdateUserOp(u) => UserKept(s, u);
    case UpsertIdentityOp(i) => IdentityKept(s, i);
    case UpsertCredentialOp(c) => CredentialKept(s, c);
    case CreateFlowOp(f) => CreateFlowKept(s, f);
    case CreateSessionOp(x) => CreateSessionKept(s, x);
    case RevokeOp(id) => RevokeKept(s, id, env.now);
    case RevokeAllOp(owner, except) => RevokeAllKept(s, owner, except, env.now);
    case CleanupOp => CleanupKept(s, env.now);
    case CreateFactorOp(f, secret) => CreateFactorKept(s, f, secret);
    case EnrolOp(owner, id, code) => EnrolKept(cfg, s, owner, id, code, env);
    case CreateCodeOp(c) => CreateCodeKept(s, c);
    case ConsumeOp(h, kind, provider) => ConsumeFlowKept(s, h, kind, provider, env.now);
    case TouchOp(id) => TouchKept(s, id, env.now, IdleDeadline(cfg, env.now));
    case MarkCounterOp(id, counter) => MarkCounterKept(s, id, counter, env.now);
    case MarkCodeOp(id) => MarkCodeKept(s, id, env.now);
    case RaiseOp(id) => RaiseKept(s, id, env.now);
  }
}

/** Cleanup is invisible: a run and the same run without its `cleanup_expired` calls give every
    other call the same answer, up to the message of an error. */
module CleanupSimulation {
  import opened Prelude
  import opened Permissions
  import opened AuthModels
  import opened AuthStore
  import opened AuthCalls
  import opened AuthRuns
  import opened AuthInvariants
  import opened AuthSafety

  // ----- The relation between a cleaned store and a plain one -----

  /** Equal but for sessions and flows. */
  predicate Alike(c: Store, p: Store) {
    && c.users == p.users && c.usersByEmail == p.usersByEmail && c.identities == p.identities
    && c.credentials == p.credentials && c.passwordOf == p.passwordOf && c.sessionsByHash == p.sessionsByHash
    && c.factors == p.factors && c.factorOrder == p.factorOrder && c.vault == p.vault && c.codes == p.codes
    && c.codeOrder == p.codeOrder
  }

  /** Equal but for the time of revocation; revoked only if the other is revoked or expired. */
  predicate SameSession(x: Session, y: Session, now: Time) {
    && x == y.(revokedAt := x.revokedAt)
    && (x.revokedAt == None ==> y.revokedAt == None)
    && (x.revokedAt.Some? ==> y.revokedAt.Some? || Expired(y, now))
  }

  ghost predicate SessionsMatch(c: map<SessionId, Session>, p: map<SessionId, Session>, now: Time) {
    c.Keys == p.Keys && forall id :: id in c ==> SameSession(c[id], p[id], now)
  }

  /** The cleaned flows are among the plain ones, and the missing ones have expired. */
  ghost predicate FlowsMatch(c: map<FlowId, Flow>, ch: map<Hash, FlowId>, p: map<FlowId, Flow>, ph: map<Hash, FlowId>,
                             now: Time)
  {
    && (forall id :: id in c ==> id in p && c[id] == p[id])
    && (forall h :: h in ch ==> h in ph && ch[h] == ph[h] && ch[h] in c)
    && (forall h :: h in ph && h !in ch ==> ph[h] in p && p[ph[h]].expiresAt <= now)
  }

  ghost predicate Sim(c: Store, p: Store, now: Time) {
    && Alike(c, p)
    && SessionsMatch(c.sessions, p.sessions, now)
    && FlowsMatch(c.flows, c.flowsByHash, p.flows, p.flowsByHash, now)
  }

  /** Equal, or errors of the same class. */
  predicate Agree<T(==)>(a: Res<T>, b: Res<T>) {
    a == b || (a.Err? && b.Err? && SameClass(a.error, b.error))
  }

  lemma SimStarts(cfg: Config, s: Store, now: Time)
    requires Inv(cfg, s)
    ensures Sim(s, s, now)
  {
  }

  lemma SimLasts(c: Store, p: Store, then_: Time, now: Time)
    requires Sim(c, p, then_) && then_ <= now
    ensures Sim(c, p, now)
  {
  }

  lemma UnusedInBoth(c: Store, p: Store, n: New, now: Time)
    requires Sim(c, p, now) && Unused(p, n)
    ensures Unused(c, n)
  {
  }

  lemma SessionsCleaned(c: map<SessionId, Session>, p: map<SessionId, Session>, now: Time)
    requires SessionsMatch(c, p, now)
    ensures SessionsMatch(map id | id in c ::
        if c[id].revokedAt == None && Expired(c[id], now) then c[id].(revokedAt := Some(now)) else c[id], p, now)
  {
  }

  lemma FlowsCleanedMatch(c: map<FlowId, Flow>, ch: map<Hash, FlowId>, p: map<FlowId, Flow>, ph: map<Hash, FlowId>,
                          now: Time)
    requires FlowsMatch(c, ch, p, ph, now) && FlowsIndexed(c, ch)
    ensures FlowsMatch(map id | id in c && now < c[id].expiresAt :: c[id],
                       ch - set id | id in c && c[id].expiresAt <= now :: c[id].stateHash, p, ph, now)
  {
  }

  /** Cleaning one side keeps the relation. */
  lemma CleanupSim(cfg: Config, c: Store, p: Store, now: Time)
    requires Sim(c, p, now) && FlowsIndexed(c.flows, c.flowsByHash)
    ensures Sim(Cleanup(c, now), p, now)
  {
    hide SessionsMatch, FlowsMatch, FlowsIndexed, Expired;
    SessionsCleaned(c.sessions, p.sessions, now);
    FlowsCleanedMatch(c.flows, c.flowsByHash, p.flows, p.flowsByHash, now);
  }

  // ----- Storage operations on users, credentials and factors -----

  lemma CreateUserSim(c: Store, p: Store, u: User, now: Time)
    requires Sim(c, p, now)
    ensures Sim(CreateUser(c, u).0, CreateUser(p, u).0, now) && CreateUser(c, u).1 == CreateUser(p, u).1
  {
    hide SessionsMatch, FlowsMatch, EmailKey;
  }

  lemma UpdateUserSim(c: Store, p: Store, u: User, now: Time)
    requires Sim(c, p, now)
    ensures Sim(UpdateUser(c, u).0, UpdateUser(p, u).0, now) && UpdateUser(c, u).1 == UpdateUser(p, u).1
  {
    hide SessionsMatch, FlowsMatch, EmailKey;
  }

  lemma UpsertSim(c: Store, p: Store, i: Identity, now: Time)
    requires Sim(c, p, now)
    ensures Sim(UpsertIdentity(c, i), UpsertIdentity(p, i), now)
  {
    hide SessionsMatch, FlowsMatch, IdentityKey;
  }

  lemma UpsertCredentialSim(c: Store, p: Store, x: Credential, now: Time)
    requires Sim(c, p, now)
    ensures Sim(UpsertCredential(c, x), UpsertCredential(p, x), now)
  {
    hide SessionsMatch, FlowsMatch;
  }

  lemma FactorWritesSim(c: Store, p: Store, f: Factor, secret: Secret, id: FactorId, counter: int, now: Time)
    requires Sim(c, p, now)
    ensures Sim(StoreSecret(CreateFactor(c, f), f.id, secret), StoreSecret(CreateFactor(p, f), f.id, secret), now)
    ensures Sim(UpdateFactor(c, f).0, UpdateFactor(p, f).0, now) && UpdateFactor(c, f).1 == UpdateFactor(p, f).1
  {
    hide SessionsMatch, FlowsMatch;
  }

  lemma MarkCounterSim(c: Store, p: Store, id: FactorId, counter: int, now: Time)
    requires Sim(c, p, now)
    ensures Sim(MarkCounter(c, id, counter, now).0, MarkCounter(p, id, counter, now).0, now)
    ensures MarkCounter(c, id, counter, now).1 == MarkCounter(p, id, counter, now).1
  {
    hide SessionsMatch, FlowsMatch;
  }

  lemma CreateCodeSim(c: Store, p: Store, x: RecoveryCode, now: Time)
    requires Sim(c, p, now)
    ensures Sim(CreateCode(c, x), CreateCode(p, x), now)
  {
    hide SessionsMatch, FlowsMatch;
  }

  lemma MarkCodeSim(c: Store, p: Store, id: CodeId, now: Time)
    requires Sim(c, p, now)
    ensures Sim(MarkCode(c, id, now).0, MarkCode(p, id, now).0, now) && MarkCode(c, id, now).1 == MarkCode(p, id, now).1
  {
    hide SessionsMatch, FlowsMatch;
  }

  // ----- Flows -----

  lemma FlowAdded(c: map<FlowId, Flow>, ch: map<Hash, FlowId>, p: map<FlowId, Flow>, ph: map<Hash, FlowId>, f: Flow,
                  now: Time)
    requires FlowsMatch(c, ch, p, ph, now) && f.id !in p && f.stateHash !in ph
    ensures FlowsMatch(c[f.id := f], ch[f.stateHash := f.id], p[f.id := f], ph[f.stateHash := f.id], now)
    ensures f.stateHash !in ch
  {
  }

  lemma CreateFlowSim(c: Store, p: Store, f: Flow, now: Time)
    requires Sim(c, p, now) && f.id !in p.flows && f.stateHash !in p.flowsByHash
    ensures Sim(CreateFlow(c, f).0, CreateFlow(p, f).0, now) && CreateFlow(c, f).1 == CreateFlow(p, f).1
  {
    hide SessionsMatch, FlowsMatch;
    FlowAdded(c.flows, c.flowsByHash, p.flows, p.flowsByHash, f, now);
  }

  lemma LookupFlowSim(c: Store, p: Store, h: Hash, now: Time)
    requires Sim(c, p, now)
    ensures var f, g := FlowByHash(c, h), FlowByHash(p, h);
      f == g || (f == None && g.Some? && g.value.expiresAt <= now)
  {
    hide SessionsMatch;
  }

  lemma FlowWritten(c: map<FlowId, Flow>, ch: map<Hash, FlowId>, p: map<FlowId, Flow>, ph: map<Hash, FlowId>, f: Flow,
                    now: Time)
    requires FlowsMatch(c, ch, p, ph, now) && f.id in c && f.expiresAt == c[f.id].expiresAt
    ensures FlowsMatch(c[f.id := f], ch, p[f.id := f], ph, now)
  {
  }

  lemma ConsumeFlowSim(cfg: Config, c: Store, p: Store, h: Hash, kind: FlowKind, provider: string, now: Time)
    requires Sim(c, p, now) && FlowsIndexed(c.flows, c.flowsByHash)
    ensures Sim(ConsumeFlow(c, h, kind, provider, now).0, ConsumeFlow(p, h, kind, provider, now).0, now)
    ensures ConsumeFlow(c, h, kind, provider, now).1 == ConsumeFlow(p, h, kind, provider, now).1
  {
    LookupFlowSim(c, p, h, now);
    if FlowByHash(c, h).Some? {
      var f := FlowByHash(c, h).value;
      FlowWritten(c.flows, c.flowsByHash, p.flows, p.flowsByHash, f.(consumedAt := Some(now)), now);
    }
    hide SessionsMatch, FlowsMatch;
  }

  // ----- Sessions -----

  lemma CreateSessionSim(c: Store, p: Store, x: Session, now: Time)
    requires Sim(c, p, now)
    ensures Sim(CreateSession(c, x).0, CreateSession(p, x).0, now) && CreateSession(c, x).1 == CreateSession(p, x).1
  {
    hide FlowsMatch, Expired;
  }

  function RevokedAt(m: map<SessionId, Session>, id: SessionId, now: Time): map<SessionId, Session> {
    if id in m && m[id].revokedAt == None then m[id := m[id].(revokedAt := Some(now))] else m
  }

  lemma RevokedMatch(c: map<SessionId, Session>, p: map<SessionId, Session>, id: SessionId, now: Time)
    requires SessionsMatch(c, p, now)
    ensures SessionsMatch(RevokedAt(c, id, now), RevokedAt(p, id, now), now)
  {
    hide Expired;
  }

  lemma RevokedFields(s: Store, id: SessionId, now: Time)
    ensures var s' := RevokeSession(s, id, now);
      && Alike(s', s) && s'.sessions == RevokedAt(s.sessions, id, now) && s'.flows == s.flows
      && s'.flowsByHash == s.flowsByHash
  {
    if Unrevoked(s, id) {
    }
  }

  lemma RevokeSim(c: Store, p: Store, id: SessionId, now: Time)
    requires Sim(c, p, now)
    ensures Sim(RevokeSession(c, id, now), RevokeSession(p, id, now), now)
  {
    hide FlowsMatch, SessionsMatch, RevokeSession, RevokedAt;
    RevokedMatch(c.sessions, p.sessions, id, now);
    RevokedFields(c, id, now);
    RevokedFields(p, id, now);
  }

  lemma RevokeForUserSim(c: Store, p: Store, user: UserId, except: Option<SessionId>, now: Time)
    requires Sim(c, p, now)
    ensures Sim(RevokeForUser(c, user, except, now), RevokeForUser(p, user, except, now), now)
  {
    hide FlowsMatch, Expired;
  }

  /** Writing the same session to both sides. */
  lemma SessionWrittenSim(c: Store, p: Store, id: SessionId, x: Session, now: Time)
    requires Sim(c, p, now) && x.revokedAt == None
    ensures Sim(c.(sessions := c.sessions[id := x], sessionsByHash := c.sessionsByHash[x.tokenHash := id]),
                p.(sessions := p.sessions[id := x], sessionsByHash := p.sessionsByHash[x.tokenHash := id]), now)
  {
    hide FlowsMatch, Expired;
  }

  lemma UnrevokedSim(c: Store, p: Store, id: SessionId, now: Time)
    requires Sim(c, p, now) && Unrevoked(c, id)
    ensures id in p.sessions && p.sessions[id] == c.sessions[id]
  {
    hide FlowsMatch, Expired;
  }

  lemma RefreshSim(cfg: Config, c: Store, p: Store, x: Session, now: Time)
    requires Sim(c, p, now) && Unrevoked(c, x.id)
    ensures Sim(Refresh(cfg, c, x, now).0, Refresh(cfg, p, x, now).0, now)
    ensures Refresh(cfg, c, x, now).1 == Refresh(cfg, p, x, now).1
  {
    hide Sim, TouchDue, IdleDeadline;
    UnrevokedSim(c, p, x.id, now);
    SessionWrittenSim(c, p, x.id,
                      c.sessions[x.id].(lastSeenAt := Some(now), idleExpiresAt := IdleDeadline(cfg, now)), now);
  }

  lemma RaiseSim(c: Store, p: Store, id: SessionId, now: Time)
    requires Sim(c, p, now) && Unrevoked(c, id)
    ensures Sim(SetAssurance(c, id, AAL2, now).0, SetAssurance(p, id, AAL2, now).0, now)
    ensures SetAssurance(c, id, AAL2, now).1 == SetAssurance(p, id, AAL2, now).1
  {
    hide Sim;
    UnrevokedSim(c, p, id, now);
    SessionWrittenSim(c, p, id, c.sessions[id].(assurance := AAL2, lastSeenAt := Some(now)), now);
  }

  lemma LookupSessionSim(c: Store, p: Store, h: Hash, now: Time)
    requires Sim(c, p, now)
    ensures var x, y := SessionByHash(c, h), SessionByHash(p, h);
      (x.Some? <==> y.Some?) && (x.Some? ==> SameSession(x.value, y.value, now))
  {
    hide FlowsMatch, Expired, SameSession;
  }

  /** Both sides object alike; without an objection both have found the same session. */
  lemma ObjectionSim(cfg: Config, c: Store, p: Store, h: Hash, permission: string, now: Time)
    requires Sim(c, p, now)
    ensures var x, y := SessionByHash(c, h), SessionByHash(p, h);
      var e, f := SessionObjection(c, x, permission, now), SessionObjection(p, y, permission, now);
      && (e.Some? <==> f.Some?)
      && (e.Some? ==> SameClass(e.value, f.value))
      && (e == None ==> x == y && x.Some? && x.value.revokedAt == None)
  {
    hide SessionByHash, SessionsMatch, FlowsMatch, Allows;
    LookupSessionSim(c, p, h, now);
  }

  lemma VerifySim(cfg: Config, c: Store, p: Store, token: Secret, permission: string, now: Time)
    requires Sim(c, p, now) && Inv(cfg, c)
    ensures Sim(VerifySession(cfg, c, token, permission, now).0, VerifySession(cfg, p, token, permission, now).0, now)
    ensures Agree(VerifySession(cfg, c, token, permission, now).1, VerifySession(cfg, p, token, permission, now).1)
  {
    hide Inv, SessionByHash, SessionObjection, Refresh, SessionsMatch, FlowsMatch;
    var h := HashOf(token);
    ObjectionSim(cfg, c, p, h, permission, now);
    var found := SessionByHash(c, h);
    if SessionObjection(c, found, permission, now) == None {
      var at := At(now);
      Begin(cfg, c, at);
      SessionFound(cfg, c, c, h, at);
      RefreshSim(cfg, c, p, found.value, now);
    }
  }
}

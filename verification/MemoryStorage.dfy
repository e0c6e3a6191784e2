/** The in-memory storage: dictionaries and their secondary indexes, changed in place
    (src/coreline_auth/storage/memory.py). */
module MemoryStorage {
  import opened Prelude
  import opened AuthModels
  import opened AuthStore

  /** The sessions with those in `hit` revoked. */
  ghost function Revoked(items: map<SessionId, Session>, hit: set<SessionId>, now: Time): map<SessionId, Session> {
    map id | id in items :: if id in hit then items[id].(revokedAt := Some(now)) else items[id]
  }

  ghost function SessionsToRevoke(items: map<SessionId, Session>, user: UserId, except: Option<SessionId>)
    : set<SessionId>
  {
    set id | id in items && items[id].userId == user && items[id].revokedAt == None && except != Some(id)
  }

  ghost function ExpiredSessions(items: map<SessionId, Session>, now: Time): set<SessionId> {
    set id | id in items && items[id].revokedAt == None
             && (items[id].expiresAt <= now
                 || (items[id].idleExpiresAt.Some? && items[id].idleExpiresAt.value <= now))
  }

  /** Exactly the sessions in `hit` carry the time of their revocation; no other record differs. */
  ghost predicate ExactlyRevoked(before: map<SessionId, Session>, after: map<SessionId, Session>, hit: set<SessionId>,
                                 now: Time)
  {
    && after.Keys == before.Keys
    && forall id :: id in before ==>
         after[id] == if id in hit then before[id].(revokedAt := Some(now)) else before[id]
  }

  ghost function ExpiredFlows(items: map<FlowId, Flow>, now: Time): set<FlowId> {
    set id | id in items && items[id].expiresAt <= now
  }

  ghost function Without(items: map<FlowId, Flow>, hit: set<FlowId>): map<FlowId, Flow> {
    items - hit
  }

  ghost function StateHashes(items: map<FlowId, Flow>, hit: set<FlowId>): set<Hash> {
    set id | id in hit && id in items :: items[id].stateHash
  }

  lemma RevokedMore(items: map<SessionId, Session>, hit: set<SessionId>, id: SessionId, now: Time)
    requires id in items
    ensures Revoked(items, hit + {id}, now) == Revoked(items, hit, now)[id := items[id].(revokedAt := Some(now))]
  {
  }

  /** Visiting one more entry of a dictionary. */
  lemma Visited(targets: set<nat>, todo: set<nat>, id: nat)
    requires id in todo
    ensures targets - (todo - {id}) == if id in targets then (targets - todo) + {id} else targets - todo
    ensures |targets - (todo - {id})| == |targets - todo| + if id in targets then 1 else 0
  {
    assert targets - (todo - {id}) == if id in targets then (targets - todo) + {id} else targets - todo;
  }

  lemma Unvisited(targets: set<nat>, todo: set<nat>)
    ensures targets <= todo ==> targets - todo == {}
  {
  }

  lemma ToRevoke(items: map<SessionId, Session>, user: UserId, except: Option<SessionId>, id: SessionId)
    requires id in items
    ensures id in SessionsToRevoke(items, user, except) <==> RevokedByUser(items[id], id, user, except)
  {
  }

  lemma ToExpire(items: map<SessionId, Session>, now: Time, id: SessionId)
    requires id in items
    ensures id in ExpiredSessions(items, now) <==> items[id].revokedAt == None && Expired(items[id], now)
  {
  }

  lemma RevokedRecords(items: map<SessionId, Session>, hit: set<SessionId>, now: Time)
    ensures ExactlyRevoked(items, Revoked(items, hit, now), hit, now)
  {
  }

  lemma RevokedSets(s: Store, user: UserId, except: Option<SessionId>, now: Time)
    ensures RevokeForUser(s, user, except, now)
      == s.(sessions := Revoked(s.sessions, SessionsToRevoke(s.sessions, user, except), now))
    ensures Cleanup(s, now).sessions == Revoked(s.sessions, ExpiredSessions(s.sessions, now), now)
    ensures Revoked(s.sessions, {}, now) == s.sessions
    ensures SessionsToRevoke(s.sessions, user, except) <= s.sessions.Keys
    ensures ExpiredSessions(s.sessions, now) <= s.sessions.Keys
  {
  }

  lemma ForgottenSets(s: Store, now: Time)
    ensures Cleanup(s, now).flows == Without(s.flows, ExpiredFlows(s.flows, now))
    ensures Cleanup(s, now).flowsByHash == s.flowsByHash - StateHashes(s.flows, ExpiredFlows(s.flows, now))
    ensures Without(s.flows, {}) == s.flows && s.flowsByHash - StateHashes(s.flows, {}) == s.flowsByHash
    ensures ExpiredFlows(s.flows, now) <= s.flows.Keys
  {
    hide Expired;
  }

  lemma ForgottenMore(items: map<FlowId, Flow>, hit: set<FlowId>, id: FlowId, now: Time)
    requires id in items
    ensures id in ExpiredFlows(items, now) <==> items[id].expiresAt <= now
    ensures Without(items, hit + {id}) == Without(items, hit) - {id}
    ensures StateHashes(items, hit + {id}) == StateHashes(items, hit) + {items[id].stateHash}
  {
  }

  lemma FactorListed(s: Store, order: seq<FactorId>, i: nat, user: UserId, r: seq<Factor>)
    requires i < |order|
    ensures r + FactorsIn(s, order[i..], user)
      == (if order[i] in s.factors && s.factors[order[i]].userId == user then r + [s.factors[order[i]]] else r)
       + FactorsIn(s, order[i + 1..], user)
  {
    assert order[i..][1..] == order[i + 1..];
  }

  lemma CodeListed(s: Store, order: seq<CodeId>, i: nat, user: UserId, r: seq<RecoveryCode>)
    requires i < |order|
    ensures r + CodesIn(s, order[i..], user)
      == (if order[i] in s.codes && s.codes[order[i]].userId == user then r + [s.codes[order[i]]] else r)
       + CodesIn(s, order[i + 1..], user)
  {
    assert order[i..][1..] == order[i + 1..];
  }

  lemma NoneListed(s: Store, user: UserId)
    ensures FactorsIn(s, [], user) == [] && CodesIn(s, [], user) == []
  {
  }

  lemma LessOneMore(m: map<Hash, FlowId>, gone: set<Hash>, h: Hash)
    ensures (m - gone) - {h} == m - (gone + {h})
  {
  }

  class MemoryAuthStorage {
    var users: map<UserId, User>
    var usersByEmail: map<string, UserId>
    var identities: map<string, Identity>
    var credentials: map<CredentialId, Credential>
    var passwordOf: map<UserId, CredentialId>
    var flows: map<FlowId, Flow>
    var flowsByHash: map<Hash, FlowId>
    var sessions: map<SessionId, Session>
    var sessionsByHash: map<Hash, SessionId>
    var factors: map<FactorId, Factor>
    var factorOrder: seq<FactorId>
    var vault: map<FactorId, Secret>
    var codes: map<CodeId, RecoveryCode>
    var codeOrder: seq<CodeId>

    ghost function State(): Store
      reads this
    {
      Store(users, usersByEmail, identities, credentials, passwordOf, flows, flowsByHash, sessions, sessionsByHash,
            factors, factorOrder, vault, codes, codeOrder)
    }

    constructor ()
      ensures State() == EMPTY
    {
      users, usersByEmail, identities := map[], map[], map[];
      credentials, passwordOf := map[], map[];
      flows, flowsByHash := map[], map[];
      sessions, sessionsByHash := map[], map[];
      factors, factorOrder, vault := map[], [], map[];
      codes, codeOrder := map[], [];
    }

    // ----- Users, identities, credentials -----

    method CreateUser(u: User) returns (r: Res<User>)
      modifies this
      ensures (State(), r) == AuthStore.CreateUser(old(State()), u)
    {
      var key := EmailKey(u.email);
      if key in usersByEmail {
        return Err(ValidationError(EmailTaken));
      }
      users := users[u.id := u];
      usersByEmail := usersByEmail[key := u.id];
      r := Ok(u);
    }

    method GetUser(id: UserId) returns (r: Option<User>)
      ensures r == Lookup(State().users, id)
    {
      r := if id in users then Some(users[id]) else None;
    }

    method GetUserByEmail(email: string) returns (r: Option<User>)
      ensures r == UserByEmail(State(), email)
    {
      var key := EmailKey(email);
      if key !in usersByEmail {
        return None;
      }
      r := GetUser(usersByEmail[key]);
    }

    method UpdateUser(u: User) returns (r: Res<()>)
      modifies this
      ensures (State(), r) == AuthStore.UpdateUser(old(State()), u)
    {
      if u.id !in users {
        return Err(ValidationError(UserMissing));
      }
      users := users[u.id := u];
      usersByEmail := usersByEmail[EmailKey(u.email) := u.id];
      r := Ok(());
    }

    method UpsertIdentity(i: Identity)
      modifies this
      ensures State() == AuthStore.UpsertIdentity(old(State()), i)
    {
      if i.subject != "" {
        identities := identities[IdentityKey(i.provider, i.subject) := i];
      }
    }

    method GetIdentity(provider: string, subject: string) returns (r: Option<Identity>)
      ensures r == AuthStore.GetIdentity(State(), provider, subject)
    {
      var key := IdentityKey(provider, subject);
      r := if key in identities then Some(identities[key]) else None;
    }

    method UpsertCredential(c: Credential)
      modifies this
      ensures State() == AuthStore.UpsertCredential(old(State()), c)
    {
      credentials := credentials[c.id := c];
      if c.hash.Some? && c.revokedAt == None {
        passwordOf := passwordOf[c.userId := c.id];
      }
    }

    method GetPasswordCredential(user: UserId) returns (r: Option<Credential>)
      ensures r == PasswordCredential(State(), user)
    {
      if user !in passwordOf {
        return None;
      }
      r := if passwordOf[user] in credentials then Some(credentials[passwordOf[user]]) else None;
    }

    // ----- Login flows -----

    method CreateLoginFlow(f: Flow) returns (r: Res<Flow>)
      modifies this
      ensures (State(), r) == CreateFlow(old(State()), f)
    {
      if f.stateHash in flowsByHash {
        return Err(ValidationError(StateTaken));
      }
      flows := flows[f.id := f];
      flowsByHash := flowsByHash[f.stateHash := f.id];
      r := Ok(f);
    }

    method GetLoginFlowByStateHash(h: Hash) returns (r: Option<Flow>)
      ensures r == FlowByHash(State(), h)
    {
      if h !in flowsByHash {
        return None;
      }
      r := if flowsByHash[h] in flows then Some(flows[flowsByHash[h]]) else None;
    }

    /** Without a provider the flow's own will do. */
    method ConsumeLoginFlowByStateHash(h: Hash, kind: FlowKind, provider: Option<string>, now: Time)
      returns (r: Option<Flow>)
      modifies this
      ensures provider.Some? ==> (State(), r) == ConsumeFlow(old(State()), h, kind, provider.value, now)
      ensures provider == None && FlowByHash(old(State()), h) == None ==> (State(), r) == (old(State()), None)
      ensures provider == None && FlowByHash(old(State()), h).Some? ==>
        (State(), r) == ConsumeFlow(old(State()), h, kind, FlowByHash(old(State()), h).value.provider, now)
    {
      var found := GetLoginFlowByStateHash(h);
      if found == None || found.value.kind != kind {
        return None;
      }
      if provider.Some? && found.value.provider != provider.value {
        return None;
      }
      if found.value.consumedAt.Some? || found.value.expiresAt <= now {
        return None;
      }
      var consumed := found.value.(consumedAt := Some(now));
      flows := flows[found.value.id := consumed];
      r := Some(consumed);
    }

    // ----- Sessions -----

    method CreateSession(x: Session) returns (r: Res<Session>)
      modifies this
      ensures (State(), r) == AuthStore.CreateSession(old(State()), x)
    {
      if x.tokenHash in sessionsByHash {
        return Err(ValidationError(TokenTaken));
      }
      sessions := sessions[x.id := x];
      sessionsByHash := sessionsByHash[x.tokenHash := x.id];
      r := Ok(x);
    }

    method GetSessionByTokenHash(h: Hash) returns (r: Option<Session>)
      ensures r == SessionByHash(State(), h)
    {
      if h !in sessionsByHash {
        return None;
      }
      r := if sessionsByHash[h] in sessions then Some(sessions[sessionsByHash[h]]) else None;
    }

    method TouchSession(id: SessionId, seen: Time, idle: Option<Time>) returns (r: Option<Session>)
      modifies this
      ensures (State(), r) == AuthStore.TouchSession(old(State()), id, seen, idle)
    {
      if id !in sessions || sessions[id].revokedAt.Some? {
        return None;
      }
      var updated := sessions[id].(lastSeenAt := Some(seen), idleExpiresAt := idle);
      sessions := sessions[id := updated];
      sessionsByHash := sessionsByHash[updated.tokenHash := id];
      r := Some(updated);
    }

    method SetSessionAssuranceLevel(id: SessionId, level: Assurance, seen: Time) returns (r: Option<Session>)
      modifies this
      ensures (State(), r) == SetAssurance(old(State()), id, level, seen)
    {
      if id !in sessions || sessions[id].revokedAt.Some? {
        return None;
      }
      var updated := sessions[id].(assurance := level, lastSeenAt := Some(seen));
      sessions := sessions[id := updated];
      sessionsByHash := sessionsByHash[updated.tokenHash := id];
      r := Some(updated);
    }

    method RevokeSession(id: SessionId, now: Time)
      modifies this
      ensures State() == AuthStore.RevokeSession(old(State()), id, now)
    {
      if id in sessions && sessions[id].revokedAt == None {
        sessions := sessions[id := sessions[id].(revokedAt := Some(now))];
      }
    }

    /** Visits the sessions in any order; the answer counts the sessions revoked. */
    method RevokeSessionsForUser(user: UserId, except: Option<SessionId>, now: Time) returns (revoked: nat)
      modifies this`sessions
      ensures State() == RevokeForUser(old(State()), user, except, now)
      ensures ExactlyRevoked(old(sessions), sessions, SessionsToRevoke(old(sessions), user, except), now)
      ensures revoked == |SessionsToRevoke(old(sessions), user, except)|
    {
      hide Revoked, RevokeForUser, SessionsToRevoke;
      RevokedSets(State(), user, except, now);
      ghost var targets := SessionsToRevoke(sessions, user, except);
      var items := sessions;
      var todo := items.Keys;
      revoked := 0;
      Unvisited(targets, todo);
      while todo != {}
        invariant todo <= items.Keys && sessions == Revoked(items, targets - todo, now) && revoked == |targets - todo|
      {
        var id :| id in todo;
        Visited(targets, todo, id);
        ToRevoke(items, user, except, id);
        RevokedMore(items, targets - todo, id, now);
        todo := todo - {id};
        if !(items[id].userId != user || items[id].revokedAt.Some? || Some(id) == except) {
          sessions := sessions[id := items[id].(revokedAt := Some(now))];
          revoked := revoked + 1;
        }
      }
      assert targets - todo == targets;
      RevokedRecords(items, targets, now);
    }

    /** The first loop of `cleanup_expired`. */
    method RevokeExpired(now: Time) returns (expired: nat)
      modifies this`sessions
      ensures sessions == Cleanup(old(State()), now).sessions
      ensures ExactlyRevoked(old(sessions), sessions, ExpiredSessions(old(sessions), now), now)
      ensures expired == |ExpiredSessions(old(sessions), now)|
    {
      hide Revoked, Cleanup, ExpiredSessions, Expired;
      RevokedSets(State(), 0, None, now);
      ghost var targets := ExpiredSessions(sessions, now);
      var items := sessions;
      var todo := items.Keys;
      expired := 0;
      Unvisited(targets, todo);
      while todo != {}
        invariant todo <= items.Keys && sessions == Revoked(items, targets - todo, now) && expired == |targets - todo|
      {
        var id :| id in todo;
        Visited(targets, todo, id);
        ToExpire(items, now, id);
        RevokedMore(items, targets - todo, id, now);
        todo := todo - {id};
        if items[id].revokedAt == None && Expired(items[id], now) {
          sessions := sessions[id := items[id].(revokedAt := Some(now))];
          expired := expired + 1;
        }
      }
      assert targets - todo == targets;
      RevokedRecords(items, targets, now);
    }

    /** The second loop of `cleanup_expired`. */
    method ForgetExpired(now: Time) returns (expired: nat)
      modifies this`flows, this`flowsByHash
      ensures flows == Cleanup(old(State()), now).flows && flowsByHash == Cleanup(old(State()), now).flowsByHash
      ensures expired == |ExpiredFlows(old(flows), now)|
    {
      hide Cleanup, ExpiredFlows, StateHashes, Without;
      ForgottenSets(State(), now);
      ghost var targets := ExpiredFlows(flows, now);
      var items := flows;
      var todo := items.Keys;
      expired := 0;
      Unvisited(targets, todo);
      while todo != {}
        invariant todo <= items.Keys && expired == |targets - todo|
        invariant flows == Without(items, targets - todo)
        invariant flowsByHash == old(flowsByHash) - StateHashes(items, targets - todo)
      {
        var id :| id in todo;
        Visited(targets, todo, id);
        ForgottenMore(items, targets - todo, id, now);
        LessOneMore(old(flowsByHash), StateHashes(items, targets - todo), items[id].stateHash);
        todo := todo - {id};
        if items[id].expiresAt <= now {
          flows := flows - {id};
          flowsByHash := flowsByHash - {items[id].stateHash};
          expired := expired + 1;
        }
      }
      assert targets - todo == targets;
    }

    method CleanupExpired(now: Time) returns (expiredSessions: nat, expiredFlows: nat)
      modifies this
      ensures State() == Cleanup(old(State()), now)
      ensures ExactlyRevoked(old(sessions), sessions, ExpiredSessions(old(sessions), now), now)
      ensures flows == old(flows) - (set id | id in old(flows) && old(flows)[id].expiresAt <= now)
      ensures expiredSessions == |ExpiredSessions(old(sessions), now)|
      ensures expiredFlows == |ExpiredFlows(old(flows), now)|
    {
      expiredSessions := RevokeExpired(now);
      expiredFlows := ForgetExpired(now);
    }

    // ----- Second factors -----

    method CreateMfaFactor(f: Factor)
      modifies this
      ensures State() == CreateFactor(old(State()), f)
    {
      if f.id !in factors {
        factorOrder := factorOrder + [f.id];
      }
      factors := factors[f.id := f];
    }

    method GetMfaFactor(id: FactorId) returns (r: Option<Factor>)
      ensures r == Lookup(State().factors, id)
    {
      r := if id in factors then Some(factors[id]) else None;
    }

    method ListMfaFactors(user: UserId) returns (r: seq<Factor>)
      ensures r == FactorsOf(State(), user)
    {
      hide FactorsIn;
      r := [];
      ghost var s := State();
      NoneListed(s, user);
      for i := 0 to |factorOrder|
        invariant r + FactorsIn(s, factorOrder[i..], user) == FactorsIn(s, factorOrder, user)
      {
        FactorListed(s, factorOrder, i, user, r);
        if factorOrder[i] in factors && factors[factorOrder[i]].userId == user {
          r := r + [factors[factorOrder[i]]];
        }
      }
      assert factorOrder[|factorOrder|..] == [];
    }

    method UpdateMfaFactor(f: Factor) returns (r: Res<()>)
      modifies this
      ensures (State(), r) == UpdateFactor(old(State()), f)
    {
      if f.id !in factors {
        return Err(ValidationError(FactorMissing));
      }
      factors := factors[f.id := f];
      r := Ok(());
    }

    method MarkMfaFactorCounterUsed(id: FactorId, counter: int, now: Time) returns (r: Option<Factor>)
      modifies this
      ensures (State(), r) == MarkCounter(old(State()), id, counter, now)
    {
      if id !in factors {
        return None;
      }
      var f := factors[id];
      if f.lastUsedCounter.Some? && counter <= f.lastUsedCounter.value {
        return None;
      }
      var updated := f.(lastUsedAt := Some(now), lastUsedCounter := Some(counter));
      factors := factors[id := updated];
      r := Some(updated);
    }

    method StoreTotpSecret(id: FactorId, secret: Secret)
      modifies this
      ensures State() == StoreSecret(old(State()), id, secret)
    {
      vault := vault[id := secret];
    }

    method LoadTotpSecret(id: FactorId) returns (r: Option<Secret>)
      ensures r == Lookup(State().vault, id)
    {
      r := if id in vault then Some(vault[id]) else None;
    }

    method CreateRecoveryCode(c: RecoveryCode)
      modifies this
      ensures State() == CreateCode(old(State()), c)
    {
      if c.id !in codes {
        codeOrder := codeOrder + [c.id];
      }
      codes := codes[c.id := c];
    }

    method ListRecoveryCodes(user: UserId) returns (r: seq<RecoveryCode>)
      ensures r == CodesOf(State(), user)
    {
      hide CodesIn;
      r := [];
      ghost var s := State();
      NoneListed(s, user);
      for i := 0 to |codeOrder|
        invariant r + CodesIn(s, codeOrder[i..], user) == CodesIn(s, codeOrder, user)
      {
        CodeListed(s, codeOrder, i, user, r);
        if codeOrder[i] in codes && codes[codeOrder[i]].userId == user {
          r := r + [codes[codeOrder[i]]];
        }
      }
      assert codeOrder[|codeOrder|..] == [];
    }

    method MarkRecoveryCodeUsed(id: CodeId, now: Time) returns (r: Res<()>)
      modifies this
      ensures (State(), r) == MarkCode(old(State()), id, now)
    {
      if id !in codes {
        return Err(ValidationError(InvalidCode));
      }
      if codes[id].usedAt.Some? {
        return Err(ValidationError(CodeUsed));
      }
      codes := codes[id := codes[id].(usedAt := Some(now))];
      r := Ok(());
    }
  }
}

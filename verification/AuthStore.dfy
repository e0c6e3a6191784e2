/** What each operation of the in-memory storage does to its maps
    (src/coreline_auth/storage/memory.py). */
module AuthStore {
  import opened Prelude
  import opened Text
  import opened AuthModels

  /** The storage and, beside it, the secrets of the development vault. Dictionaries whose
      order the service observes carry it explicitly. */
  datatype Store = Store(
    users: map<UserId, User>, usersByEmail: map<string, UserId>,
    identities: map<string, Identity>,
    credentials: map<CredentialId, Credential>, passwordOf: map<UserId, CredentialId>,
    flows: map<FlowId, Flow>, flowsByHash: map<Hash, FlowId>,
    sessions: map<SessionId, Session>, sessionsByHash: map<Hash, SessionId>,
    factors: map<FactorId, Factor>, factorOrder: seq<FactorId>, vault: map<FactorId, Secret>,
    codes: map<CodeId, RecoveryCode>, codeOrder: seq<CodeId>)

  const EMPTY := Store(map[], map[], map[], map[], map[], map[], map[], map[], map[], map[], [], map[], map[], [])

  function Lookup<K, V>(m: map<K, V>, k: K): Option<V> {
    if k in m then Some(m[k]) else None
  }

  function Via<K, I, V>(index: map<K, I>, m: map<I, V>, k: K): Option<V> {
    if k in index then Lookup(m, index[k]) else None
  }

  /** `_email_key`. */
  function EmailKey(email: string): string {
    Lower(Strip(email))
  }

  // ----- Users, identities, credentials -----

  function CreateUser(s: Store, u: User): (Store, Res<User>) {
    if EmailKey(u.email) in s.usersByEmail then (s, Err(ValidationError(EmailTaken)))
    else (s.(users := s.users[u.id := u], usersByEmail := s.usersByEmail[EmailKey(u.email) := u.id]), Ok(u))
  }

  function UserByEmail(s: Store, email: string): Option<User> {
    Via(s.usersByEmail, s.users, EmailKey(email))
  }

  function UpdateUser(s: Store, u: User): (Store, Res<()>) {
    if u.id !in s.users then (s, Err(ValidationError(UserMissing)))
    else (s.(users := s.users[u.id := u], usersByEmail := s.usersByEmail[EmailKey(u.email) := u.id]), Ok(()))
  }

  /** The text under which an identity is kept. */
  function IdentityKey(provider: string, subject: string): string {
    provider + ":" + subject
  }

  function UpsertIdentity(s: Store, i: Identity): Store {
    if i.subject == "" then s
    else s.(identities := s.identities[IdentityKey(i.provider, i.subject) := i])
  }

  function GetIdentity(s: Store, provider: string, subject: string): Option<Identity> {
    Lookup(s.identities, IdentityKey(provider, subject))
  }

  function UpsertCredential(s: Store, c: Credential): Store {
    s.(credentials := s.credentials[c.id := c],
       passwordOf := if c.hash.Some? && c.revokedAt == None then s.passwordOf[c.userId := c.id] else s.passwordOf)
  }

  function PasswordCredential(s: Store, user: UserId): Option<Credential> {
    Via(s.passwordOf, s.credentials, user)
  }

  // ----- Login flows -----

  function CreateFlow(s: Store, f: Flow): (Store, Res<Flow>) {
    if f.stateHash in s.flowsByHash then (s, Err(ValidationError(StateTaken)))
    else (s.(flows := s.flows[f.id := f], flowsByHash := s.flowsByHash[f.stateHash := f.id]), Ok(f))
  }

  function FlowByHash(s: Store, h: Hash): Option<Flow> {
    Via(s.flowsByHash, s.flows, h)
  }

  predicate Consumable(f: Flow, kind: FlowKind, provider: string, now: Time) {
    f.kind == kind && f.provider == provider && f.consumedAt == None && now < f.expiresAt
  }

  /** `consume_login_flow_by_state_hash`: one guarded step. */
  function ConsumeFlow(s: Store, h: Hash, kind: FlowKind, provider: string, now: Time): (Store, Option<Flow>) {
    match FlowByHash(s, h)
    case None => (s, None)
    case Some(f) =>
      if !Consumable(f, kind, provider, now) then (s, None)
      else
        var consumed := f.(consumedAt := Some(now));
        (s.(flows := s.flows[f.id := consumed]), Some(consumed))
  }

  // ----- Sessions -----

  function CreateSession(s: Store, x: Session): (Store, Res<Session>) {
    if x.tokenHash in s.sessionsByHash then (s, Err(ValidationError(TokenTaken)))
    else (s.(sessions := s.sessions[x.id := x], sessionsByHash := s.sessionsByHash[x.tokenHash := x.id]), Ok(x))
  }

  function SessionByHash(s: Store, h: Hash): Option<Session> {
    Via(s.sessionsByHash, s.sessions, h)
  }

  predicate Unrevoked(s: Store, id: SessionId) {
    id in s.sessions && s.sessions[id].revokedAt == None
  }

  function TouchSession(s: Store, id: SessionId, seen: Time, idle: Option<Time>): (Store, Option<Session>) {
    if !Unrevoked(s, id) then (s, None)
    else
      var updated := s.sessions[id].(lastSeenAt := Some(seen), idleExpiresAt := idle);
      (s.(sessions := s.sessions[id := updated], sessionsByHash := s.sessionsByHash[updated.tokenHash := id]),
       Some(updated))
  }

  function SetAssurance(s: Store, id: SessionId, level: Assurance, seen: Time): (Store, Option<Session>) {
    if !Unrevoked(s, id) then (s, None)
    else
      var updated := s.sessions[id].(assurance := level, lastSeenAt := Some(seen));
      (s.(sessions := s.sessions[id := updated], sessionsByHash := s.sessionsByHash[updated.tokenHash := id]),
       Some(updated))
  }

  function RevokeSession(s: Store, id: SessionId, now: Time): Store {
    if Unrevoked(s, id) then s.(sessions := s.sessions[id := s.sessions[id].(revokedAt := Some(now))]) else s
  }

  predicate RevokedByUser(x: Session, id: SessionId, user: UserId, except: Option<SessionId>) {
    x.userId == user && x.revokedAt == None && Some(id) != except
  }

  function RevokeForUser(s: Store, user: UserId, except: Option<SessionId>, now: Time): Store {
    s.(sessions := map id | id in s.sessions ::
         if RevokedByUser(s.sessions[id], id, user, except) then s.sessions[id].(revokedAt := Some(now))
         else s.sessions[id])
  }

  /** `cleanup_expired`: revokes expired sessions, forgets expired flows. */
  function Cleanup(s: Store, now: Time): Store {
    s.(sessions := map id | id in s.sessions ::
         if s.sessions[id].revokedAt == None && Expired(s.sessions[id], now) then
           s.sessions[id].(revokedAt := Some(now)) else s.sessions[id],
       flows := map id | id in s.flows && now < s.flows[id].expiresAt :: s.flows[id],
       flowsByHash := s.flowsByHash - set id | id in s.flows && s.flows[id].expiresAt <= now :: s.flows[id].stateHash)
  }

  // ----- Second factors -----

  function CreateFactor(s: Store, f: Factor): Store {
    s.(factors := s.factors[f.id := f],
       factorOrder := if f.id in s.factors then s.factorOrder else s.factorOrder + [f.id])
  }

  function FactorsIn(s: Store, order: seq<FactorId>, user: UserId): seq<Factor> {
    if order == [] then []
    else
      (if order[0] in s.factors && s.factors[order[0]].userId == user then [s.factors[order[0]]] else [])
      + FactorsIn(s, order[1..], user)
  }

  /** `list_mfa_factors`, in insertion order. */
  function FactorsOf(s: Store, user: UserId): seq<Factor> {
    FactorsIn(s, s.factorOrder, user)
  }

  function UpdateFactor(s: Store, f: Factor): (Store, Res<()>) {
    if f.id !in s.factors then (s, Err(ValidationError(FactorMissing)))
    else (s.(factors := s.factors[f.id := f]), Ok(()))
  }

  predicate Replayed(f: Factor, counter: int) {
    f.lastUsedCounter.Some? && counter <= f.lastUsedCounter.value
  }

  /** `mark_mfa_factor_counter_used`: one guarded step. */
  function MarkCounter(s: Store, id: FactorId, counter: int, now: Time): (Store, Option<Factor>) {
    if id !in s.factors || Replayed(s.factors[id], counter) then (s, None)
    else
      var updated := s.factors[id].(lastUsedAt := Some(now), lastUsedCounter := Some(counter));
      (s.(factors := s.factors[id := updated]), Some(updated))
  }

  function StoreSecret(s: Store, id: FactorId, secret: Secret): Store {
    s.(vault := s.vault[id := secret])
  }

  function CreateCode(s: Store, c: RecoveryCode): Store {
    s.(codes := s.codes[c.id := c], codeOrder := if c.id in s.codes then s.codeOrder else s.codeOrder + [c.id])
  }

  function CodesIn(s: Store, order: seq<CodeId>, user: UserId): seq<RecoveryCode> {
    if order == [] then []
    else
      (if order[0] in s.codes && s.codes[order[0]].userId == user then [s.codes[order[0]]] else [])
      + CodesIn(s, order[1..], user)
  }

  function CodesOf(s: Store, user: UserId): seq<RecoveryCode> {
    CodesIn(s, s.codeOrder, user)
  }

  /** `mark_recovery_code_used`: one guarded step. */
  function MarkCode(s: Store, id: CodeId, now: Time): (Store, Res<()>) {
    if id !in s.codes then (s, Err(ValidationError(InvalidCode)))
    else if s.codes[id].usedAt.Some? then (s, Err(ValidationError(CodeUsed)))
    else (s.(codes := s.codes[id := s.codes[id].(usedAt := Some(now))]), Ok(()))
  }
}

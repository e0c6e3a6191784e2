/** Any number of clients consuming one-time flows, interleaved storage call by storage call with
    each other and with everything else the services do. */
module FlowProtocol {
  import opened Prelude
  import opened Permissions
  import opened AuthModels
  import opened AuthStore
  import opened AuthCalls
  import opened AuthInvariants
  import S = StorageOps

  type Client = nat

  /** A session issued for a magic link, with the place of the consumed flow in the log. */
  datatype Link = Link(session: SessionId, at: nat)

  /** Where a client stands between two storage calls. */
  datatype Pc =
    | Idle
    | Open(kind: FlowKind, token: Secret)
    | Opened(at: nat)
    | Creating(at: nat, email: string)
    | Linking(at: nat, user: User)
    | Issuing(at: nat, user: User)
    | Recording(user: User, session: Session)
    | LoggedIn(session: Session)
    | Consumed(at: nat)
    | OpenState(provider: string, state: Secret, nonce: Option<Secret>)
    | StateRead(provider: string, state: Secret, nonce: Option<Secret>, read: Flow)
    | StateUsed(provider: string, state: Secret, nonce: Option<Secret>, flow: Flow)
    | Refused

  /** `created` holds every flow ever created, under its state hash. */
  datatype Sys = Sys(store: Store, clients: map<Client, Pc>, created: map<Hash, Flow>, consumed: seq<Flow>,
                     links: seq<Link>)

  function PcOf(y: Sys, c: Client): Pc {
    if c in y.clients then y.clients[c] else Idle
  }

  // ----- The steps of a client -----

  datatype Effect = Effect(store: Store, pc: Pc, used: Option<Flow>, issued: Option<Session>)

  /** The consuming step of every flow but social ones; a magic link goes on to its login. */
  function OpenStep(s: Store, kind: FlowKind, token: Secret, consumed: nat, now: Time): Effect {
    var (s1, f) := ConsumeFlow(s, HashOf(token), kind, "email", now);
    match f
    case None => Effect(s1, Refused, None, None)
    case Some(flow) => Effect(s1, if kind == MagicLink then Opened(consumed) else Consumed(consumed), f, None)
  }

  function FindUser(s: Store, at: nat, email: Option<string>): Pc {
    if email == None || email == Some("") then Refused
    else
      match UserByEmail(s, email.value)
      case Some(u) => Issuing(at, u)
      case None => Creating(at, email.value)
  }

  function CreateStep(cfg: Config, s: Store, at: nat, email: string, env: Env): Effect {
    match cfg.normalize(email)
    case None => Effect(s, Refused, None, None)
    case Some(normal) =>
      if cfg.profile == SingleOwner && !IsOwnerEmail(cfg, normal) then Effect(s, Refused, None, None)
      else
        var u := NewUser(cfg, normal, if cfg.profile == SingleOwner then Owner else Role.User, true, env);
        var (s1, created) := CreateUser(s, u);
        Effect(s1, if created.Err? then Refused else Linking(at, u), None, None)
  }

  function IssueStep(cfg: Config, s: Store, at: nat, u: User, env: Env): Effect {
    if ProfileObjection(cfg, u).Some? then Effect(s, Refused, None, None)
    else
      var x := NewSession(cfg, u, "email", env);
      var (s1, issued) := CreateSession(s, x);
      if issued.Err? then Effect(s1, Refused, None, None) else Effect(s1, Recording(u, x), None, Some(x))
  }

  function ReadState(s: Store, provider: string, state: Secret, nonce: Option<Secret>, now: Time): Pc {
    match FlowByHash(s, HashOf(state))
    case None => Refused
    case Some(f) =>
      if !Consumable(f, OAuth, provider, now) || !NonceMatches(f, nonce) then Refused
      else StateRead(provider, state, nonce, f)
  }

  function UseState(s: Store, provider: string, state: Secret, nonce: Option<Secret>, now: Time): Effect {
    var (s1, f) := ConsumeFlow(s, HashOf(state), OAuth, provider, now);
    if f == None then Effect(s1, Refused, None, None)
    else Effect(s1, StateUsed(provider, state, nonce, f.value), f, None)
  }

  function ClientStep(cfg: Config, s: Store, pc: Pc, consumed: seq<Flow>, env: Env): Effect {
    match pc
    case Open(kind, token) => OpenStep(s, kind, token, |consumed|, env.now)
    case Opened(at) => Effect(s, FindUser(s, at, if at < |consumed| then consumed[at].email else None), None, None)
    case Creating(at, email) => CreateStep(cfg, s, at, email, env)
    case Linking(at, u) =>
      Effect(UpsertIdentity(s, Identity(u.id, "email", u.email, u.email, u.verified)), Issuing(at, u), None, None)
    case Issuing(at, u) => IssueStep(cfg, s, at, u, env)
    case Recording(u, x) =>
      Effect(RecordLogin(s, u, env.now).0, if u.id in s.users then LoggedIn(x) else Refused, None, None)
    case OpenState(provider, state, nonce) => Effect(s, ReadState(s, provider, state, nonce, env.now), None, None)
    case StateRead(provider, state, nonce, _) => UseState(s, provider, state, nonce, env.now)
    case _ => Effect(s, pc, None, None)
  }

  // ----- The system -----

  datatype Action =
    | Begin(client: Client, request: Pc)
    | Advance(client: Client, env: Env)
    | Environment(op: S.Op, env: Env)

  predicate AtRest(pc: Pc) {
    pc.Idle? || pc.LoggedIn? || pc.Consumed? || pc.StateUsed? || pc.Refused?
  }

  /** Created flows carry fresh tokens, and drawn ids are unused. */
  predicate Enabled(y: Sys, a: Action) {
    match a
    case Begin(c, request) => AtRest(PcOf(y, c)) && (request.OpenState? || (request.Open? && request.kind != OAuth))
    case Advance(c, env) => env.drawn.user !in y.store.users && env.drawn.session !in y.store.sessions
    case Environment(op, _) =>
      && S.AsIssued(y.store, op) && !op.ConsumeOp?
      && (op.CreateFlowOp? ==> op.flow.stateHash !in y.created)
  }

  function Next(cfg: Config, y: Sys, a: Action): Sys {
    match a
    case Begin(c, request) => y.(clients := y.clients[c := request])
    case Advance(c, env) =>
      var pc := PcOf(y, c);
      var e := ClientStep(cfg, y.store, pc, y.consumed, env);
      Sys(e.store, y.clients[c := e.pc], y.created,
          y.consumed + (if e.used.Some? then [e.used.value] else []),
          y.links + (if e.issued.Some? && pc.Issuing? then [Link(e.issued.value.id, pc.at)] else []))
    case Environment(op, env) =>
      y.(store := S.Apply(cfg, y.store, op, env),
         created := if op.CreateFlowOp? then y.created[op.flow.stateHash := op.flow] else y.created)
  }

  function Trace(cfg: Config, y: Sys, actions: seq<Action>): Sys {
    if actions == [] then y else Next(cfg, Trace(cfg, y, actions[..|actions| - 1]), actions[|actions| - 1])
  }

  predicate Possible(cfg: Config, y: Sys, actions: seq<Action>) {
    actions != [] ==>
      && Possible(cfg, y, actions[..|actions| - 1])
      && Enabled(Trace(cfg, y, actions[..|actions| - 1]), actions[|actions| - 1])
  }

  // ----- The invariant -----

  /** The same flow, but for its consumption. */
  predicate SameFlow(f: Flow, g: Flow) {
    g == f.(consumedAt := g.consumedAt)
  }

  ghost predicate FlowsCreated(flows: map<FlowId, Flow>, created: map<Hash, Flow>) {
    forall id :: id in flows ==> flows[id].stateHash in created && SameFlow(created[flows[id].stateHash], flows[id])
  }

  ghost predicate ConsumedOnce(consumed: seq<Flow>, created: map<Hash, Flow>) {
    && (forall i :: 0 <= i < |consumed| ==>
        consumed[i].stateHash in created && SameFlow(created[consumed[i].stateHash], consumed[i]))
    && (forall i, j :: 0 <= i < j < |consumed| ==> consumed[i].stateHash != consumed[j].stateHash)
  }

  /** A flow that can still be consumed has not been. */
  ghost predicate UnconsumedNotLogged(flows: map<FlowId, Flow>, consumed: seq<Flow>) {
    forall id, i :: id in flows && flows[id].consumedAt == None && 0 <= i < |consumed| ==>
      consumed[i].stateHash != flows[id].stateHash
  }

  ghost predicate CreatedKeyed(created: map<Hash, Flow>) {
    forall h :: h in created ==> created[h].stateHash == h
  }

  /** The consumed magic link a client still has to log in with. */
  function Held(pc: Pc): Option<nat> {
    match pc
    case Opened(at) => Some(at)
    case Creating(at, _) => Some(at)
    case Linking(at, _) => Some(at)
    case Issuing(at, _) => Some(at)
    case _ => None
  }

  predicate IsLink(consumed: seq<Flow>, at: nat) {
    at < |consumed| && consumed[at].kind == MagicLink
  }

  ghost predicate LinksOk(s: Store, consumed: seq<Flow>, links: seq<Link>) {
    && (forall i :: 0 <= i < |links| ==> IsLink(consumed, links[i].at) && links[i].session in s.sessions)
    && (forall i, j :: 0 <= i < j < |links| ==> links[i].at != links[j].at && links[i].session != links[j].session)
  }

  /** The social flow of the provider stored under the state. */
  predicate IsSocialState(f: Flow, provider: string, state: Secret) {
    f.kind == OAuth && f.provider == provider && f.stateHash == HashOf(state)
  }

  ghost predicate PcOk(created: map<Hash, Flow>, consumed: seq<Flow>, pc: Pc) {
    && (Held(pc).Some? ==> IsLink(consumed, Held(pc).value))
    && (pc.StateRead? ==>
        HashOf(pc.state) in created && SameFlow(created[HashOf(pc.state)], pc.read) && NonceMatches(pc.read, pc.nonce))
    && (pc.StateUsed? ==>
          IsSocialState(pc.flow, pc.provider, pc.state) && NonceMatches(pc.flow, pc.nonce) && pc.flow in consumed)
  }

  /** No two clients hold one link, nor one that has been logged in with. */
  ghost predicate HeldOnce(clients: map<Client, Pc>, links: seq<Link>) {
    && (forall c, d :: c in clients && d in clients && c != d && Held(clients[c]).Some? ==>
          Held(clients[d]) != Held(clients[c]))
    && (forall c, i :: c in clients && 0 <= i < |links| ==> Held(clients[c]) != Some(links[i].at))
  }

  ghost predicate ClientsOk(y: Sys) {
    forall c :: c in y.clients ==> PcOk(y.created, y.consumed, y.clients[c])
  }

  ghost predicate Inv(y: Sys) {
    && S.Keyed(y.store) && FlowsIndexed(y.store.flows, y.store.flowsByHash) && CreatedKeyed(y.created)
    && FlowsCreated(y.store.flows, y.created) && ConsumedOnce(y.consumed, y.created)
    && UnconsumedNotLogged(y.store.flows, y.consumed)
    && LinksOk(y.store, y.consumed, y.links) && ClientsOk(y) && HeldOnce(y.clients, y.links)
  }

  /** Nothing in progress or logged, and the stored flows known as created. */
  ghost predicate Initial(y: Sys) {
    && S.Keyed(y.store) && FlowsIndexed(y.store.flows, y.store.flowsByHash) && CreatedKeyed(y.created)
    && FlowsCreated(y.store.flows, y.created)
    && y.clients == map[] && y.consumed == [] && y.links == []
  }

  // ----- Steps that leave flows alone -----

  predicate SameFlows(a: Store, b: Store) {
    b.flows == a.flows && b.flowsByHash == a.flowsByHash
  }

  lemma UserWritesLeaveFlows(s: Store, u: User)
    ensures SameFlows(s, CreateUser(s, u).0) && SameFlows(s, UpdateUser(s, u).0)
  {
    hide EmailKey;
    if EmailKey(u.email) in s.usersByEmail {
    }
    if u.id in s.users {
    }
  }

  lemma UpsertsLeaveFlows(s: Store, i: Identity, c: Credential)
    ensures SameFlows(s, UpsertIdentity(s, i)) && SameFlows(s, UpsertCredential(s, c))
  {
    hide IdentityKey;
    if i.subject == "" {
    }
  }

  lemma SessionWritesLeaveFlows(s: Store, id: SessionId, now: Time, idle: Option<Time>)
    ensures SameFlows(s, RevokeSession(s, id, now)) && SameFlows(s, TouchSession(s, id, now, idle).0)
    ensures SameFlows(s, SetAssurance(s, id, AAL2, now).0)
  {
    if Unrevoked(s, id) {
    }
  }

  lemma CreateSessionLeavesFlows(s: Store, x: Session)
    ensures SameFlows(s, CreateSession(s, x).0)
  {
    if x.tokenHash in s.sessionsByHash {
    }
  }

  lemma FactorWritesLeaveFlows(s: Store, f: Factor, secret: Secret)
    ensures SameFlows(s, StoreSecret(CreateFactor(s, f), f.id, secret)) && SameFlows(s, UpdateFactor(s, f).0)
  {
    if f.id in s.factors {
    }
  }

  lemma MarkCounterLeavesFlows(s: Store, id: FactorId, counter: int, now: Time)
    ensures SameFlows(s, MarkCounter(s, id, counter, now).0)
  {
    if id in s.factors && !Replayed(s.factors[id], counter) {
    }
  }

  lemma EnrolLeavesFlows(cfg: Config, s: Store, owner: UserId, id: FactorId, code: string, env: Env)
    ensures SameFlows(s, VerifyEnrollment(cfg, s, owner, id, code, env).0)
  {
    hide CodeCounter, UpdateFactor;
    if id in s.factors {
      FactorWritesLeaveFlows(s, s.factors[id].(enabled := true, lastUsedAt := Some(env.now)), 0);
    }
  }

  lemma MarkCodeLeavesFlows(s: Store, id: CodeId, now: Time)
    ensures SameFlows(s, MarkCode(s, id, now).0)
  {
    if id in s.codes && s.codes[id].usedAt == None {
    }
  }

  lemma ConsumeNothing(s: Store, h: Hash, kind: FlowKind, provider: string, now: Time)
    requires ConsumeFlow(s, h, kind, provider, now).1 == None
    ensures ConsumeFlow(s, h, kind, provider, now).0 == s
  {
    hide FlowByHash, Consumable;
  }

  lemma RevokeAllLeavesFlows(s: Store, owner: UserId, except: Option<SessionId>, now: Time)
    ensures SameFlows(s, RevokeForUser(s, owner, except, now))
  {
  }

  lemma CreateCodeLeavesFlows(s: Store, c: RecoveryCode)
    ensures SameFlows(s, CreateCode(s, c))
  {
  }

  lemma OpLeavesFlows(cfg: Config, s: Store, op: S.Op, env: Env)
    requires !op.CreateFlowOp? && !op.CleanupOp? && !op.ConsumeOp?
    ensures SameFlows(s, S.Apply(cfg, s, op, env))
  {
    hide SameFlows, RevokeForUser, CreateCode, CreateUser, UpdateUser, UpsertIdentity, UpsertCredential, CreateSession,
      RevokeSession, CreateFactor, StoreSecret, VerifyEnrollment, TouchSession, MarkCounter, MarkCode, SetAssurance;
    match op
    case CreateUserOp(u) => UserWritesLeaveFlows(s, u);
    case UpdateUserOp(u) => UserWritesLeaveFlows(s, u);
    case UpsertIdentityOp(i) => UpsertsLeaveFlows(s, i, Credential(0, 0, None, None));
    case UpsertCredentialOp(c) => UpsertsLeaveFlows(s, Identity(0, "", "", "", false), c);
    case CreateSessionOp(x) => CreateSessionLeavesFlows(s, x);
    case RevokeOp(id) => SessionWritesLeaveFlows(s, id, env.now, None);
    case RevokeAllOp(owner, except) => RevokeAllLeavesFlows(s, owner, except, env.now);
    case CreateFactorOp(f, secret) => FactorWritesLeaveFlows(s, f, secret);
    case EnrolOp(owner, id, code) => EnrolLeavesFlows(cfg, s, owner, id, code, env);
    case CreateCodeOp(c) => CreateCodeLeavesFlows(s, c);
    case TouchOp(id) => SessionWritesLeaveFlows(s, id, env.now, IdleDeadline(cfg, env.now));
    case MarkCounterOp(id, counter) => MarkCounterLeavesFlows(s, id, counter, env.now);
    case MarkCodeOp(id) => MarkCodeLeavesFlows(s, id, env.now);
    case RaiseOp(id) => SessionWritesLeaveFlows(s, id, env.now, None);
  }

  lemma LinksStay(s: Store, s': Store, consumed: seq<Flow>, consumed': seq<Flow>, links: seq<Link>)
    requires LinksOk(s, consumed, links) && S.Grows(s, s') && |consumed| <= |consumed'|
    requires consumed'[..|consumed|] == consumed
    ensures LinksOk(s', consumed', links)
  {
    forall i | 0 <= i < |links| ensures IsLink(consumed', links[i].at) && links[i].session in s'.sessions {
      assert IsLink(consumed, links[i].at);
      assert consumed'[links[i].at] == consumed'[..|consumed|][links[i].at];
    }
  }

  lemma PcStays(created: map<Hash, Flow>, created': map<Hash, Flow>, consumed: seq<Flow>, consumed': seq<Flow>, pc: Pc)
    requires PcOk(created, consumed, pc) && |consumed| <= |consumed'| && consumed'[..|consumed|] == consumed
    requires forall h :: h in created ==> h in created' && created'[h] == created[h]
    ensures PcOk(created', consumed', pc)
  {
    if Held(pc).Some? {
      assert consumed'[Held(pc).value] == consumed'[..|consumed|][Held(pc).value];
    }
    assert forall f :: f in consumed'[..|consumed|] ==> f in consumed';
  }

  /** The clients after a step of `c`: the others stay where they stand. */
  lemma ClientsStay(y: Sys, c: Client, pc: Pc, s': Store, consumed': seq<Flow>, links': seq<Link>)
    requires ClientsOk(y) && PcOk(y.created, consumed', pc) && |y.consumed| <= |consumed'|
    requires consumed'[..|y.consumed|] == y.consumed
    ensures ClientsOk(Sys(s', y.clients[c := pc], y.created, consumed', links'))
  {
    hide PcOk;
    var clients' := y.clients[c := pc];
    forall d | d in clients' ensures PcOk(y.created, consumed', clients'[d]) {
      if d != c {
        PcStays(y.created, y.created, y.consumed, consumed', clients'[d]);
      }
    }
  }

  // ----- The environment -----

  lemma FlowCreated(flows: map<FlowId, Flow>, created: map<Hash, Flow>, consumed: seq<Flow>, f: Flow)
    requires FlowsCreated(flows, created) && CreatedKeyed(created) && ConsumedOnce(consumed, created)
    requires UnconsumedNotLogged(flows, consumed)
    requires f.stateHash !in created && f.id !in flows
    ensures var created' := created[f.stateHash := f];
      && FlowsCreated(flows, created') && FlowsCreated(flows[f.id := f], created') && CreatedKeyed(created')
      && ConsumedOnce(consumed, created')
      && UnconsumedNotLogged(flows[f.id := f], consumed)
  {
  }

  lemma CreateFlowKeeps(cfg: Config, y: Sys, f: Flow, env: Env)
    requires Inv(y) && Enabled(y, Environment(S.CreateFlowOp(f), env))
    ensures Inv(Next(cfg, y, Environment(S.CreateFlowOp(f), env)))
  {
    hide S.Keyed, S.Grows, FlowsIndexed, CreatedKeyed, FlowsCreated, ConsumedOnce, UnconsumedNotLogged, LinksOk, PcOk,
      HeldOnce;
    var s' := CreateFlow(y.store, f).0;
    S.ApplyKeeps(cfg, y.store, S.CreateFlowOp(f), env);
    FlowCreated(y.store.flows, y.created, y.consumed, f);
    LinksStay(y.store, s', y.consumed, y.consumed, y.links);
    forall c | c in y.clients ensures PcOk(y.created[f.stateHash := f], y.consumed, y.clients[c]) {
      PcStays(y.created, y.created[f.stateHash := f], y.consumed, y.consumed, y.clients[c]);
    }
    if f.stateHash !in y.store.flowsByHash {
      FlowWrite(y.store.flows, y.store.flowsByHash, f);
    }
  }

  lemma FlowsForgotten(flows: map<FlowId, Flow>, kept: map<FlowId, Flow>, created: map<Hash, Flow>, consumed: seq<Flow>)
    requires FlowsCreated(flows, created) && UnconsumedNotLogged(flows, consumed)
    requires forall id :: id in kept ==> id in flows && kept[id] == flows[id]
    ensures FlowsCreated(kept, created) && UnconsumedNotLogged(kept, consumed)
  {
  }

  lemma CleanupKeeps(cfg: Config, y: Sys, env: Env)
    requires Inv(y)
    ensures Inv(Next(cfg, y, Environment(S.CleanupOp, env)))
  {
    hide S.Keyed, S.Grows, FlowsIndexed, CreatedKeyed, FlowsCreated, ConsumedOnce, UnconsumedNotLogged, LinksOk, PcOk,
      HeldOnce, Expired;
    var s' := Cleanup(y.store, env.now);
    S.ApplyKeeps(cfg, y.store, S.CleanupOp, env);
    FlowsCleaned(y.store.flows, y.store.flowsByHash, env.now);
    FlowsForgotten(y.store.flows, s'.flows, y.created, y.consumed);
    LinksStay(y.store, s', y.consumed, y.consumed, y.links);
  }

  lemma OtherOpKeeps(cfg: Config, y: Sys, op: S.Op, env: Env)
    requires Inv(y) && S.AsIssued(y.store, op) && !op.CreateFlowOp? && !op.CleanupOp? && !op.ConsumeOp?
    ensures Inv(Next(cfg, y, Environment(op, env)))
  {
    hide S.Keyed, S.Grows, S.Apply, S.AsIssued, FlowsIndexed, CreatedKeyed, FlowsCreated, ConsumedOnce,
      UnconsumedNotLogged, LinksOk, PcOk, HeldOnce;
    S.ApplyKeeps(cfg, y.store, op, env);
    OpLeavesFlows(cfg, y.store, op, env);
    LinksStay(y.store, S.Apply(cfg, y.store, op, env), y.consumed, y.consumed, y.links);
  }

  lemma BeginKeeps(cfg: Config, y: Sys, c: Client, request: Pc)
    requires Inv(y) && (request.OpenState? || request.Open?)
    ensures Inv(Next(cfg, y, Begin(c, request)))
  {
    hide S.Keyed, FlowsIndexed, CreatedKeyed, FlowsCreated, ConsumedOnce, UnconsumedNotLogged, LinksOk;
    ClientsStay(y, c, request, y.store, y.consumed, y.links);
  }

  // ----- The steps of a client -----

  /** A successful consumption: the flow was consumable, is the one created under its hash, has
      not been consumed before, and cannot be again. */
  lemma ConsumptionKeeps(s: Store, created: map<Hash, Flow>, consumed: seq<Flow>, h: Hash, kind: FlowKind,
                         provider: string, now: Time)
    requires FlowsIndexed(s.flows, s.flowsByHash) && FlowsCreated(s.flows, created) && ConsumedOnce(consumed, created)
    requires UnconsumedNotLogged(s.flows, consumed)
    requires ConsumeFlow(s, h, kind, provider, now).1.Some?
    ensures var (s', f) := ConsumeFlow(s, h, kind, provider, now);
      && f.value.kind == kind && f.value.provider == provider && f.value.stateHash == h && h in created
      && SameFlow(created[h], f.value)
      && FlowsIndexed(s'.flows, s'.flowsByHash) && FlowsCreated(s'.flows, created)
      && ConsumedOnce(consumed + [f.value], created) && UnconsumedNotLogged(s'.flows, consumed + [f.value])
  {
    var g := FlowByHash(s, h).value;
    var f := g.(consumedAt := Some(now));
    FlowWrite(s.flows, s.flowsByHash, f);
    WriteConsumed(s.flows, s.flowsByHash, created, consumed, g, f);
    hide FlowsIndexed, FlowsCreated, ConsumedOnce, UnconsumedNotLogged;
  }

  lemma WriteConsumed(flows: map<FlowId, Flow>, byHash: map<Hash, FlowId>, created: map<Hash, Flow>,
                      consumed: seq<Flow>, g: Flow, f: Flow)
    requires FlowsIndexed(flows, byHash) && FlowsCreated(flows, created) && ConsumedOnce(consumed, created)
    requires UnconsumedNotLogged(flows, consumed)
    requires g.id in flows && flows[g.id] == g && g.consumedAt == None && f == g.(consumedAt := f.consumedAt)
    requires f.consumedAt.Some?
    ensures FlowsCreated(flows[g.id := f], created) && ConsumedOnce(consumed + [f], created)
    ensures UnconsumedNotLogged(flows[g.id := f], consumed + [f])
  {
    var flows', consumed' := flows[g.id := f], consumed + [f];
    forall id, i | id in flows' && flows'[id].consumedAt == None && 0 <= i < |consumed'|
      ensures consumed'[i].stateHash != flows'[id].stateHash
    {
      assert id != g.id && flows[id].consumedAt == None;
    }
  }

  lemma ClientStepGrows(cfg: Config, s: Store, pc: Pc, consumed: seq<Flow>, env: Env)
    requires S.Keyed(s) && env.drawn.user !in s.users && env.drawn.session !in s.sessions
    ensures S.Keyed(ClientStep(cfg, s, pc, consumed, env).store)
    ensures S.Grows(s, ClientStep(cfg, s, pc, consumed, env).store)
  {
    hide S.Keyed, S.Grows, ConsumeFlow, CreateUser, UpdateUser, UpsertIdentity, CreateSession, FindUser, ReadState,
      ProfileObjection, IsOwnerEmail, PermissionsFor;
    S.KeptItself(s);
    match pc
    case Open(kind, token) => S.ConsumeFlowKept(s, HashOf(token), kind, "email", env.now);
    case StateRead(provider, state, _, _) => S.ConsumeFlowKept(s, HashOf(state), OAuth, provider, env.now);
    case Creating(_, email) =>
      if cfg.normalize(email).Some? {
        S.UserKept(s, NewUser(cfg, cfg.normalize(email).value, if cfg.profile == SingleOwner then Owner else Role.User,
                              true, env));
      }
    case Linking(_, u) => S.IdentityKept(s, Identity(u.id, "email", u.email, u.email, u.verified));
    case Issuing(_, u) => S.CreateSessionKept(s, NewSession(cfg, u, "email", env));
    case Recording(u, _) => S.UserKept(s, u.(lastLoginAt := Some(env.now), updatedAt := env.now));
    case Idle =>
    case Opened(_) =>
    case LoggedIn(_) =>
    case Consumed(_) =>
    case OpenState(_, _, _) =>
    case StateUsed(_, _, _, _) =>
    case Refused =>
  }

  /** The steps that consume nothing leave the flows alone. */
  lemma QuietLeavesFlows(cfg: Config, s: Store, pc: Pc, consumed: seq<Flow>, env: Env)
    requires ClientStep(cfg, s, pc, consumed, env).used == None
    ensures SameFlows(s, ClientStep(cfg, s, pc, consumed, env).store)
  {
    hide FindUser, ReadState, ProfileObjection, IsOwnerEmail, PermissionsFor, ConsumeFlow, CreateUser, UpdateUser,
      UpsertIdentity, CreateSession, NewUser, NewSession;
    if pc.Open? {
      ConsumeNothing(s, HashOf(pc.token), pc.kind, "email", env.now);
    } else if pc.StateRead? {
      ConsumeNothing(s, HashOf(pc.state), OAuth, pc.provider, env.now);
    } else if pc.Creating? {
      if cfg.normalize(pc.email).Some? {
        UserWritesLeaveFlows(s, NewUser(cfg, cfg.normalize(pc.email).value,
                                        if cfg.profile == SingleOwner then Owner else Role.User, true, env));
      }
    } else if pc.Linking? {
      UpsertsLeaveFlows(s, Identity(pc.user.id, "email", pc.user.email, pc.user.email, pc.user.verified),
                        Credential(0, 0, None, None));
    } else if pc.Issuing? {
      CreateSessionLeavesFlows(s, NewSession(cfg, pc.user, "email", env));
    } else if pc.Recording? {
      UserWritesLeaveFlows(s, pc.user.(lastLoginAt := Some(env.now), updatedAt := env.now));
    }
  }

  lemma ReadStateIsOk(s: Store, created: map<Hash, Flow>, consumed: seq<Flow>, provider: string, state: Secret,
                      nonce: Option<Secret>, now: Time)
    requires FlowsIndexed(s.flows, s.flowsByHash) && FlowsCreated(s.flows, created)
    ensures PcOk(created, consumed, ReadState(s, provider, state, nonce, now))
  {
    hide NonceMatches, Consumable;
  }

  lemma QuietPc(cfg: Config, s: Store, created: map<Hash, Flow>, pc: Pc, consumed: seq<Flow>, env: Env)
    requires FlowsIndexed(s.flows, s.flowsByHash) && FlowsCreated(s.flows, created) && PcOk(created, consumed, pc)
    requires ClientStep(cfg, s, pc, consumed, env).used == None && ClientStep(cfg, s, pc, consumed, env).issued == None
    ensures var next := ClientStep(cfg, s, pc, consumed, env).pc;
      PcOk(created, consumed, next) && (Held(next).Some? ==> Held(next) == Held(pc))
  {
    hide FlowsIndexed, FlowsCreated, ConsumeFlow, CreateUser, UpdateUser, UpsertIdentity, CreateSession, ReadState,
      ProfileObjection, IsOwnerEmail, PermissionsFor, UserByEmail, NonceMatches, IsLink, SameFlow;
    if pc.OpenState? {
      ReadStateIsOk(s, created, consumed, pc.provider, pc.state, pc.nonce, env.now);
      ReadStateHoldsNothing(s, pc.provider, pc.state, pc.nonce, env.now);
    }
  }

  lemma ReadStateHoldsNothing(s: Store, provider: string, state: Secret, nonce: Option<Secret>, now: Time)
    ensures Held(ReadState(s, provider, state, nonce, now)) == None
  {
    hide FlowByHash, Consumable, NonceMatches;
  }

  lemma PcOfOk(y: Sys, c: Client)
    requires ClientsOk(y)
    ensures PcOk(y.created, y.consumed, PcOf(y, c))
  {
  }

  lemma HeldShrinks(y: Sys, c: Client, next: Pc)
    requires HeldOnce(y.clients, y.links) && (Held(next).Some? ==> Held(next) == Held(PcOf(y, c)))
    ensures HeldOnce(y.clients[c := next], y.links)
  {
    hide Held;
    HeldIdle();
  }

  lemma HeldIdle()
    ensures Held(Idle) == None
  {
  }

  lemma QuietKeeps(cfg: Config, y: Sys, c: Client, env: Env)
    requires Inv(y) && Enabled(y, Advance(c, env))
    requires var e := ClientStep(cfg, y.store, PcOf(y, c), y.consumed, env); e.used == None && e.issued == None
    ensures Inv(Next(cfg, y, Advance(c, env)))
  {
    hide S.Keyed, S.Grows, FlowsIndexed, CreatedKeyed, FlowsCreated, ConsumedOnce, UnconsumedNotLogged, LinksOk,
      ClientsOk, PcOk, HeldOnce, ClientStep, PcOf;
    var pc := PcOf(y, c);
    var e := ClientStep(cfg, y.store, pc, y.consumed, env);
    PcOfOk(y, c);
    ClientStepGrows(cfg, y.store, pc, y.consumed, env);
    QuietLeavesFlows(cfg, y.store, pc, y.consumed, env);
    QuietPc(cfg, y.store, y.created, pc, y.consumed, env);
    HeldShrinks(y, c, e.pc);
    LinksStay(y.store, e.store, y.consumed, y.consumed, y.links);
    ClientsStay(y, c, e.pc, e.store, y.consumed, y.links);
    assert y.consumed + [] == y.consumed && y.links + [] == y.links;
  }

  /** The place a consuming step leads to. */
  lemma ConsumingPc(cfg: Config, y: Sys, pc: Pc, env: Env)
    requires Inv(y) && PcOk(y.created, y.consumed, pc) && ClientStep(cfg, y.store, pc, y.consumed, env).used.Some?
    ensures var e := ClientStep(cfg, y.store, pc, y.consumed, env);
      var consumed' := y.consumed + [e.used.value];
      && e.issued == None && PcOk(y.created, consumed', e.pc) && (Held(e.pc).Some? ==> Held(e.pc) == Some(|y.consumed|))
      && FlowsIndexed(e.store.flows, e.store.flowsByHash) && FlowsCreated(e.store.flows, y.created)
      && ConsumedOnce(consumed', y.created) && UnconsumedNotLogged(e.store.flows, consumed')
  {
    hide S.Keyed, FlowsIndexed, FlowsCreated, ConsumedOnce, UnconsumedNotLogged, LinksOk, ClientsOk, HeldOnce,
      ConsumeFlow, FindUser, ReadState, CreateUser, UpdateUser, UpsertIdentity, CreateSession, NewUser, NewSession,
      ProfileObjection, IsOwnerEmail;
    if pc.Open? {
      ConsumptionKeeps(y.store, y.created, y.consumed, HashOf(pc.token), pc.kind, "email", env.now);
    } else if pc.StateRead? {
      ConsumptionKeeps(y.store, y.created, y.consumed, HashOf(pc.state), OAuth, pc.provider, env.now);
    }
  }

  lemma HeldIsNew(y: Sys, c: Client, next: Pc)
    requires Inv(y) && (Held(next).Some? ==> Held(next) == Some(|y.consumed|))
    ensures HeldOnce(y.clients[c := next], y.links)
  {
    hide S.Keyed, FlowsIndexed, CreatedKeyed, FlowsCreated, ConsumedOnce, UnconsumedNotLogged, Held, SameFlow,
      NonceMatches;
    forall d | d in y.clients && Held(y.clients[d]).Some? ensures Held(y.clients[d]).value < |y.consumed| {
      assert PcOk(y.created, y.consumed, y.clients[d]);
    }
    forall i | 0 <= i < |y.links| ensures y.links[i].at < |y.consumed| {
      assert IsLink(y.consumed, y.links[i].at);
    }
  }

  lemma ConsumingKeeps(cfg: Config, y: Sys, c: Client, env: Env)
    requires Inv(y) && Enabled(y, Advance(c, env)) && ClientStep(cfg, y.store, PcOf(y, c), y.consumed, env).used.Some?
    ensures Inv(Next(cfg, y, Advance(c, env)))
  {
    hide S.Keyed, S.Grows, FlowsIndexed, CreatedKeyed, FlowsCreated, ConsumedOnce, UnconsumedNotLogged, LinksOk,
      ClientsOk, PcOk, HeldOnce, ClientStep, PcOf, Held;
    var pc := PcOf(y, c);
    var e := ClientStep(cfg, y.store, pc, y.consumed, env);
    var consumed' := y.consumed + [e.used.value];
    assert consumed'[..|y.consumed|] == y.consumed;
    PcOfOk(y, c);
    ClientStepGrows(cfg, y.store, pc, y.consumed, env);
    ConsumingPc(cfg, y, pc, env);
    HeldIsNew(y, c, e.pc);
    LinksStay(y.store, e.store, y.consumed, consumed', y.links);
    ClientsStay(y, c, e.pc, e.store, consumed', y.links);
    assert y.links + [] == y.links;
  }

  lemma IssuedIsStored(cfg: Config, s: Store, pc: Pc, consumed: seq<Flow>, env: Env)
    requires ClientStep(cfg, s, pc, consumed, env).issued.Some?
    ensures var e := ClientStep(cfg, s, pc, consumed, env);
      && pc.Issuing? && e.used == None && e.issued.value.id == env.drawn.session
      && env.drawn.session in e.store.sessions && e.pc.Recording?
  {
    hide PermissionsFor, ProfileObjection, ConsumeFlow, CreateUser, UpdateUser, UpsertIdentity, FindUser, ReadState;
  }

  lemma LinkAppends(y: Sys, c: Client, s': Store, l: Link, next: Pc)
    requires LinksOk(y.store, y.consumed, y.links) && LinksOk(s', y.consumed, y.links) && HeldOnce(y.clients, y.links)
    requires c in y.clients && Held(y.clients[c]) == Some(l.at) && IsLink(y.consumed, l.at) && Held(next) == None
    requires l.session !in y.store.sessions && l.session in s'.sessions
    ensures LinksOk(s', y.consumed, y.links + [l]) && HeldOnce(y.clients[c := next], y.links + [l])
  {
    hide Held, IsLink;
  }

  lemma IssuingKeeps(cfg: Config, y: Sys, c: Client, env: Env)
    requires Inv(y) && Enabled(y, Advance(c, env)) && ClientStep(cfg, y.store, PcOf(y, c), y.consumed, env).issued.Some?
    ensures Inv(Next(cfg, y, Advance(c, env)))
  {
    hide S.Keyed, S.Grows, FlowsIndexed, CreatedKeyed, FlowsCreated, ConsumedOnce, UnconsumedNotLogged, LinksOk,
      ClientsOk, HeldOnce, ClientStep;
    var pc := PcOf(y, c);
    var e := ClientStep(cfg, y.store, pc, y.consumed, env);
    PcOfOk(y, c);
    IssuedIsStored(cfg, y.store, pc, y.consumed, env);
    ClientStepGrows(cfg, y.store, pc, y.consumed, env);
    QuietLeavesFlows(cfg, y.store, pc, y.consumed, env);
    LinksStay(y.store, e.store, y.consumed, y.consumed, y.links);
    var l := Link(e.issued.value.id, pc.at);
    LinkAppends(y, c, e.store, l, e.pc);
    ClientsStay(y, c, e.pc, e.store, y.consumed, y.links + [l]);
    assert y.consumed + [] == y.consumed;
  }

  lemma NextKeeps(cfg: Config, y: Sys, a: Action)
    requires Inv(y) && Enabled(y, a)
    ensures Inv(Next(cfg, y, a))
  {
    hide Inv, Next, ClientStep, S.AsIssued;
    match a
    case Begin(c, request) => BeginKeeps(cfg, y, c, request);
    case Environment(op, env) =>
      if op.CreateFlowOp? {
        CreateFlowKeeps(cfg, y, op.flow, env);
      } else if op.CleanupOp? {
        CleanupKeeps(cfg, y, env);
      } else {
        OtherOpKeeps(cfg, y, op, env);
      }
    case Advance(c, env) =>
      var e := ClientStep(cfg, y.store, PcOf(y, c), y.consumed, env);
      if e.used.Some? {
        ConsumingKeeps(cfg, y, c, env);
      } else if e.issued.Some? {
        IssuingKeeps(cfg, y, c, env);
      } else {
        QuietKeeps(cfg, y, c, env);
      }
  }

  lemma {:induction false} TraceKeeps(cfg: Config, y: Sys, actions: seq<Action>)
    requires Inv(y) && Possible(cfg, y, actions)
    ensures Inv(Trace(cfg, y, actions))
    decreases |actions|
  {
    hide Inv, Next, Enabled;
    if actions != [] {
      TraceKeeps(cfg, y, actions[..|actions| - 1]);
      NextKeeps(cfg, Trace(cfg, y, actions[..|actions| - 1]), actions[|actions| - 1]);
    }
  }

  lemma InitialIsOk(y: Sys)
    requires Initial(y)
    ensures Inv(y)
  {
    hide S.Keyed, FlowsIndexed, CreatedKeyed, FlowsCreated;
  }

  // ----- What every interleaving guarantees -----

  /** Each state hash is consumed at most once, and what was consumed is what was created. */
  lemma ConsumedAtMostOnce(cfg: Config, start: Sys, actions: seq<Action>)
    requires Initial(start) && Possible(cfg, start, actions)
    ensures var y := Trace(cfg, start, actions);
      && (forall i, j :: 0 <= i < j < |y.consumed| ==> y.consumed[i].stateHash != y.consumed[j].stateHash)
      && (forall i :: 0 <= i < |y.consumed| ==>
            y.consumed[i].stateHash in y.created && SameFlow(y.created[y.consumed[i].stateHash], y.consumed[i]))
  {
    hide S.Keyed, FlowsIndexed, CreatedKeyed, FlowsCreated, UnconsumedNotLogged, LinksOk, ClientsOk, HeldOnce, Trace,
      Possible, SameFlow;
    InitialIsOk(start);
    TraceKeeps(cfg, start, actions);
  }

  function MagicLinks(created: map<Hash, Flow>): set<Hash> {
    set h | h in created && created[h].kind == MagicLink
  }

  /** The state hashes of the links' flows. */
  function LinkHashes(consumed: seq<Flow>, links: seq<Link>): set<Hash>
    requires forall i :: 0 <= i < |links| ==> links[i].at < |consumed|
  {
    set i | 0 <= i < |links| :: consumed[links[i].at].stateHash
  }

  lemma {:induction false} LinkHashesCount(consumed: seq<Flow>, links: seq<Link>)
    requires forall i :: 0 <= i < |links| ==> links[i].at < |consumed|
    requires forall i, j :: 0 <= i < j < |links| ==> consumed[links[i].at].stateHash != consumed[links[j].at].stateHash
    ensures |LinkHashes(consumed, links)| == |links|
  {
    if links == [] {
      assert LinkHashes(consumed, links) == {};
    } else {
      var init, last := links[..|links| - 1], links[|links| - 1];
      LinkHashesCount(consumed, init);
      var h := consumed[last.at].stateHash;
      assert LinkHashes(consumed, links) == LinkHashes(consumed, init) + {h};
      assert h !in LinkHashes(consumed, init);
    }
  }

  lemma LinksAreDistinct(s: Store, created: map<Hash, Flow>, consumed: seq<Flow>, links: seq<Link>)
    requires LinksOk(s, consumed, links) && ConsumedOnce(consumed, created)
    ensures forall i :: 0 <= i < |links| ==> links[i].at < |consumed|
    ensures forall i, j :: 0 <= i < j < |links| ==> consumed[links[i].at].stateHash != consumed[links[j].at].stateHash
    ensures LinkHashes(consumed, links) <= MagicLinks(created)
  {
    forall i | 0 <= i < |links|
      ensures links[i].at < |consumed| && consumed[links[i].at].stateHash in MagicLinks(created)
    {
      assert IsLink(consumed, links[i].at);
    }
    forall i, j | 0 <= i < j < |links| ensures consumed[links[i].at].stateHash != consumed[links[j].at].stateHash {
      var a, b := links[i].at, links[j].at;
      assert a < b || b < a;
    }
  }

  /** Sessions issued for magic links are distinct, each for a consumed link of its own, and
      never outnumber the magic links created. */
  lemma LinksNeverOutnumberFlows(cfg: Config, start: Sys, actions: seq<Action>)
    requires Initial(start) && Possible(cfg, start, actions)
    ensures var y := Trace(cfg, start, actions);
      && (forall i, j :: 0 <= i < j < |y.links| ==>
            y.links[i].session != y.links[j].session && y.links[i].at != y.links[j].at)
      && (forall i :: 0 <= i < |y.links| ==> IsLink(y.consumed, y.links[i].at))
      && |y.links| <= |MagicLinks(y.created)|
  {
    hide S.Keyed, FlowsIndexed, CreatedKeyed, FlowsCreated, UnconsumedNotLogged, ClientsOk, HeldOnce, Trace, Possible;
    InitialIsOk(start);
    TraceKeeps(cfg, start, actions);
    var y := Trace(cfg, start, actions);
    assert forall i :: 0 <= i < |y.links| ==> IsLink(y.consumed, y.links[i].at);
    LinksAreDistinct(y.store, y.created, y.consumed, y.links);
    LinkHashesCount(y.consumed, y.links);
    SubsetCardinality(LinkHashes(y.consumed, y.links), MagicLinks(y.created));
  }

  /** What a client consumed as its social state is the flow of its provider created under that
      state, logged as consumed once, and if it carries the hash of a nonce, that is the hash of
      the client's, which was only compared in an earlier read. */
  lemma NonceMatchedAtConsumption(cfg: Config, start: Sys, actions: seq<Action>, c: Client)
    requires Initial(start) && Possible(cfg, start, actions)
    requires PcOf(Trace(cfg, start, actions), c).StateUsed?
    ensures var y := Trace(cfg, start, actions);
      var pc := PcOf(y, c);
      && pc.flow.stateHash == HashOf(pc.state) && pc.flow.kind == OAuth && pc.flow.provider == pc.provider
      && (pc.flow.nonceHash == None || (pc.nonce.Some? && pc.flow.nonceHash == Some(HashOf(pc.nonce.value))))
      && HashOf(pc.state) in y.created && SameFlow(y.created[HashOf(pc.state)], pc.flow)
      && (exists i :: 0 <= i < |y.consumed| && y.consumed[i] == pc.flow)
      && (forall i, j :: 0 <= i < j < |y.consumed| ==> y.consumed[i].stateHash != y.consumed[j].stateHash)
  {
    hide S.Keyed, FlowsIndexed, CreatedKeyed, FlowsCreated, UnconsumedNotLogged, LinksOk, ClientsOk, HeldOnce, Trace,
      Possible, SameFlow;
    InitialIsOk(start);
    TraceKeeps(cfg, start, actions);
    PcOfOk(Trace(cfg, start, actions), c);
  }
}

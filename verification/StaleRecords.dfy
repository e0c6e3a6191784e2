/** Logins write back the whole user record they have read, so a ban or role change that comes
    between the two steps is lost: exactly when a ban stands in every interleaving. */
module StaleRecords {
  import opened Prelude
  import opened Permissions
  import opened AuthModels
  import opened AuthStore
  import opened AuthCalls
  import opened FlowProtocol
  import S = StorageOps

  /** The user record a client's login has in hand and will write back. */
  function HeldUser(pc: Pc): Option<User> {
    match pc
    case Linking(_, u) => Some(u)
    case Issuing(_, u) => Some(u)
    case Recording(u, _) => Some(u)
    case _ => None
  }

  /** The client holds an active record of the user, and its login goes on to be recorded. */
  predicate Carries(cfg: Config, pc: Pc, id: UserId) {
    && HeldUser(pc).Some? && HeldUser(pc).value.id == id && HeldUser(pc).value.status == Active
    && (pc.Recording? || ProfileObjection(cfg, HeldUser(pc).value) == None)
  }

  ghost predicate NobodyCarries(cfg: Config, clients: map<Client, Pc>, id: UserId) {
    forall c :: c in clients ==> !Carries(cfg, clients[c], id)
  }

  /** Banned or disabled. */
  predicate Down(s: Store, id: UserId) {
    id in s.users && s.users[id].status != Active
  }

  /** The environment writes no active record of the user. */
  predicate NotReinstating(actions: seq<Action>, id: UserId) {
    forall i :: 0 <= i < |actions| ==> LeavesDown(actions[i], id)
  }

  predicate LeavesDown(a: Action, id: UserId) {
    a.Environment? && a.op.UpdateUserOp? && a.op.user.id == id ==> a.op.user.status != Active
  }

  // ----- Steps that leave users alone -----

  predicate SameUsers(s: Store, s': Store) {
    s'.users == s.users
  }

  lemma OneTimeWritesLeaveUsers(s: Store, f: Flow, h: Hash, kind: FlowKind, provider: string, now: Time)
    ensures SameUsers(s, CreateFlow(s, f).0) && SameUsers(s, ConsumeFlow(s, h, kind, provider, now).0)
  {
    if f.stateHash in s.flowsByHash {
    }
    if FlowByHash(s, h).Some? && Consumable(FlowByHash(s, h).value, kind, provider, now) {
    }
  }

  lemma RecordWritesLeaveUsers(s: Store, i: Identity, c: Credential, x: Session)
    ensures SameUsers(s, UpsertIdentity(s, i)) && SameUsers(s, UpsertCredential(s, c))
    ensures SameUsers(s, CreateSession(s, x).0)
  {
    hide IdentityKey;
    if i.subject == "" {
    }
    if x.tokenHash in s.sessionsByHash {
    }
  }

  lemma SessionWritesLeaveUsers(s: Store, id: SessionId, now: Time, idle: Option<Time>)
    ensures SameUsers(s, RevokeSession(s, id, now)) && SameUsers(s, TouchSession(s, id, now, idle).0)
    ensures SameUsers(s, SetAssurance(s, id, AAL2, now).0)
  {
    if Unrevoked(s, id) {
    }
  }

  lemma FactorWritesLeaveUsers(s: Store, f: Factor, secret: Secret)
    ensures SameUsers(s, StoreSecret(CreateFactor(s, f), f.id, secret)) && SameUsers(s, UpdateFactor(s, f).0)
  {
    if f.id in s.factors {
    }
  }

  lemma MarkCounterLeavesUsers(s: Store, id: FactorId, counter: int, now: Time)
    ensures SameUsers(s, MarkCounter(s, id, counter, now).0)
  {
    if id in s.factors && Replayed(s.factors[id], counter) {
    }
  }

  lemma CreateCodeLeavesUsers(s: Store, c: RecoveryCode)
    ensures SameUsers(s, CreateCode(s, c))
  {
  }

  lemma MarkCodeLeavesUsers(s: Store, id: CodeId, now: Time)
    ensures SameUsers(s, MarkCode(s, id, now).0)
  {
    if id in s.codes && s.codes[id].usedAt.Some? {
    }
  }

  lemma SweepsLeaveUsers(s: Store, owner: UserId, except: Option<SessionId>, now: Time)
    ensures SameUsers(s, RevokeForUser(s, owner, except, now)) && SameUsers(s, Cleanup(s, now))
  {
  }

  lemma EnrolLeavesUsers(cfg: Config, s: Store, owner: UserId, id: FactorId, code: string, env: Env)
    ensures SameUsers(s, VerifyEnrollment(cfg, s, owner, id, code, env).0)
  {
    hide CodeCounter, UpdateFactor;
    if id in s.factors {
      FactorWritesLeaveUsers(s, s.factors[id].(enabled := true, lastUsedAt := Some(env.now)), 0);
    }
  }

  lemma OpLeavesUsers(cfg: Config, s: Store, op: S.Op, env: Env)
    requires !op.CreateUserOp? && !op.UpdateUserOp?
    ensures SameUsers(s, S.Apply(cfg, s, op, env))
  {
    hide SameUsers, RevokeForUser, CreateCode, CreateUser, UpdateUser, UpsertIdentity, UpsertCredential, CreateSession,
      RevokeSession, CreateFactor, StoreSecret, VerifyEnrollment, TouchSession, MarkCounter, MarkCode, SetAssurance,
      CreateFlow, ConsumeFlow, Cleanup, UpdateFactor;
    var noIdentity, noCredential := Identity(0, "", "", "", false), Credential(0, 0, None, None);
    var noSession := Session(0, HashOf(0), 0, "", "", Owner, [], AAL1, 0, 0, None, None, None);
    var noFlow := Flow(0, MagicLink, "", HashOf(0), None, None, 0, None, None);
    match op
    case UpsertIdentityOp(i) => RecordWritesLeaveUsers(s, i, noCredential, noSession);
    case UpsertCredentialOp(c) => RecordWritesLeaveUsers(s, noIdentity, c, noSession);
    case CreateSessionOp(x) => RecordWritesLeaveUsers(s, noIdentity, noCredential, x);
    case CreateFlowOp(f) => OneTimeWritesLeaveUsers(s, f, HashOf(0), MagicLink, "", 0);
    case ConsumeOp(h, kind, provider) => OneTimeWritesLeaveUsers(s, noFlow, h, kind, provider, env.now);
    case RevokeOp(id) => SessionWritesLeaveUsers(s, id, env.now, None);
    case TouchOp(id) => SessionWritesLeaveUsers(s, id, env.now, IdleDeadline(cfg, env.now));
    case RaiseOp(id) => SessionWritesLeaveUsers(s, id, env.now, None);
    case RevokeAllOp(owner, except) => SweepsLeaveUsers(s, owner, except, env.now);
    case CleanupOp => SweepsLeaveUsers(s, 0, None, env.now);
    case CreateFactorOp(f, secret) => FactorWritesLeaveUsers(s, f, secret);
    case EnrolOp(owner, id, code) => EnrolLeavesUsers(cfg, s, owner, id, code, env);
    case CreateCodeOp(c) => CreateCodeLeavesUsers(s, c);
    case MarkCounterOp(id, counter) => MarkCounterLeavesUsers(s, id, counter, env.now);
    case MarkCodeOp(id) => MarkCodeLeavesUsers(s, id, env.now);
  }

  // ----- A ban that nobody carries away -----

  lemma UserWritesKeepDown(s: Store, u: User, id: UserId)
    requires Down(s, id)
    ensures u.id !in s.users ==> Down(CreateUser(s, u).0, id)
    ensures (u.id == id ==> u.status != Active) ==> Down(UpdateUser(s, u).0, id)
  {
    hide EmailKey;
    if EmailKey(u.email) in s.usersByEmail {
    }
    if u.id in s.users {
    }
  }

  lemma EnvironmentKeepsDown(cfg: Config, s: Store, op: S.Op, env: Env, id: UserId)
    requires Down(s, id) && S.AsIssued(s, op) && (op.UpdateUserOp? && op.user.id == id ==> op.user.status != Active)
    ensures Down(S.Apply(cfg, s, op, env), id)
  {
    hide CreateUser, UpdateUser;
    if op.CreateUserOp? || op.UpdateUserOp? {
      UserWritesKeepDown(s, op.user, id);
    } else {
      hide S.Apply;
      OpLeavesUsers(cfg, s, op, env);
    }
  }

  lemma ReadingStepKeepsDown(cfg: Config, s: Store, pc: Pc, consumed: seq<Flow>, env: Env, id: UserId)
    requires S.Keyed(s) && Down(s, id) && pc.Opened?
    ensures var e := ClientStep(cfg, s, pc, consumed, env);
      Down(e.store, id) && !Carries(cfg, e.pc, id)
  {
    hide S.Keyed, ProfileObjection, UserByEmail;
    FoundIsStored(s, if pc.at < |consumed| && consumed[pc.at].email.Some? then consumed[pc.at].email.value else "");
  }

  lemma HoldingStepKeepsDown(cfg: Config, s: Store, pc: Pc, consumed: seq<Flow>, env: Env, id: UserId)
    requires Down(s, id) && !Carries(cfg, pc, id) && HeldUser(pc).Some?
    ensures var e := ClientStep(cfg, s, pc, consumed, env);
      Down(e.store, id) && !Carries(cfg, e.pc, id)
  {
    hide ProfileObjection, UpdateUser, UpsertIdentity, CreateSession, PermissionsFor;
    var u := HeldUser(pc).value;
    RecordWritesLeaveUsers(s, Identity(u.id, "email", u.email, u.email, u.verified), Credential(0, 0, None, None),
                           NewSession(cfg, u, "email", env));
    UserWritesKeepDown(s, u.(lastLoginAt := Some(env.now), updatedAt := env.now), id);
  }

  lemma CreatingStepKeepsDown(cfg: Config, s: Store, pc: Pc, consumed: seq<Flow>, env: Env, id: UserId)
    requires Down(s, id) && pc.Creating? && env.drawn.user !in s.users
    ensures var e := ClientStep(cfg, s, pc, consumed, env);
      Down(e.store, id) && !Carries(cfg, e.pc, id)
  {
    hide ProfileObjection, CreateUser, IsOwnerEmail;
    if cfg.normalize(pc.email).Some? {
      var role := if cfg.profile == SingleOwner then Owner else Role.User;
      UserWritesKeepDown(s, NewUser(cfg, cfg.normalize(pc.email).value, role, true, env), id);
    }
  }

  lemma FlowStepKeepsDown(cfg: Config, s: Store, pc: Pc, consumed: seq<Flow>, env: Env, id: UserId)
    requires Down(s, id) && HeldUser(pc) == None && !pc.Opened? && !pc.Creating?
    ensures var e := ClientStep(cfg, s, pc, consumed, env);
      Down(e.store, id) && !Carries(cfg, e.pc, id)
  {
    hide ProfileObjection, ConsumeFlow, ReadState;
    var noFlow := Flow(0, MagicLink, "", HashOf(0), None, None, 0, None, None);
    if pc.Open? {
      OneTimeWritesLeaveUsers(s, noFlow, HashOf(pc.token), pc.kind, "email", env.now);
    } else if pc.StateRead? {
      OneTimeWritesLeaveUsers(s, noFlow, HashOf(pc.state), OAuth, pc.provider, env.now);
    } else if pc.OpenState? {
      StateIsNoRecord(s, pc.provider, pc.state, pc.nonce, env.now);
    }
  }

  /** A login step of a client that does not carry the record leaves the ban, and still does not. */
  lemma LoginStepKeepsDown(cfg: Config, s: Store, pc: Pc, consumed: seq<Flow>, env: Env, id: UserId)
    requires S.Keyed(s) && Down(s, id) && !Carries(cfg, pc, id) && env.drawn.user !in s.users
    ensures var e := ClientStep(cfg, s, pc, consumed, env);
      Down(e.store, id) && !Carries(cfg, e.pc, id)
  {
    hide S.Keyed, Down, Carries, ClientStep, HeldUser;
    if pc.Opened? {
      ReadingStepKeepsDown(cfg, s, pc, consumed, env, id);
    } else if pc.Creating? {
      CreatingStepKeepsDown(cfg, s, pc, consumed, env, id);
    } else if HeldUser(pc).Some? {
      HoldingStepKeepsDown(cfg, s, pc, consumed, env, id);
    } else {
      FlowStepKeepsDown(cfg, s, pc, consumed, env, id);
    }
  }

  lemma FoundIsStored(s: Store, email: string)
    requires S.Keyed(s)
    ensures var found := UserByEmail(s, email);
      found.Some? ==> found.value.id in s.users && s.users[found.value.id] == found.value
  {
    hide EmailKey;
  }

  lemma StateIsNoRecord(s: Store, provider: string, state: Secret, nonce: Option<Secret>, now: Time)
    ensures HeldUser(ReadState(s, provider, state, nonce, now)) == None
  {
    hide FlowByHash, Consumable, NonceMatches;
  }

  lemma NextKeepsDown(cfg: Config, y: Sys, a: Action, id: UserId)
    requires S.Keyed(y.store) && Enabled(y, a) && LeavesDown(a, id) && Down(y.store, id)
    requires NobodyCarries(cfg, y.clients, id)
    ensures var y' := Next(cfg, y, a);
      S.Keyed(y'.store) && Down(y'.store, id) && NobodyCarries(cfg, y'.clients, id)
  {
    hide S.Keyed, S.Grows, S.Apply, S.AsIssued, ClientStep, Carries, Down, HeldUser, ProfileObjection;
    match a
    case Begin(c, request) => RestsHoldNothing(cfg, request, id);
    case Advance(c, env) =>
      RestsHoldNothing(cfg, Idle, id);
      ClientStepGrows(cfg, y.store, PcOf(y, c), y.consumed, env);
      LoginStepKeepsDown(cfg, y.store, PcOf(y, c), y.consumed, env, id);
    case Environment(op, env) =>
      S.ApplyKeeps(cfg, y.store, op, env);
      EnvironmentKeepsDown(cfg, y.store, op, env, id);
  }

  lemma RestsHoldNothing(cfg: Config, pc: Pc, id: UserId)
    requires pc.Idle? || pc.Open? || pc.OpenState?
    ensures !Carries(cfg, pc, id)
  {
  }

  lemma {:induction false} UncarriedStands(cfg: Config, y: Sys, actions: seq<Action>, id: UserId)
    requires S.Keyed(y.store) && Possible(cfg, y, actions) && NotReinstating(actions, id)
    requires Down(y.store, id) && NobodyCarries(cfg, y.clients, id)
    ensures var y' := Trace(cfg, y, actions);
      S.Keyed(y'.store) && Down(y'.store, id) && NobodyCarries(cfg, y'.clients, id)
    decreases |actions|
  {
    hide S.Keyed, Next, Enabled, Down, NobodyCarries, LeavesDown;
    if actions != [] {
      var init := actions[..|actions| - 1];
      assert forall i :: 0 <= i < |init| ==> init[i] == actions[i];
      UncarriedStands(cfg, y, init, id);
      NextKeepsDown(cfg, Trace(cfg, y, init), actions[|actions| - 1], id);
    }
  }

  // ----- A ban that is carried away -----

  lemma {:induction false} Above(ids: set<nat>) returns (n: nat)
    ensures n !in ids && forall id :: id in ids ==> id < n
    decreases |ids|
  {
    if ids == {} {
      n := 0;
    } else {
      var id :| id in ids;
      var m := Above(ids - {id});
      assert ids == ids - {id} + {id};
      n := if id < m then m else id + 1;
    }
  }

  /** Some values that are not in use. */
  lemma UnusedValues(s: Store) returns (env: Env)
    ensures env.drawn.user !in s.users && env.drawn.session !in s.sessions
    ensures HashOf(env.drawn.sessionToken) !in s.sessionsByHash
  {
    var user := Above(s.users.Keys);
    var session := Above(s.sessions.Keys);
    var hashes := set h | h in s.sessionsByHash :: h.secret;
    var token := Above(hashes);
    assert HashOf(token) in s.sessionsByHash ==> HashOf(token).secret in hashes;
    env := Env(0, true, New(user, 0, session, 0, 0, 0, token, 0, []));
  }

  lemma AppendStep(cfg: Config, y: Sys, actions: seq<Action>, a: Action)
    requires Possible(cfg, y, actions) && Enabled(Trace(cfg, y, actions), a)
    ensures Possible(cfg, y, actions + [a]) && Trace(cfg, y, actions + [a]) == Next(cfg, Trace(cfg, y, actions), a)
  {
    hide Next, Enabled;
    assert (actions + [a])[..|actions|] == actions;
  }

  lemma CarryingLogin(cfg: Config, s: Store, pc: Pc, consumed: seq<Flow>, env: Env, id: UserId)
    requires Carries(cfg, pc, id) && (pc.Linking? || pc.Issuing?) && id in s.users
    requires HashOf(env.drawn.sessionToken) !in s.sessionsByHash
    ensures var e := ClientStep(cfg, s, pc, consumed, env);
      && id in e.store.users && Carries(cfg, e.pc, id)
      && (pc.Issuing? ==> e.pc.Recording?) && (pc.Linking? ==> e.pc.Issuing?)
  {
    hide IsOwnerEmail, PermissionsFor, ProfileObjection, UpsertIdentity, EmailKey, IdleDeadline;
    var u := HeldUser(pc).value;
    RecordWritesLeaveUsers(s, Identity(u.id, "email", u.email, u.email, u.verified), Credential(0, 0, None, None),
                           NewSession(cfg, u, "email", env));
  }

  lemma CarryingRecord(cfg: Config, s: Store, pc: Pc, consumed: seq<Flow>, env: Env, id: UserId)
    requires Carries(cfg, pc, id) && pc.Recording? && id in s.users
    ensures var e := ClientStep(cfg, s, pc, consumed, env);
      id in e.store.users && !Down(e.store, id)
  {
    hide EmailKey;
  }

  /** Where the next step of a client that carries the record leads. */
  lemma CarryingStep(cfg: Config, y: Sys, c: Client, env: Env, id: UserId)
    requires c in y.clients && Carries(cfg, y.clients[c], id) && id in y.store.users
    requires HashOf(env.drawn.sessionToken) !in y.store.sessionsByHash
    ensures var y' := Next(cfg, y, Advance(c, env));
      && id in y'.store.users && c in y'.clients
      && (y.clients[c].Recording? ==> !Down(y'.store, id))
      && (y.clients[c].Issuing? ==> y'.clients[c].Recording? && Carries(cfg, y'.clients[c], id))
      && (y.clients[c].Linking? ==> y'.clients[c].Issuing? && Carries(cfg, y'.clients[c], id))
  {
    hide ClientStep, Carries, Down;
    var pc := y.clients[c];
    HoldsSomething(cfg, pc, id);
    if pc.Recording? {
      CarryingRecord(cfg, y.store, pc, y.consumed, env, id);
    } else {
      CarryingLogin(cfg, y.store, pc, y.consumed, env, id);
    }
  }

  function StepsLeft(pc: Pc): nat {
    match pc case Linking(_, _) => 3 case Issuing(_, _) => 2 case _ => 1
  }

  /** The client's own steps undo the ban. */
  lemma {:induction false} CarriedIsUndone(cfg: Config, y: Sys, done: seq<Action>, c: Client, id: UserId)
    returns (actions: seq<Action>)
    requires Possible(cfg, y, done) && NotReinstating(done, id)
    requires var z := Trace(cfg, y, done); c in z.clients && Carries(cfg, z.clients[c], id) && id in z.store.users
    ensures Possible(cfg, y, actions) && NotReinstating(actions, id) && !Down(Trace(cfg, y, actions).store, id)
    decreases StepsLeft(Trace(cfg, y, done).clients[c])
  {
    hide Possible, Trace, Next, Carries, Down;
    var z := Trace(cfg, y, done);
    var env := UnusedValues(z.store);
    actions := done + [Advance(c, env)];
    AppendStep(cfg, y, done, Advance(c, env));
    CarryingStep(cfg, z, c, env, id);
    HoldsSomething(cfg, z.clients[c], id);
    if !z.clients[c].Recording? {
      actions := CarriedIsUndone(cfg, y, actions, c, id);
    }
  }

  lemma HoldsSomething(cfg: Config, pc: Pc, id: UserId)
    requires Carries(cfg, pc, id)
    ensures pc.Linking? || pc.Issuing? || pc.Recording?
  {
  }

  /** The ban stands whatever the clients and the rest of the system do, short of reinstating. */
  ghost predicate Stands(cfg: Config, y: Sys, id: UserId) {
    forall actions :: Possible(cfg, y, actions) && NotReinstating(actions, id) ==>
      Down(Trace(cfg, y, actions).store, id)
  }

  /** A ban or disabling stands in every interleaving if and only if no login is between reading
      an active record of the user and writing it back. */
  lemma BanStandsIff(cfg: Config, y: Sys, id: UserId)
    requires S.Keyed(y.store) && Down(y.store, id)
    ensures Stands(cfg, y, id) <==> NobodyCarries(cfg, y.clients, id)
  {
    hide S.Keyed, Possible, Trace, Carries, Down, NotReinstating;
    if NobodyCarries(cfg, y.clients, id) {
      forall actions | Possible(cfg, y, actions) && NotReinstating(actions, id)
        ensures Down(Trace(cfg, y, actions).store, id)
      {
        UncarriedStands(cfg, y, actions, id);
      }
    } else {
      var c :| c in y.clients && Carries(cfg, y.clients[c], id);
      NothingDone(cfg, y, id);
      var actions := CarriedIsUndone(cfg, y, [], c, id);
    }
  }

  lemma NothingDone(cfg: Config, y: Sys, id: UserId)
    requires Down(y.store, id)
    ensures Possible(cfg, y, []) && NotReinstating([], id) && Trace(cfg, y, []) == y && id in y.store.users
  {
  }

  /** The recording step restores the whole record read, whatever has been written since: its
      role as well as its status. */
  lemma RecordingRestores(cfg: Config, y: Sys, c: Client, env: Env)
    requires PcOf(y, c).Recording? && PcOf(y, c).user.id in y.store.users
    ensures var u := PcOf(y, c).user;
      Next(cfg, y, Advance(c, env)).store.users
        == y.store.users[u.id := u.(lastLoginAt := Some(env.now), updatedAt := env.now)]
  {
  }
}

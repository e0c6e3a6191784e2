/** A client consuming a link or a social state whose steps nothing interleaves does exactly what the
    call does as one step. */
module FlowRefinement {
  import opened Prelude
  import opened Permissions
  import opened AuthModels
  import opened AuthStore
  import opened AuthCalls
  import opened FlowProtocol

  function Stage(pc: Pc): nat {
    match pc
    case Open(_, _) => 6
    case Opened(_) => 5
    case Creating(_, _) => 4
    case Linking(_, _) => 3
    case Issuing(_, _) => 2
    case Recording(_, _) => 1
    case OpenState(_, _, _) => 2
    case StateRead(_, _, _, _) => 1
    case _ => 0
  }

  /** Each step moves the client on. */
  lemma Progress(cfg: Config, s: Store, pc: Pc, consumed: seq<Flow>, env: Env)
    requires !AtRest(pc)
    ensures Stage(ClientStep(cfg, s, pc, consumed, env).pc) < Stage(pc)
  {
    hide ConsumeFlow, UserByEmail, CreateUser, CreateSession, UpsertIdentity, RecordLogin, ProfileObjection, NewUser,
      NewSession, FlowByHash, Consumable, NonceMatches, IsOwnerEmail;
  }

  function Log(consumed: seq<Flow>, e: Effect): seq<Flow> {
    if e.used.Some? then consumed + [e.used.value] else consumed
  }

  /** The client's steps, one after the other, until it rests. */
  function Alone(cfg: Config, s: Store, pc: Pc, consumed: seq<Flow>, env: Env): (Store, Pc)
    decreases Stage(pc)
  {
    if AtRest(pc) then (s, pc)
    else
      Progress(cfg, s, pc, consumed, env);
      var e := ClientStep(cfg, s, pc, consumed, env);
      Alone(cfg, e.store, e.pc, Log(consumed, e), env)
  }

  lemma AloneSteps(cfg: Config, s: Store, pc: Pc, consumed: seq<Flow>, env: Env)
    requires !AtRest(pc)
    ensures var e := ClientStep(cfg, s, pc, consumed, env);
      Alone(cfg, s, pc, consumed, env) == Alone(cfg, e.store, e.pc, Log(consumed, e), env)
  {
    hide ClientStep;
  }

  lemma AloneRests(cfg: Config, s: Store, pc: Pc, consumed: seq<Flow>, env: Env)
    requires AtRest(pc)
    ensures Alone(cfg, s, pc, consumed, env) == (s, pc)
  {
  }

  /** The outcome of a client agrees with the answer of a login. */
  predicate Answers(end: (Store, Pc), call: (Store, Res<Session>)) {
    end == (call.0, if call.1.Ok? then LoggedIn(call.1.value) else Refused)
  }

  lemma AloneRecords(cfg: Config, s: Store, u: User, x: Session, consumed: seq<Flow>, env: Env)
    ensures var (s1, recorded) := RecordLogin(s, u, env.now);
      Alone(cfg, s, Recording(u, x), consumed, env) == (s1, if recorded.Ok? then LoggedIn(x) else Refused)
  {
    hide Alone, EmailKey;
    AloneSteps(cfg, s, Recording(u, x), consumed, env);
    var s1 := RecordLogin(s, u, env.now).0;
    AloneRests(cfg, s1, LoggedIn(x), consumed, env);
    AloneRests(cfg, s1, Refused, consumed, env);
  }

  lemma AloneIssues(cfg: Config, s: Store, at: nat, u: User, consumed: seq<Flow>, env: Env)
    ensures Answers(Alone(cfg, s, Issuing(at, u), consumed, env), LoginWith(cfg, s, u, "email", env))
  {
    hide Alone, RecordLogin, NewSession, ProfileObjection, CreateSession;
    AloneSteps(cfg, s, Issuing(at, u), consumed, env);
    var x := NewSession(cfg, u, "email", env);
    SessionCreated(s, x);
    var s1 := CreateSession(s, x).0;
    AloneRests(cfg, s, Refused, consumed, env);
    AloneRests(cfg, s1, Refused, consumed, env);
    AloneRecords(cfg, s1, u, x, consumed, env);
    if ProfileObjection(cfg, u) == None {
      if CreateSession(s, x).1.Ok? {
        assert FinishLogin(cfg, s, u, "email", env).0 == RecordLogin(s1, u, env.now).0;
      } else {
        assert FinishLogin(cfg, s, u, "email", env).0 == s1;
      }
    }
  }

  lemma SessionCreated(s: Store, x: Session)
    ensures CreateSession(s, x).1.Ok? ==> CreateSession(s, x).1.value == x
  {
  }

  lemma AloneCreates(cfg: Config, s: Store, at: nat, email: string, consumed: seq<Flow>, env: Env)
    ensures var role := if cfg.profile == SingleOwner then Owner else Role.User;
      var (s1, created) := CreateUserCall(cfg, s, email, role, "", true, env);
      Answers(Alone(cfg, s, Creating(at, email), consumed, env),
              if created.Err? then (s1, Err(created.error)) else LoginWith(cfg, s1, created.value, "email", env))
  {
    hide Alone, Answers, CreateUser, UpsertIdentity, LoginWith, IsOwnerEmail;
    AloneSteps(cfg, s, Creating(at, email), consumed, env);
    AloneRests(cfg, s, Refused, consumed, env);
    RefusalAnswers(s, AuthorizationDenied(NotOwner));
    RefusalAnswers(s, ValidationError(InvalidEmail));
    if cfg.normalize(email).Some? {
      var u := NewUser(cfg, cfg.normalize(email).value, if cfg.profile == SingleOwner then Owner else Role.User, true,
                       env);
      var (s1, created) := CreateUser(s, u);
      UserCreated(s, u);
      AloneRests(cfg, s1, Refused, consumed, env);
      var s2 := UpsertIdentity(s1, Identity(u.id, "email", u.email, u.email, u.verified));
      AloneSteps(cfg, s1, Linking(at, u), consumed, env);
      AloneIssues(cfg, s2, at, u, consumed, env);
      if created.Err? {
        RefusalAnswers(s1, created.error);
      }
    }
  }

  lemma RefusalAnswers(s: Store, e: Error)
    ensures Answers((s, Refused), (s, Err(e)))
  {
  }

  lemma UserCreated(s: Store, u: User)
    ensures CreateUser(s, u).1.Ok? ==> CreateUser(s, u).1.value == u
  {
    hide EmailKey;
  }

  /** A magic link alone. */
  lemma SoloLinkIsAtomic(cfg: Config, s: Store, token: Secret, consumed: seq<Flow>, env: Env)
    ensures Answers(Alone(cfg, s, Open(MagicLink, token), consumed, env), ConsumeMagicLink(cfg, s, token, env))
  {
    hide Alone, Answers, ConsumeFlow, UserByEmail, LoginWith, CreateUserCall;
    AloneSteps(cfg, s, Open(MagicLink, token), consumed, env);
    var (s1, f) := ConsumeFlow(s, HashOf(token), MagicLink, "email", env.now);
    AloneRests(cfg, s1, Refused, consumed, env);
    RefusalAnswers(s1, AuthenticationFailed(InvalidMagicLink));
    if f.Some? {
      var log := consumed + [f.value];
      AloneSteps(cfg, s1, Opened(|consumed|), log, env);
      AloneRests(cfg, s1, Refused, log, env);
      if f.value.email.Some? && f.value.email.value != "" {
        var email := f.value.email.value;
        AloneCreates(cfg, s1, |consumed|, email, log, env);
        var found := UserByEmail(s1, email);
        if found.Some? {
          AloneIssues(cfg, s1, |consumed|, found.value, log, env);
        }
      }
    }
  }

  /** The consuming half of a social state. */
  lemma AloneUses(cfg: Config, s: Store, provider: string, state: Secret, nonce: Option<Secret>, read: Flow,
                  consumed: seq<Flow>, env: Env)
    ensures var (s1, f) := ConsumeFlow(s, HashOf(state), OAuth, provider, env.now);
      Alone(cfg, s, StateRead(provider, state, nonce, read), consumed, env)
        == (s1, if f.Some? then StateUsed(provider, state, nonce, f.value) else Refused)
  {
    hide Alone, ConsumeFlow;
    AloneSteps(cfg, s, StateRead(provider, state, nonce, read), consumed, env);
    var (s1, f) := ConsumeFlow(s, HashOf(state), OAuth, provider, env.now);
    if f.Some? {
      AloneRests(cfg, s1, StateUsed(provider, state, nonce, f.value), consumed + [f.value], env);
    } else {
      AloneRests(cfg, s1, Refused, consumed, env);
    }
  }

  /** A social state alone. */
  lemma SoloStateIsAtomic(cfg: Config, s: Store, provider: string, state: Secret, nonce: Option<Secret>,
                          consumed: seq<Flow>, env: Env)
    ensures var (s1, r) := ConsumeSocialState(cfg, s, provider, state, nonce, env);
      Alone(cfg, s, OpenState(provider, state, nonce), consumed, env)
        == (s1, if r.Ok? then StateUsed(provider, state, nonce, r.value) else Refused)
  {
    hide Alone, ConsumeFlow, FlowByHash, Consumable, NonceMatches;
    AloneSteps(cfg, s, OpenState(provider, state, nonce), consumed, env);
    AloneRests(cfg, s, Refused, consumed, env);
    var found := FlowByHash(s, HashOf(state));
    if found == None || !Consumable(found.value, OAuth, provider, env.now) || !NonceMatches(found.value, nonce) {
      assert ConsumeSocialState(cfg, s, provider, state, nonce, env).0 == s;
    } else {
      AloneUses(cfg, s, provider, state, nonce, found.value, consumed, env);
      var (s1, f) := ConsumeFlow(s, HashOf(state), OAuth, provider, env.now);
      assert ConsumeSocialState(cfg, s, provider, state, nonce, env).0 == s1;
      assert ConsumeSocialState(cfg, s, provider, state, nonce, env).1.Ok? <==> f.Some?;
    }
  }

  /** The consumption of any other flow alone. */
  lemma SoloConsumptionIsAtomic(cfg: Config, s: Store, kind: FlowKind, token: Secret, consumed: seq<Flow>, env: Env)
    requires kind != MagicLink
    ensures var (s1, f) := ConsumeFlow(s, HashOf(token), kind, "email", env.now);
      Alone(cfg, s, Open(kind, token), consumed, env) == (s1, if f.Some? then Consumed(|consumed|) else Refused)
  {
    hide Alone, ConsumeFlow;
    AloneSteps(cfg, s, Open(kind, token), consumed, env);
    var (s1, f) := ConsumeFlow(s, HashOf(token), kind, "email", env.now);
    if f.Some? {
      AloneRests(cfg, s1, Consumed(|consumed|), consumed + [f.value], env);
    } else {
      AloneRests(cfg, s1, Refused, consumed, env);
    }
  }
}

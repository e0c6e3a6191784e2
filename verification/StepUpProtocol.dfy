/** Any number of clients verifying sessions and stepping up, interleaved storage call by storage
    call with each other and with everything else the services do. */
module StepUpProtocol {
  import opened Prelude
  import opened Permissions
  import opened AuthModels
  import opened AuthStore
  import opened AuthCalls
  import opened StorageOps

  type Client = nat

  /** The call a client makes: `verify_session`, `require_aal2`, or a step-up. */
  datatype Goal = Plain(permission: string) | Aal2 | WithTotp(code: string) | WithRecovery(recovery: Secret)

  /** What a client presents: a session token, and what it asks for. */
  datatype Ask = Ask(token: Secret, goal: Goal)

  /** What a step-up spends, and what was presented for it: a recovery code, or a TOTP code
      matched at time `at` under the secret. */
  datatype Payment =
    | ByCode(code: CodeId, recovery: Secret)
    | ByTotp(factor: FactorId, counter: int, secret: Secret, digits: string, at: Time)

  /** A session raised to the second level, with what the client had presented and the place of
      the payment in the log. */
  datatype Raise = Raise(client: Client, ask: Ask, session: SessionId, user: UserId, mark: nat)

  /** Where a client stands between two storage calls. */
  datatype Pc =
    | Idle
    | Start(token: Secret, goal: Goal)
    | Found(session: Session, goal: Goal, at: Time)
    | Touching(principal: Principal, goal: Goal, at: Time)
    | Verified(principal: Principal, goal: Goal)
    | Trying(principal: Principal, code: string, left: seq<Factor>)
    | Spending(principal: Principal, codeId: CodeId, recovery: Secret)
    | Paid(principal: Principal, mark: nat)
    | Passed(principal: Principal, goal: Goal)
    | SteppedUp(principal: Principal)
    | Refused

  /** `asked` holds what each client presented when its current call began. */
  datatype Sys = Sys(store: Store, clients: map<Client, Pc>, asked: map<Client, Ask>, marks: seq<Payment>,
                     raises: seq<Raise>)

  function PcOf(y: Sys, c: Client): Pc {
    if c in y.clients then y.clients[c] else Idle
  }

  function AskOf(asked: map<Client, Ask>, c: Client): Ask {
    if c in asked then asked[c] else Ask(0, Aal2)
  }

  // ----- The steps of a client -----

  function ReadSession(s: Store, token: Secret, goal: Goal, now: Time): Pc {
    match SessionByHash(s, HashOf(token))
    case None => Refused
    case Some(x) => if x.revokedAt.Some? || Expired(x, now) then Refused else Found(x, goal, now)
  }

  function Wanted(goal: Goal): string {
    if goal.Plain? then goal.permission else ""
  }

  function ReadUser(cfg: Config, s: Store, x: Session, goal: Goal, at: Time): Pc {
    if x.userId !in s.users || s.users[x.userId].status != Active then Refused
    else if Wanted(goal) != "" && !Allows(x.permissions, Wanted(goal)) then Refused
    else if TouchDue(cfg, x, at) then Touching(Principal(s.users[x.userId], x), goal, at)
    else Verified(Principal(s.users[x.userId], x), goal)
  }

  /** After verification: answer, or list what a step-up can spend. */
  function Proceed(s: Store, p: Principal, goal: Goal, allowed: bool): Pc {
    match goal
    case Plain(_) => Passed(p, goal)
    case Aal2 => if p.session.assurance == AAL2 then Passed(p, goal) else Refused
    case WithTotp(code) => if allowed then Trying(p, code, FactorsOf(s, p.user.id)) else Refused
    case WithRecovery(code) =>
      if !allowed then Refused
      else
        match FindCode(CodesOf(s, p.user.id), HashOf(code))
        case None => Refused
        case Some(c) => Spending(p, c.id, code)
  }

  /** The outcome of one step: the storage, the new place, a payment made, a session raised. */
  datatype Effect = Effect(store: Store, pc: Pc, mark: Option<Payment>, raised: Option<SessionId>)

  function TouchStep(cfg: Config, s: Store, p: Principal, goal: Goal, at: Time): Effect {
    var (s1, y) := TouchSession(s, p.session.id, at, IdleDeadline(cfg, at));
    Effect(s1, if y == None then Refused else Verified(Principal(p.user, y.value), goal), None, None)
  }

  /** One turn of the loop of `verify_totp`. */
  function TryStep(cfg: Config, s: Store, p: Principal, code: string, left: seq<Factor>, marks: nat, now: Time): Effect
  {
    if left == [] then Effect(s, Refused, None, None)
    else if !Usable(cfg, s, left[0], code, now) then Effect(s, Trying(p, code, left[1..]), None, None)
    else
      var counter := CodeCounter(cfg, s, left[0], code, now).value;
      var (s1, marked) := MarkCounter(s, left[0].id, counter, now);
      if marked == None then Effect(s1, Trying(p, code, left[1..]), None, None)
      else Effect(s1, Paid(p, marks), Some(ByTotp(left[0].id, counter, s.vault[left[0].id], code, now)), None)
  }

  function SpendStep(s: Store, p: Principal, id: CodeId, code: Secret, marks: nat, now: Time): Effect {
    var (s1, marked) := MarkCode(s, id, now);
    if marked.Err? then Effect(s1, Refused, None, None) else Effect(s1, Paid(p, marks), Some(ByCode(id, code)), None)
  }

  function RaiseStep(s: Store, p: Principal, now: Time): Effect {
    var (s1, y) := SetAssurance(s, p.session.id, AAL2, now);
    if y == None then Effect(s1, Refused, None, None)
    else Effect(s1, SteppedUp(Principal(p.user, y.value)), None, Some(p.session.id))
  }

  function ClientStep(cfg: Config, s: Store, pc: Pc, marks: nat, env: Env): Effect {
    match pc
    case Start(token, goal) => Effect(s, ReadSession(s, token, goal, env.now), None, None)
    case Found(x, goal, at) => Effect(s, ReadUser(cfg, s, x, goal, at), None, None)
    case Touching(p, goal, at) => TouchStep(cfg, s, p, goal, at)
    case Verified(p, goal) => Effect(s, Proceed(s, p, goal, env.allowed), None, None)
    case Trying(p, code, left) => TryStep(cfg, s, p, code, left, marks, env.now)
    case Spending(p, id, code) => SpendStep(s, p, id, code, marks, env.now)
    case Paid(p, _) => RaiseStep(s, p, env.now)
    case _ => Effect(s, pc, None, None)
  }

  // ----- The system -----

  datatype Action =
    | Begin(client: Client, token: Secret, goal: Goal)
    | Advance(client: Client, env: Env)
    | Environment(op: Op, env: Env)

  predicate AtRest(pc: Pc) {
    pc.Idle? || pc.Passed? || pc.SteppedUp? || pc.Refused?
  }

  predicate Enabled(y: Sys, a: Action) {
    match a
    case Begin(c, _, _) => AtRest(PcOf(y, c))
    case Advance(_, _) => true
    case Environment(op, _) => AsIssued(y.store, op) && !ByStepUp(op)
  }

  function RaiseLog(c: Client, asked: map<Client, Ask>, pc: Pc, e: Effect): seq<Raise> {
    if e.raised.Some? && pc.Paid? then [Raise(c, AskOf(asked, c), e.raised.value, pc.principal.user.id, pc.mark)]
    else []
  }

  function Next(cfg: Config, y: Sys, a: Action): Sys {
    match a
    case Begin(c, token, goal) =>
      y.(clients := y.clients[c := Start(token, goal)], asked := y.asked[c := Ask(token, goal)])
    case Advance(c, env) =>
      var e := ClientStep(cfg, y.store, PcOf(y, c), |y.marks|, env);
      Sys(e.store, y.clients[c := e.pc], y.asked, y.marks + (if e.mark.Some? then [e.mark.value] else []),
          y.raises + RaiseLog(c, y.asked, PcOf(y, c), e))
    case Environment(op, env) => y.(store := Apply(cfg, y.store, op, env))
  }

  function Trace(cfg: Config, y: Sys, actions: seq<Action>): Sys {
    if actions == [] then y else Next(cfg, Trace(cfg, y, actions[..|actions| - 1]), actions[|actions| - 1])
  }

  predicate Possible(cfg: Config, y: Sys, actions: seq<Action>) {
    actions != [] ==>
      && Possible(cfg, y, actions[..|actions| - 1])
      && Enabled(Trace(cfg, y, actions[..|actions| - 1]), actions[|actions| - 1])
  }

  /** Nothing in progress and nothing logged; `base` are the sessions already raised. */
  ghost predicate Initial(base: set<SessionId>, y: Sys) {
    && Keyed(y.store) && y.clients == map[] && y.marks == [] && y.raises == []
    && (forall id :: id in y.store.sessions && y.store.sessions[id].assurance == AAL2 ==> id in base)
  }

  // ----- The invariant -----

  /** The payment has been taken. */
  predicate Spent(s: Store, m: Payment) {
    match m
    case ByCode(id, _) => id in s.codes && s.codes[id].usedAt.Some?
    case ByTotp(id, counter, _, _, _) =>
      id in s.factors && s.factors[id].lastUsedCounter.Some? && counter <= s.factors[id].lastUsedCounter.value
  }

  /** `n` was made after `m`: another code, another factor, or a later counter. */
  predicate Follows(m: Payment, n: Payment) {
    match n
    case ByCode(id, _) => m.ByCode? ==> m.code != id
    case ByTotp(id, counter, _, _, _) => m.ByTotp? && m.factor == id ==> m.counter < counter
  }

  /** What was presented is what the stored record asks for: the code with its hash, or the
      digits the own secret of an enabled TOTP factor gives for the counter. */
  predicate Honest(cfg: Config, s: Store, m: Payment) {
    match m
    case ByCode(id, code) => id in s.codes && s.codes[id].codeHash == HashOf(code)
    case ByTotp(id, counter, secret, digits, at) =>
      && id in s.factors && s.factors[id].kind == Totp && s.factors[id].enabled
      && s.factors[id].secretHash == Some(HashOf(secret))
      && cfg.counterFor(secret, digits, at) == Some(counter)
  }

  /** The call a payment is for. */
  function Presented(m: Payment): Goal {
    match m
    case ByCode(_, code) => WithRecovery(code)
    case ByTotp(_, _, _, digits, _) => WithTotp(digits)
  }

  ghost predicate MarksOk(cfg: Config, s: Store, marks: seq<Payment>) {
    && (forall i :: 0 <= i < |marks| ==> Spent(s, marks[i]) && Honest(cfg, s, marks[i]))
    && (forall i, j :: 0 <= i < j < |marks| ==> Follows(marks[i], marks[j]))
  }

  /** Whose code or factor was spent. */
  function Payer(s: Store, m: Payment): Option<UserId> {
    match m
    case ByCode(id, _) => if id in s.codes then Some(s.codes[id].userId) else None
    case ByTotp(id, _, _, _, _) => if id in s.factors then Some(s.factors[id].userId) else None
  }

  predicate OwnedBy(s: Store, id: SessionId, user: UserId) {
    id in s.sessions && s.sessions[id].userId == user
  }

  predicate Bears(s: Store, id: SessionId, token: Secret) {
    id in s.sessions && s.sessions[id].tokenHash == HashOf(token)
  }

  /** The session raised is the one of the token presented, and what was presented with the token
      is paid for by the session's owner. */
  predicate RaiseOk(s: Store, marks: seq<Payment>, r: Raise) {
    && r.mark < |marks| && Payer(s, marks[r.mark]) == Some(r.user) && OwnedBy(s, r.session, r.user)
    && Presented(marks[r.mark]) == r.ask.goal && Bears(s, r.session, r.ask.token)
  }

  ghost predicate RaisesOk(s: Store, marks: seq<Payment>, raises: seq<Raise>) {
    && (forall i :: 0 <= i < |raises| ==> RaiseOk(s, marks, raises[i]))
    && (forall i, j :: 0 <= i < j < |raises| ==> raises[i].mark != raises[j].mark)
  }

  ghost predicate Upgraded(base: set<SessionId>, raises: seq<Raise>, id: SessionId) {
    id in base || exists i :: 0 <= i < |raises| && raises[i].session == id
  }

  ghost predicate LevelsOk(base: set<SessionId>, s: Store, raises: seq<Raise>) {
    forall id :: id in s.sessions && s.sessions[id].assurance == AAL2 ==> Upgraded(base, raises, id)
  }

  /** A session a client has read is stored, with the same owner. */
  ghost predicate HeldOk(base: set<SessionId>, s: Store, raises: seq<Raise>, x: Session) {
    OwnedBy(s, x.id, x.userId) && (x.assurance == AAL2 ==> Upgraded(base, raises, x.id))
  }

  ghost predicate PrincipalOk(base: set<SessionId>, s: Store, raises: seq<Raise>, p: Principal) {
    HeldOk(base, s, raises, p.session) && p.user.id == p.session.userId
  }

  ghost predicate Owned(s: Store, left: seq<Factor>, user: UserId) {
    forall i :: 0 <= i < |left| ==>
      && left[i].id in s.factors && s.factors[left[i].id].userId == user
      && s.factors[left[i].id].secretHash == left[i].secretHash && s.factors[left[i].id].kind == left[i].kind
      && (left[i].enabled ==> s.factors[left[i].id].enabled)
  }

  /** The code found for what was presented. */
  predicate FoundFor(s: Store, id: CodeId, user: UserId, code: Secret) {
    id in s.codes && s.codes[id].userId == user && s.codes[id].codeHash == HashOf(code)
  }

  /** The client is still about what it asked for. */
  predicate About(ask: Ask, pc: Pc) {
    match pc
    case Start(token, goal) => ask == Ask(token, goal)
    case Found(_, goal, _) => ask.goal == goal
    case Touching(_, goal, _) => ask.goal == goal
    case Verified(_, goal) => ask.goal == goal
    case Trying(_, code, _) => ask.goal == WithTotp(code)
    case Spending(_, _, code) => ask.goal == WithRecovery(code)
    case Passed(_, goal) => ask.goal == goal
    case _ => true
  }

  /** The session the client has in hand, once it has read one. */
  function HeldSession(pc: Pc): Option<SessionId> {
    if pc.Found? then Some(pc.session.id)
    else if pc.Idle? || pc.Start? || pc.Refused? then None
    else Some(pc.principal.session.id)
  }

  /** The client acts on the session of the token it presented, and has paid with what it
      presented beside it. */
  predicate AskOk(s: Store, marks: seq<Payment>, ask: Ask, pc: Pc) {
    && About(ask, pc) && (HeldSession(pc).Some? ==> Bears(s, HeldSession(pc).value, ask.token))
    && (pc.Paid? ==> pc.mark < |marks| && Presented(marks[pc.mark]) == ask.goal)
  }

  /** What a client relies on where it stands. */
  ghost predicate PcOk(base: set<SessionId>, s: Store, marks: seq<Payment>, raises: seq<Raise>, pc: Pc) {
    match pc
    case Found(x, _, _) => HeldOk(base, s, raises, x)
    case Touching(p, _, _) => PrincipalOk(base, s, raises, p)
    case Verified(p, _) => PrincipalOk(base, s, raises, p)
    case Trying(p, _, left) => PrincipalOk(base, s, raises, p) && Owned(s, left, p.user.id)
    case Spending(p, id, code) => PrincipalOk(base, s, raises, p) && FoundFor(s, id, p.user.id, code)
    case Paid(p, mark) => PrincipalOk(base, s, raises, p) && mark < |marks| && Payer(s, marks[mark]) == Some(p.user.id)
    case Passed(p, goal) => PrincipalOk(base, s, raises, p) && (goal == Aal2 ==> p.session.assurance == AAL2)
    case SteppedUp(p) => PrincipalOk(base, s, raises, p) && p.session.assurance == AAL2
    case _ => true
  }

  /** No two clients rely on one payment, nor on one that has raised a session. */
  ghost predicate PaidOnce(clients: map<Client, Pc>, raises: seq<Raise>) {
    && (forall c, d :: c in clients && d in clients && clients[c].Paid? && clients[d].Paid? && c != d ==>
          clients[c].mark != clients[d].mark)
    && (forall c, i :: c in clients && clients[c].Paid? && 0 <= i < |raises| ==> raises[i].mark != clients[c].mark)
  }

  ghost predicate ClientsOk(base: set<SessionId>, y: Sys) {
    forall c :: c in y.clients ==> PcOk(base, y.store, y.marks, y.raises, y.clients[c])
  }

  ghost predicate AsksOk(y: Sys) {
    forall c :: c in y.clients ==> AskOk(y.store, y.marks, AskOf(y.asked, c), y.clients[c])
  }

  ghost predicate Inv(cfg: Config, base: set<SessionId>, y: Sys) {
    && Keyed(y.store) && MarksOk(cfg, y.store, y.marks) && RaisesOk(y.store, y.marks, y.raises)
    && LevelsOk(base, y.store, y.raises)
    && ClientsOk(base, y) && AsksOk(y) && PaidOnce(y.clients, y.raises)
  }

  // ----- What the steps of others leave alone -----

  ghost predicate Extends<T>(a: seq<T>, b: seq<T>) {
    |a| <= |b| && b[..|a|] == a
  }

  lemma PayerStays(s: Store, s': Store, m: Payment)
    requires Grows(s, s')
    ensures Payer(s, m).Some? ==> Payer(s', m) == Payer(s, m)
    ensures Spent(s, m) ==> Spent(s', m)
  {
  }

  lemma HonestStays(cfg: Config, s: Store, s': Store, m: Payment)
    requires Grows(s, s') && Honest(cfg, s, m)
    ensures Honest(cfg, s', m)
  {
  }

  lemma BearerStays(s: Store, s': Store, id: SessionId, token: Secret)
    requires Grows(s, s') && Bears(s, id, token)
    ensures Bears(s', id, token)
  {
  }

  lemma AskStays(s: Store, s': Store, marks: seq<Payment>, marks': seq<Payment>, ask: Ask, pc: Pc)
    requires Grows(s, s') && Extends(marks, marks') && AskOk(s, marks, ask, pc)
    ensures AskOk(s', marks', ask, pc)
  {
    hide Grows, Bears, About, Presented;
    if HeldSession(pc).Some? {
      BearerStays(s, s', HeldSession(pc).value, ask.token);
    }
    if pc.Paid? {
      assert marks'[pc.mark] == marks'[..|marks|][pc.mark];
    }
  }

  lemma OwnerStays(s: Store, s': Store, id: SessionId, user: UserId)
    requires Grows(s, s') && OwnedBy(s, id, user)
    ensures OwnedBy(s', id, user)
  {
  }

  lemma UpgradedStays(base: set<SessionId>, raises: seq<Raise>, raises': seq<Raise>, id: SessionId)
    requires Upgraded(base, raises, id) && Extends(raises, raises')
    ensures Upgraded(base, raises', id)
  {
    if id !in base {
      var i :| 0 <= i < |raises| && raises[i].session == id;
      assert raises'[i] == raises'[..|raises|][i];
    }
  }

  lemma HeldStays(base: set<SessionId>, s: Store, s': Store, raises: seq<Raise>, raises': seq<Raise>, x: Session)
    requires Grows(s, s') && Extends(raises, raises') && HeldOk(base, s, raises, x)
    ensures HeldOk(base, s', raises', x)
  {
    hide Grows, OwnedBy, Upgraded, Extends;
    OwnerStays(s, s', x.id, x.userId);
    if x.assurance == AAL2 {
      UpgradedStays(base, raises, raises', x.id);
    }
  }

  lemma FactorsStay(s: Store, s': Store, left: seq<Factor>, id: CodeId, code: Secret, user: UserId)
    requires Grows(s, s')
    ensures Owned(s, left, user) ==> Owned(s', left, user)
    ensures FoundFor(s, id, user, code) ==> FoundFor(s', id, user, code)
  {
  }

  lemma PcStays(base: set<SessionId>, s: Store, s': Store, marks: seq<Payment>, marks': seq<Payment>,
                raises: seq<Raise>, raises': seq<Raise>, pc: Pc)
    requires Grows(s, s') && Extends(marks, marks') && Extends(raises, raises') && PcOk(base, s, marks, raises, pc)
    ensures PcOk(base, s', marks', raises', pc)
  {
    hide Grows, HeldOk, Payer, Owned, FoundFor;
    if pc.Found? {
      HeldStays(base, s, s', raises, raises', pc.session);
    } else if !(pc.Idle? || pc.Start? || pc.Refused?) {
      HeldStays(base, s, s', raises, raises', pc.principal.session);
    }
    if pc.Trying? {
      FactorsStay(s, s', pc.left, 0, 0, pc.principal.user.id);
    } else if pc.Spending? {
      FactorsStay(s, s', [], pc.codeId, pc.recovery, pc.principal.user.id);
    } else if pc.Paid? {
      PayerStays(s, s', marks[pc.mark]);
      assert marks'[pc.mark] == marks'[..|marks|][pc.mark];
    }
  }

  lemma LogsStay(cfg: Config, s: Store, s': Store, marks: seq<Payment>, marks': seq<Payment>, raises: seq<Raise>)
    requires Grows(s, s') && Extends(marks, marks') && MarksOk(cfg, s, marks) && RaisesOk(s, marks, raises)
    ensures MarksOk(cfg, s', marks) && RaisesOk(s', marks', raises)
  {
    hide Grows, Payer, Spent, Honest, Presented, OwnedBy, Bears, Follows;
    forall i | 0 <= i < |marks| ensures Spent(s', marks[i]) && Honest(cfg, s', marks[i]) {
      PayerStays(s, s', marks[i]);
      HonestStays(cfg, s, s', marks[i]);
    }
    forall i | 0 <= i < |raises| ensures RaiseOk(s', marks', raises[i]) {
      var r := raises[i];
      assert RaiseOk(s, marks, r);
      PayerStays(s, s', marks[r.mark]);
      OwnerStays(s, s', r.session, r.user);
      BearerStays(s, s', r.session, r.ask.token);
      assert marks'[r.mark] == marks'[..|marks|][r.mark];
    }
  }

  lemma LevelsStay(base: set<SessionId>, s: Store, s': Store, raises: seq<Raise>)
    requires SameLevels(s.sessions, s'.sessions) && LevelsOk(base, s, raises)
    ensures LevelsOk(base, s', raises)
  {
    hide Upgraded;
  }

  // ----- The environment and beginning calls -----

  lemma EnvironmentKeeps(cfg: Config, base: set<SessionId>, y: Sys, op: Op, env: Env)
    requires Inv(cfg, base, y) && AsIssued(y.store, op) && !ByStepUp(op)
    ensures Inv(cfg, base, Next(cfg, y, Environment(op, env)))
  {
    hide Keyed, AsIssued, Apply, Grows, SameLevels, MarksOk, RaisesOk, LevelsOk, PcOk, AskOk, PaidOnce;
    var s' := Apply(cfg, y.store, op, env);
    ApplyKeeps(cfg, y.store, op, env);
    assert Extends(y.marks, y.marks) && Extends(y.raises, y.raises);
    LogsStay(cfg, y.store, s', y.marks, y.marks, y.raises);
    LevelsStay(base, y.store, s', y.raises);
    forall c | c in y.clients ensures PcOk(base, s', y.marks, y.raises, y.clients[c]) {
      PcStays(base, y.store, s', y.marks, y.marks, y.raises, y.raises, y.clients[c]);
    }
    forall c | c in y.clients ensures AskOk(s', y.marks, AskOf(y.asked, c), y.clients[c]) {
      AskStays(y.store, s', y.marks, y.marks, AskOf(y.asked, c), y.clients[c]);
    }
  }

  lemma BeginKeeps(cfg: Config, base: set<SessionId>, y: Sys, c: Client, token: Secret, goal: Goal)
    requires Inv(cfg, base, y)
    ensures Inv(cfg, base, Next(cfg, y, Begin(c, token, goal)))
  {
    hide Keyed, MarksOk, RaisesOk, LevelsOk, HeldOk, Owned, Bears, Presented;
  }

  // ----- The steps of a client -----

  lemma ReadsAreHeld(base: set<SessionId>, s: Store, raises: seq<Raise>, h: Hash)
    requires Keyed(s) && LevelsOk(base, s, raises) && SessionByHash(s, h).Some?
    ensures HeldOk(base, s, raises, SessionByHash(s, h).value)
  {
    hide Upgraded;
  }

  lemma TouchedIsHeld(base: set<SessionId>, s: Store, raises: seq<Raise>, p: Principal, seen: Time, idle: Option<Time>)
    requires Keyed(s) && LevelsOk(base, s, raises) && PrincipalOk(base, s, raises, p)
    ensures var (s', y) := TouchSession(s, p.session.id, seen, idle);
      y.Some? ==> PrincipalOk(base, s', raises, Principal(p.user, y.value))
  {
    hide Upgraded;
    if Unrevoked(s, p.session.id) {
    }
  }

  lemma RaisedIsHeld(base: set<SessionId>, s: Store, raises: seq<Raise>, p: Principal, r: Raise, now: Time)
    requires Keyed(s) && PrincipalOk(base, s, raises, p) && r.session == p.session.id
    ensures var (s', y) := SetAssurance(s, p.session.id, AAL2, now);
      y.Some? ==> PrincipalOk(base, s', raises + [r], Principal(p.user, y.value)) && y.value.assurance == AAL2
  {
    if Unrevoked(s, p.session.id) {
      assert (raises + [r])[|raises|].session == p.session.id;
    }
  }

  lemma {:induction false} ListedFactorsAreOwned(s: Store, order: seq<FactorId>, user: UserId)
    requires Keyed(s)
    ensures Owned(s, FactorsIn(s, order, user), user)
  {
    if order != [] {
      ListedFactorsAreOwned(s, order[1..], user);
    }
  }

  lemma {:induction false} ListedCodesAreOwned(s: Store, order: seq<CodeId>, user: UserId)
    requires Keyed(s)
    ensures forall x :: x in CodesIn(s, order, user) ==> x.userId == user && x.id in s.codes && s.codes[x.id] == x
  {
    if order != [] {
      ListedCodesAreOwned(s, order[1..], user);
    }
  }

  lemma {:induction false} FoundCodeIsListed(listed: seq<RecoveryCode>, h: Hash)
    ensures FindCode(listed, h).Some? ==> FindCode(listed, h).value in listed && FindCode(listed, h).value.codeHash == h
  {
    if listed != [] {
      FoundCodeIsListed(listed[1..], h);
    }
  }

  lemma ProceedIsOk(base: set<SessionId>, s: Store, marks: seq<Payment>, raises: seq<Raise>, p: Principal, goal: Goal,
                    allowed: bool)
    requires Keyed(s) && PrincipalOk(base, s, raises, p)
    ensures PcOk(base, s, marks, raises, Proceed(s, p, goal, allowed))
  {
    hide Keyed, HeldOk, Owned;
    ListedFactorsAreOwned(s, s.factorOrder, p.user.id);
    if goal.WithRecovery? {
      var listed := CodesOf(s, p.user.id);
      ListedCodesAreOwned(s, s.codeOrder, p.user.id);
      FoundCodeIsListed(listed, HashOf(goal.recovery));
    }
  }

  /** A step of a client keeps it to what it presented. */
  lemma AskStep(cfg: Config, s: Store, marks: seq<Payment>, ask: Ask, pc: Pc, env: Env)
    requires Keyed(s) && AskOk(s, marks, ask, pc)
    ensures var e := ClientStep(cfg, s, pc, |marks|, env);
      AskOk(e.store, marks + (if e.mark.Some? then [e.mark.value] else []), ask, e.pc)
  {
    hide Keyed, Grows, Bears, MarkCounter, MarkCode, TouchSession, SetAssurance, SessionByHash, CodeCounter, Usable,
      FindCode, Allows, Expired, TouchDue;
    var e := ClientStep(cfg, s, pc, |marks|, env);
    ClientStepGrows(cfg, s, pc, |marks|, env);
    if HeldSession(pc).Some? {
      BearerStays(s, e.store, HeldSession(pc).value, ask.token);
    }
    if pc.Start? {
      ReadBearsToken(s, pc.token);
    } else if pc.Touching? {
      RewrittenKeepsId(s, pc.principal.session.id, pc.at, IdleDeadline(cfg, pc.at));
    } else if pc.Paid? {
      RewrittenKeepsId(s, pc.principal.session.id, env.now, None);
    }
  }

  lemma ReadBearsToken(s: Store, token: Secret)
    requires Keyed(s)
    ensures var x := SessionByHash(s, HashOf(token));
      x.Some? ==> Bears(s, x.value.id, token)
  {
  }

  lemma RewrittenKeepsId(s: Store, id: SessionId, at: Time, idle: Option<Time>)
    requires Keyed(s)
    ensures TouchSession(s, id, at, idle).1.Some? ==> TouchSession(s, id, at, idle).1.value.id == id
    ensures SetAssurance(s, id, AAL2, at).1.Some? ==> SetAssurance(s, id, AAL2, at).1.value.id == id
  {
    if Unrevoked(s, id) {
    }
  }

  /** The steps that neither pay nor raise. */
  lemma QuietStep(cfg: Config, base: set<SessionId>, s: Store, marks: seq<Payment>, raises: seq<Raise>, pc: Pc,
                  env: Env)
    requires Keyed(s) && LevelsOk(base, s, raises) && PcOk(base, s, marks, raises, pc)
    requires ClientStep(cfg, s, pc, |marks|, env).mark == None && ClientStep(cfg, s, pc, |marks|, env).raised == None
    ensures var e := ClientStep(cfg, s, pc, |marks|, env);
      Kept(s, e.store) && PcOk(base, e.store, marks, raises, e.pc) && !e.pc.Paid?
  {
    hide Keyed, LevelsOk, Kept, HeldOk, Owned, SessionByHash, TouchDue, Expired, Allows, TouchSession, MarkCounter,
      MarkCode, SetAssurance, Usable, CodeCounter, Proceed;
    KeptItself(s);
    match pc
    case Start(token, _) =>
      if SessionByHash(s, HashOf(token)).Some? {
        ReadsAreHeld(base, s, raises, HashOf(token));
      }
    case Found(x, _, _) => UserRead(s, x.userId);
    case Touching(p, _, at) =>
      TouchKept(s, p.session.id, at, IdleDeadline(cfg, at));
      TouchedIsHeld(base, s, raises, p, at, IdleDeadline(cfg, at));
    case Verified(p, goal) =>
      ProceedIsOk(base, s, marks, raises, p, goal, env.allowed); ProceedIsUnpaid(s, p, goal, env.allowed);
    case Trying(p, code, left) => QuietTry(cfg, base, s, marks, raises, p, code, left, env);
    case Spending(p, id, _) => MarkCodeKept(s, id, env.now);
    case Paid(p, _) => QuietRaise(s, p.session.id, env.now);
    case Idle =>
    case Passed(_, _) =>
    case SteppedUp(_) =>
    case Refused =>
  }

  lemma UserRead(s: Store, id: UserId)
    requires Keyed(s)
    ensures id in s.users ==> s.users[id].id == id
  {
  }

  lemma ProceedIsUnpaid(s: Store, p: Principal, goal: Goal, allowed: bool)
    ensures !Proceed(s, p, goal, allowed).Paid?
  {
  }

  lemma QuietTry(cfg: Config, base: set<SessionId>, s: Store, marks: seq<Payment>, raises: seq<Raise>, p: Principal,
                 code: string, left: seq<Factor>, env: Env)
    requires Keyed(s) && PrincipalOk(base, s, raises, p) && Owned(s, left, p.user.id)
    requires TryStep(cfg, s, p, code, left, |marks|, env.now).mark == None
    ensures var e := TryStep(cfg, s, p, code, left, |marks|, env.now);
      Kept(s, e.store) && PcOk(base, e.store, marks, raises, e.pc) && !e.pc.Paid?
  {
    hide Keyed, Kept, HeldOk, CodeCounter;
    KeptItself(s);
    assert left != [] ==> Owned(s, left[1..], p.user.id);
  }

  lemma QuietRaise(s: Store, id: SessionId, now: Time)
    requires Keyed(s) && SetAssurance(s, id, AAL2, now).1 == None
    ensures Kept(s, SetAssurance(s, id, AAL2, now).0)
  {
    hide Keyed, Grows, SameLevels;
    RaiseKept(s, id, now);
  }

  /** A matched code was matched under the factor's own secret. */
  lemma MatchedIsHonest(cfg: Config, s: Store, f: Factor, code: string, now: Time)
    requires CodeCounter(cfg, s, f, code, now).Some?
    ensures f.id in s.vault && f.secretHash == Some(HashOf(s.vault[f.id]))
    ensures cfg.counterFor(s.vault[f.id], code, now) == CodeCounter(cfg, s, f, code, now)
  {
  }

  /** A payment is new: another code, another factor, or a later counter than any before. */
  lemma PayingStep(cfg: Config, base: set<SessionId>, s: Store, marks: seq<Payment>, raises: seq<Raise>, pc: Pc,
                   env: Env)
    requires Keyed(s) && MarksOk(cfg, s, marks) && PcOk(base, s, marks, raises, pc)
    requires ClientStep(cfg, s, pc, |marks|, env).mark.Some?
    ensures var e := ClientStep(cfg, s, pc, |marks|, env);
      && Kept(s, e.store) && e.raised == None && Spent(e.store, e.mark.value) && Honest(cfg, e.store, e.mark.value)
      && (forall i :: 0 <= i < |marks| ==> Follows(marks[i], e.mark.value))
      && (pc.Trying? || pc.Spending?) && e.pc == Paid(pc.principal, |marks|)
      && Payer(e.store, e.mark.value) == Some(pc.principal.user.id)
  {
    hide Keyed, Kept, HeldOk, CodeCounter, TouchSession, SetAssurance, ReadSession, ReadUser, Proceed;
    if pc.Trying? {
      MarkCounterKept(s, pc.left[0].id, CodeCounter(cfg, s, pc.left[0], pc.code, env.now).value, env.now);
      MatchedIsHonest(cfg, s, pc.left[0], pc.code, env.now);
    } else if pc.Spending? {
      MarkCodeKept(s, pc.codeId, env.now);
    }
  }

  lemma RaisingStep(cfg: Config, base: set<SessionId>, s: Store, marks: seq<Payment>, raises: seq<Raise>, c: Client,
                    ask: Ask, pc: Pc, env: Env)
    requires Keyed(s) && PcOk(base, s, marks, raises, pc) && AskOk(s, marks, ask, pc)
    requires ClientStep(cfg, s, pc, |marks|, env).raised.Some?
    ensures var e := ClientStep(cfg, s, pc, |marks|, env);
      && pc.Paid? && e.mark == None && e.raised.value == pc.principal.session.id
      && Keyed(e.store) && Grows(s, e.store) && OnlyRaises(s.sessions, e.store.sessions, e.raised.value)
      && var r := Raise(c, ask, e.raised.value, pc.principal.user.id, pc.mark);
      RaiseOk(e.store, marks, r) && PcOk(base, e.store, marks, raises + [r], e.pc) && !e.pc.Paid?
  {
    hide Keyed, Grows, OnlyRaises, HeldOk, Payer, Presented, Bears, About, CodeCounter, TouchSession, SetAssurance,
      MarkCounter, MarkCode, ReadSession, ReadUser, Proceed, OwnedBy;
    if pc.Paid? {
      var p, r := pc.principal, Raise(c, ask, pc.principal.session.id, pc.principal.user.id, pc.mark);
      RaiseKept(s, p.session.id, env.now);
      RaisedIsHeld(base, s, raises, p, r, env.now);
      HeldIsOwned(base, s, raises, p.session);
      OwnerStays(s, SetAssurance(s, p.session.id, AAL2, env.now).0, p.session.id, p.session.userId);
      PayerStays(s, SetAssurance(s, p.session.id, AAL2, env.now).0, marks[pc.mark]);
      BearerStays(s, SetAssurance(s, p.session.id, AAL2, env.now).0, p.session.id, ask.token);
    }
  }

  lemma HeldIsOwned(base: set<SessionId>, s: Store, raises: seq<Raise>, x: Session)
    requires HeldOk(base, s, raises, x)
    ensures OwnedBy(s, x.id, x.userId)
  {
  }

  // ----- Every step keeps the invariant -----

  /** The clients after a step of `c`: the others stay where they stand. */
  lemma ClientsStay(base: set<SessionId>, y: Sys, c: Client, pc: Pc, s': Store, marks': seq<Payment>,
                    raises': seq<Raise>)
    requires ClientsOk(base, y) && Grows(y.store, s') && Extends(y.marks, marks') && Extends(y.raises, raises')
    requires PcOk(base, s', marks', raises', pc)
    ensures ClientsOk(base, Sys(s', y.clients[c := pc], y.asked, marks', raises'))
  {
    hide Grows, PcOk, Extends;
    var clients' := y.clients[c := pc];
    forall d | d in clients' ensures PcOk(base, s', marks', raises', clients'[d]) {
      if d != c {
        PcStays(base, y.store, s', y.marks, marks', y.raises, raises', y.clients[d]);
      }
    }
  }

  lemma PcOfOk(base: set<SessionId>, y: Sys, c: Client)
    requires ClientsOk(base, y)
    ensures PcOk(base, y.store, y.marks, y.raises, PcOf(y, c))
  {
  }

  lemma AskOfOk(y: Sys, c: Client)
    requires AsksOk(y)
    ensures AskOk(y.store, y.marks, AskOf(y.asked, c), PcOf(y, c))
  {
  }

  lemma AsksStay(cfg: Config, y: Sys, c: Client, env: Env)
    requires AsksOk(y) && Keyed(y.store)
    ensures AsksOk(Next(cfg, y, Advance(c, env)))
  {
    hide Keyed, Grows, AskOk, AskOf, PcOf, ClientStep;
    var e := ClientStep(cfg, y.store, PcOf(y, c), |y.marks|, env);
    var y' := Next(cfg, y, Advance(c, env));
    ClientStepGrows(cfg, y.store, PcOf(y, c), |y.marks|, env);
    AskOfOk(y, c);
    AskStep(cfg, y.store, y.marks, AskOf(y.asked, c), PcOf(y, c), env);
    forall d | d in y'.clients ensures AskOk(y'.store, y'.marks, AskOf(y'.asked, d), y'.clients[d]) {
      if d != c {
        assert y'.marks[..|y.marks|] == y.marks;
        AskStays(y.store, e.store, y.marks, y'.marks, AskOf(y.asked, d), y.clients[d]);
      }
    }
  }

  lemma QuietKeeps(cfg: Config, base: set<SessionId>, y: Sys, c: Client, env: Env)
    requires Inv(cfg, base, y)
    requires var e := ClientStep(cfg, y.store, PcOf(y, c), |y.marks|, env); e.mark == None && e.raised == None
    ensures Inv(cfg, base, Next(cfg, y, Advance(c, env)))
  {
    hide Keyed, Grows, SameLevels, MarksOk, RaisesOk, LevelsOk, PcOk, ClientsOk, AsksOk, ClientStep, PcOf;
    AsksStay(cfg, y, c, env);
    var e := ClientStep(cfg, y.store, PcOf(y, c), |y.marks|, env);
    PcOfOk(base, y, c);
    QuietStep(cfg, base, y.store, y.marks, y.raises, PcOf(y, c), env);
    LogsStay(cfg, y.store, e.store, y.marks, y.marks, y.raises);
    LevelsStay(base, y.store, e.store, y.raises);
    ClientsStay(base, y, c, e.pc, e.store, y.marks, y.raises);
    assert y.marks + [] == y.marks && y.raises + [] == y.raises;
  }

  lemma MarkAppends(cfg: Config, s: Store, s': Store, marks: seq<Payment>, m: Payment, raises: seq<Raise>)
    requires MarksOk(cfg, s', marks) && RaisesOk(s', marks + [m], raises) && Spent(s', m) && Honest(cfg, s', m)
    requires (forall i :: 0 <= i < |marks| ==> Follows(marks[i], m))
    ensures MarksOk(cfg, s', marks + [m])
  {
    hide Spent, Honest, Follows;
  }

  lemma PayingKeeps(cfg: Config, base: set<SessionId>, y: Sys, c: Client, env: Env)
    requires Inv(cfg, base, y)
    requires ClientStep(cfg, y.store, PcOf(y, c), |y.marks|, env).mark.Some?
    ensures Inv(cfg, base, Next(cfg, y, Advance(c, env)))
  {
    hide Keyed, Grows, SameLevels, MarksOk, RaisesOk, LevelsOk, ClientsOk, AsksOk, ClientStep, PcOf, Follows, Spent,
      Honest, PrincipalOk, Payer, PaidOnce;
    AsksStay(cfg, y, c, env);
    var pc := PcOf(y, c);
    var e := ClientStep(cfg, y.store, pc, |y.marks|, env);
    var marks' := y.marks + [e.mark.value];
    PcOfOk(base, y, c);
    PayingStep(cfg, base, y.store, y.marks, y.raises, pc, env);
    LogsStay(cfg, y.store, e.store, y.marks, marks', y.raises);
    MarkAppends(cfg, y.store, e.store, y.marks, e.mark.value, y.raises);
    LevelsStay(base, y.store, e.store, y.raises);
    PcStays(base, y.store, e.store, y.marks, y.marks, y.raises, y.raises, pc);
    ClientsStay(base, y, c, e.pc, e.store, marks', y.raises);
    PaidIsNew(cfg, base, y, c, e.pc);
    assert y.raises + [] == y.raises;
  }

  lemma PaidIsNew(cfg: Config, base: set<SessionId>, y: Sys, c: Client, pc: Pc)
    requires Inv(cfg, base, y) && pc.Paid? && pc.mark == |y.marks|
    ensures PaidOnce(y.clients[c := pc], y.raises)
  {
    hide Keyed, MarksOk, LevelsOk, HeldOk, Payer, OwnedBy, Owned, AsksOk, Presented, Bears, FoundFor;
    forall d | d in y.clients && y.clients[d].Paid? ensures y.clients[d].mark < |y.marks| {
      assert PcOk(base, y.store, y.marks, y.raises, y.clients[d]);
    }
    forall i | 0 <= i < |y.raises| ensures y.raises[i].mark < |y.marks| {
      assert RaiseOk(y.store, y.marks, y.raises[i]);
    }
  }

  lemma RaiseAppends(base: set<SessionId>, y: Sys, c: Client, pc: Pc, s': Store, r: Raise)
    requires PaidOnce(y.clients, y.raises) && RaisesOk(s', y.marks, y.raises) && RaiseOk(s', y.marks, r)
    requires c in y.clients && y.clients[c].Paid? && y.clients[c].mark == r.mark && !pc.Paid?
    ensures RaisesOk(s', y.marks, y.raises + [r]) && PaidOnce(y.clients[c := pc], y.raises + [r])
  {
    hide RaiseOk;
  }

  lemma LevelsRaise(base: set<SessionId>, s: Store, s': Store, raises: seq<Raise>, r: Raise)
    requires LevelsOk(base, s, raises) && OnlyRaises(s.sessions, s'.sessions, r.session)
    ensures LevelsOk(base, s', raises + [r])
  {
    forall id | id in s'.sessions && s'.sessions[id].assurance == AAL2 ensures Upgraded(base, raises + [r], id) {
      if id == r.session {
        assert (raises + [r])[|raises|].session == id;
      } else {
        assert (raises + [r])[..|raises|] == raises;
        UpgradedStays(base, raises, raises + [r], id);
      }
    }
  }

  lemma RaisingKeeps(cfg: Config, base: set<SessionId>, y: Sys, c: Client, env: Env)
    requires Inv(cfg, base, y)
    requires ClientStep(cfg, y.store, PcOf(y, c), |y.marks|, env).raised.Some?
    ensures Inv(cfg, base, Next(cfg, y, Advance(c, env)))
  {
    hide Keyed, Grows, OnlyRaises, MarksOk, RaisesOk, LevelsOk, ClientsOk, AsksOk, AskOk, AskOf, ClientStep, PcOk,
      PaidOnce, RaiseOk;
    AsksStay(cfg, y, c, env);
    var pc := PcOf(y, c);
    var e := ClientStep(cfg, y.store, pc, |y.marks|, env);
    PcOfOk(base, y, c);
    var ask := AskOf(y.asked, c);
    AskOfOk(y, c);
    RaisingStep(cfg, base, y.store, y.marks, y.raises, c, ask, pc, env);
    var r := Raise(c, ask, e.raised.value, pc.principal.user.id, pc.mark);
    var raises' := y.raises + [r];
    assert raises'[..|y.raises|] == y.raises;
    LogsStay(cfg, y.store, e.store, y.marks, y.marks, y.raises);
    LevelsRaise(base, y.store, e.store, y.raises, r);
    ClientsStay(base, y, c, e.pc, e.store, y.marks, raises');
    RaiseAppends(base, y, c, e.pc, e.store, r);
    assert y.marks + [] == y.marks;
  }

  lemma NextKeeps(cfg: Config, base: set<SessionId>, y: Sys, a: Action)
    requires Inv(cfg, base, y) && Enabled(y, a)
    ensures Inv(cfg, base, Next(cfg, y, a))
  {
    hide Inv, Next, ClientStep, AsIssued;
    match a
    case Begin(c, token, goal) => BeginKeeps(cfg, base, y, c, token, goal);
    case Environment(op, env) => EnvironmentKeeps(cfg, base, y, op, env);
    case Advance(c, env) =>
      var e := ClientStep(cfg, y.store, PcOf(y, c), |y.marks|, env);
      if e.mark.Some? {
        PayingKeeps(cfg, base, y, c, env);
      } else if e.raised.Some? {
        RaisingKeeps(cfg, base, y, c, env);
      } else {
        QuietKeeps(cfg, base, y, c, env);
      }
  }

  lemma {:induction false} TraceKeeps(cfg: Config, base: set<SessionId>, y: Sys, actions: seq<Action>)
    requires Inv(cfg, base, y) && Possible(cfg, y, actions)
    ensures Inv(cfg, base, Trace(cfg, y, actions))
    decreases |actions|
  {
    hide Inv, Next, Enabled;
    if actions != [] {
      TraceKeeps(cfg, base, y, actions[..|actions| - 1]);
      NextKeeps(cfg, base, Trace(cfg, y, actions[..|actions| - 1]), actions[|actions| - 1]);
    }
  }

  lemma InitialIsOk(cfg: Config, base: set<SessionId>, y: Sys)
    requires Initial(base, y)
    ensures Inv(cfg, base, y)
  {
    hide Keyed;
  }

  // ----- What every interleaving guarantees -----

  /** Each session is raised on a payment of its own: its owner's recovery code or factor, for the
      very code a client had presented with that session's token. What was presented matches the
      stored hash, or gives the counter under the factor's secret; no code is spent twice, and
      the accepted counters of a factor strictly increase. */
  lemma UpgradesArePaid(cfg: Config, base: set<SessionId>, start: Sys, actions: seq<Action>)
    requires Initial(base, start) && Possible(cfg, start, actions)
    ensures var y := Trace(cfg, start, actions);
      && (forall i, j :: 0 <= i < j < |y.raises| ==> y.raises[i].mark != y.raises[j].mark)
      && (forall i :: 0 <= i < |y.raises| ==> RaiseOk(y.store, y.marks, y.raises[i]))
      && (forall i :: 0 <= i < |y.marks| ==> Spent(y.store, y.marks[i]) && Honest(cfg, y.store, y.marks[i]))
      && (forall i, j :: 0 <= i < j < |y.marks| ==> Follows(y.marks[i], y.marks[j]))
  {
    hide Keyed, LevelsOk, ClientsOk, AsksOk, PaidOnce, Trace, Possible, RaiseOk, Follows, Spent, Honest;
    InitialIsOk(cfg, base, start);
    TraceKeeps(cfg, base, start, actions);
  }

  /** A session at the second level, or one `require_aal2` has let through, was there at the
      start or has been raised by a step-up that paid. */
  lemma Aal2WasPaidFor(cfg: Config, base: set<SessionId>, start: Sys, actions: seq<Action>)
    requires Initial(base, start) && Possible(cfg, start, actions)
    ensures var y := Trace(cfg, start, actions);
      && (forall id :: id in y.store.sessions && y.store.sessions[id].assurance == AAL2 ==>
          Upgraded(base, y.raises, id))
      && (forall c :: c in y.clients && y.clients[c].Passed? && y.clients[c].goal == Aal2 ==>
            Upgraded(base, y.raises, y.clients[c].principal.session.id))
  {
    hide Keyed, MarksOk, RaisesOk, AsksOk, PaidOnce, Trace, Possible, Upgraded, OwnedBy;
    InitialIsOk(cfg, base, start);
    TraceKeeps(cfg, base, start, actions);
    var y := Trace(cfg, start, actions);
    forall c | c in y.clients && y.clients[c].Passed? && y.clients[c].goal == Aal2
      ensures Upgraded(base, y.raises, y.clients[c].principal.session.id)
    {
      assert PcOk(base, y.store, y.marks, y.raises, y.clients[c]);
    }
  }

  // ----- Revocation -----

  lemma ClientStepGrows(cfg: Config, s: Store, pc: Pc, marks: nat, env: Env)
    requires Keyed(s)
    ensures Keyed(ClientStep(cfg, s, pc, marks, env).store) && Grows(s, ClientStep(cfg, s, pc, marks, env).store)
  {
    hide Keyed, Grows, SameLevels, OnlyRaises, TouchSession, MarkCounter, MarkCode, SetAssurance, CodeCounter,
      ReadSession, ReadUser, Proceed;
    KeptItself(s);
    if pc.Touching? {
      TouchKept(s, pc.principal.session.id, pc.at, IdleDeadline(cfg, pc.at));
    } else if pc.Trying? && pc.left != [] && Usable(cfg, s, pc.left[0], pc.code, env.now) {
      MarkCounterKept(s, pc.left[0].id, CodeCounter(cfg, s, pc.left[0], pc.code, env.now).value, env.now);
    } else if pc.Spending? {
      MarkCodeKept(s, pc.codeId, env.now);
    } else if pc.Paid? {
      RaiseKept(s, pc.principal.session.id, env.now);
    }
  }

  lemma NextGrows(cfg: Config, y: Sys, a: Action)
    requires Keyed(y.store) && Enabled(y, a)
    ensures Keyed(Next(cfg, y, a).store) && Grows(y.store, Next(cfg, y, a).store)
  {
    hide Keyed, Grows, SameLevels, ClientStep, Apply, AsIssued;
    KeptItself(y.store);
    match a
    case Begin(_, _, _) =>
    case Advance(c, env) => ClientStepGrows(cfg, y.store, PcOf(y, c), |y.marks|, env);
    case Environment(op, env) => ApplyKeeps(cfg, y.store, op, env);
  }

  /** In every interleaving a revoked session stays as it is, a raised one is never lowered, and
      used codes and counters stay used. */
  lemma {:induction false} TraceGrows(cfg: Config, y: Sys, actions: seq<Action>)
    requires Keyed(y.store) && Possible(cfg, y, actions)
    ensures Keyed(Trace(cfg, y, actions).store) && Grows(y.store, Trace(cfg, y, actions).store)
    decreases |actions|
  {
    hide Keyed, Grows, Next, Enabled;
    if actions == [] {
      KeptItself(y.store);
    } else {
      var before := Trace(cfg, y, actions[..|actions| - 1]);
      TraceGrows(cfg, y, actions[..|actions| - 1]);
      NextGrows(cfg, before, actions[|actions| - 1]);
      GrowsThrough(y.store, before.store, Trace(cfg, y, actions).store);
    }
  }

  /** The session is revoked, and the client's call has not read it. */
  predicate ShutOut(y: Sys, c: Client, id: SessionId) {
    id in y.store.sessions && y.store.sessions[id].revokedAt.Some? && HeldSession(PcOf(y, c)) != Some(id)
  }

  lemma ClientStaysOut(cfg: Config, s: Store, pc: Pc, marks: nat, env: Env, id: SessionId)
    requires Keyed(s) && id in s.sessions && s.sessions[id].revokedAt.Some? && HeldSession(pc) != Some(id)
    ensures HeldSession(ClientStep(cfg, s, pc, marks, env).pc) != Some(id)
  {
    hide UsersKeyed, FactorsKeyed, CodesKeyed, MarkCounter, MarkCode, Usable, CodeCounter, TouchDue, Allows, Expired,
      FindCode, CodesOf, FactorsOf;
  }

  lemma NextStaysOut(cfg: Config, y: Sys, a: Action, c: Client, id: SessionId)
    requires Keyed(y.store) && Enabled(y, a) && ShutOut(y, c, id)
    ensures ShutOut(Next(cfg, y, a), c, id)
  {
    hide Keyed, Grows, ClientStep, Apply, AsIssued;
    NextGrows(cfg, y, a);
    RevokedStays(y.store, Next(cfg, y, a).store, id);
    if a.Advance? && a.client == c {
      ClientStaysOut(cfg, y.store, PcOf(y, c), |y.marks|, a.env, id);
    }
  }

  lemma RevokedStays(s: Store, s': Store, id: SessionId)
    requires Grows(s, s') && id in s.sessions && s.sessions[id].revokedAt.Some?
    ensures id in s'.sessions && s'.sessions[id] == s.sessions[id]
  {
  }

  /** In every interleaving, no call that has not read a revoked session by now, and no later
      call, ever gets it verified. */
  lemma {:induction false} RevokedNeverVerifies(cfg: Config, y: Sys, actions: seq<Action>, c: Client, id: SessionId)
    requires Keyed(y.store) && Possible(cfg, y, actions) && ShutOut(y, c, id)
    ensures ShutOut(Trace(cfg, y, actions), c, id)
    decreases |actions|
  {
    hide Keyed, Next, Enabled, ShutOut;
    if actions != [] {
      RevokedNeverVerifies(cfg, y, actions[..|actions| - 1], c, id);
      TraceGrows(cfg, y, actions[..|actions| - 1]);
      NextStaysOut(cfg, Trace(cfg, y, actions[..|actions| - 1]), actions[|actions| - 1], c, id);
    }
  }

  /** The step that ends a password reset or a role change shuts every session the user holds
      out of all later calls, whatever runs beside it. */
  lemma RevokeAllIsForever(cfg: Config, y: Sys, owner: UserId, env: Env, actions: seq<Action>, c: Client, id: SessionId)
    requires Keyed(y.store) && OwnedBy(y.store, id, owner) && HeldSession(PcOf(y, c)) != Some(id)
    requires Possible(cfg, Next(cfg, y, Environment(RevokeAllOp(owner, None), env)), actions)
    ensures ShutOut(Trace(cfg, Next(cfg, y, Environment(RevokeAllOp(owner, None), env)), actions), c, id)
  {
    hide Keyed, Possible, Trace;
    var y1 := Next(cfg, y, Environment(RevokeAllOp(owner, None), env));
    NextGrows(cfg, y, Environment(RevokeAllOp(owner, None), env));
    RevokedNeverVerifies(cfg, y1, actions, c, id);
  }
}

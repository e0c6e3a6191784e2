/** A client whose steps nothing interleaves does exactly what the call does as one step. */
module StepUpRefinement {
  import opened Prelude
  import opened Permissions
  import opened AuthModels
  import opened AuthStore
  import opened AuthCalls
  import opened StepUpProtocol

  function Stage(pc: Pc): nat {
    match pc
    case Start(_, _) => 6
    case Found(_, _, _) => 5
    case Touching(_, _, _) => 4
    case Verified(_, _) => 3
    case Trying(_, _, _) => 2
    case Spending(_, _, _) => 2
    case Paid(_, _) => 1
    case _ => 0
  }

  function Left(pc: Pc): nat {
    if pc.Trying? then |pc.left| else 0
  }

  /** Each step moves the client on. */
  lemma Progress(cfg: Config, s: Store, pc: Pc, marks: nat, env: Env)
    requires !AtRest(pc)
    ensures var next := ClientStep(cfg, s, pc, marks, env).pc;
      Stage(next) < Stage(pc) || (Stage(next) == Stage(pc) && Left(next) < Left(pc))
  {
    hide SessionByHash, TouchSession, MarkCounter, MarkCode, SetAssurance, Usable, CodeCounter, FactorsOf, CodesOf,
      FindCode, Allows, Expired, TouchDue;
  }

  /** The client's steps, one after the other, until it rests. */
  function Alone(cfg: Config, s: Store, pc: Pc, marks: nat, env: Env): (Store, Pc)
    decreases Stage(pc), Left(pc)
  {
    if AtRest(pc) then (s, pc)
    else
      Progress(cfg, s, pc, marks, env);
      var e := ClientStep(cfg, s, pc, marks, env);
      Alone(cfg, e.store, e.pc, marks, env)
  }

  /** The outcome of a client agrees with the answer of the call. */
  predicate Answers(end: (Store, Pc), call: (Store, Res<Principal>)) {
    && end.0 == call.0
    && (call.1.Ok? ==> (end.1.Passed? || end.1.SteppedUp?) && end.1.principal == call.1.value)
    && (call.1.Err? ==> end.1 == Refused)
  }

  lemma AloneSteps(cfg: Config, s: Store, pc: Pc, marks: nat, env: Env)
    requires !AtRest(pc)
    ensures var e := ClientStep(cfg, s, pc, marks, env);
      Alone(cfg, s, pc, marks, env) == Alone(cfg, e.store, e.pc, marks, env)
  {
    hide ClientStep;
  }

  lemma AloneRests(cfg: Config, s: Store, pc: Pc, marks: nat, env: Env)
    requires AtRest(pc)
    ensures Alone(cfg, s, pc, marks, env) == (s, pc)
  {
  }

  /** The verification at the start of every call. */
  lemma AloneVerifies(cfg: Config, s: Store, token: Secret, goal: Goal, marks: nat, env: Env)
    ensures var (s1, p) := VerifySession(cfg, s, token, Wanted(goal), env.now);
      Alone(cfg, s, Start(token, goal), marks, env) == if p.Ok? then Alone(cfg, s1, Verified(p.value, goal), marks, env)
        else (s1, Refused)
  {
    hide Alone, SessionByHash, Expired, Allows, TouchSession, IdleDeadline, Wanted, TouchDue;
    var start := Start(token, goal);
    AloneSteps(cfg, s, start, marks, env);
    AloneRests(cfg, s, Refused, marks, env);
    var found := SessionByHash(s, HashOf(token));
    if found.Some? && found.value.revokedAt == None && !Expired(found.value, env.now) {
      var x := found.value;
      var pc := Found(x, goal, env.now);
      AloneSteps(cfg, s, pc, marks, env);
      if SessionObjection(s, found, Wanted(goal), env.now) == None && TouchDue(cfg, x, env.now) {
        AloneTouches(cfg, s, Principal(s.users[x.userId], x), goal, marks, env);
      }
    }
  }

  lemma AloneTouches(cfg: Config, s: Store, p: Principal, goal: Goal, marks: nat, env: Env)
    ensures var (s1, y) := TouchSession(s, p.session.id, env.now, IdleDeadline(cfg, env.now));
      Alone(cfg, s, Touching(p, goal, env.now), marks, env)
        == if y.Some? then Alone(cfg, s1, Verified(Principal(p.user, y.value), goal), marks, env) else (s1, Refused)
  {
    hide Alone, TouchSession, IdleDeadline;
    var s1 := TouchSession(s, p.session.id, env.now, IdleDeadline(cfg, env.now)).0;
    AloneSteps(cfg, s, Touching(p, goal, env.now), marks, env);
    AloneRests(cfg, s1, Refused, marks, env);
  }

  lemma AloneRaises(cfg: Config, s: Store, p: Principal, mark: nat, marks: nat, env: Env)
    ensures Answers(Alone(cfg, s, Paid(p, mark), marks, env), RaiseAssurance(s, p, env.now))
  {
    hide Alone, SetAssurance;
    AloneSteps(cfg, s, Paid(p, mark), marks, env);
    var (s1, y) := SetAssurance(s, p.session.id, AAL2, env.now);
    AloneRests(cfg, s1, if y == None then Refused else SteppedUp(Principal(p.user, y.value)), marks, env);
  }

  lemma {:induction false} AloneTries(cfg: Config, s: Store, p: Principal, code: string, left: seq<Factor>, marks: nat,
                                      env: Env)
    ensures var (s1, f) := VerifyTotpIn(cfg, s, left, code, env.now);
      if f.Ok? then Answers(Alone(cfg, s, Trying(p, code, left), marks, env), RaiseAssurance(s1, p, env.now))
      else Alone(cfg, s, Trying(p, code, left), marks, env) == (s1, Refused)
    decreases |left|
  {
    hide Alone, Answers, MarkCounter, CodeCounter, RaiseAssurance;
    AloneSteps(cfg, s, Trying(p, code, left), marks, env);
    if left == [] {
      AloneRests(cfg, s, Refused, marks, env);
    } else if !Usable(cfg, s, left[0], code, env.now) {
      AloneTries(cfg, s, p, code, left[1..], marks, env);
    } else {
      var (s1, marked) := MarkCounter(s, left[0].id, CodeCounter(cfg, s, left[0], code, env.now).value, env.now);
      if marked == None {
        AloneTries(cfg, s1, p, code, left[1..], marks, env);
      } else {
        AloneRaises(cfg, s1, p, marks, marks, env);
      }
    }
  }

  lemma AloneSpends(cfg: Config, s: Store, p: Principal, id: CodeId, code: Secret, marks: nat, env: Env)
    ensures var (s1, marked) := MarkCode(s, id, env.now);
      if marked.Ok? then Answers(Alone(cfg, s, Spending(p, id, code), marks, env), RaiseAssurance(s1, p, env.now))
      else Alone(cfg, s, Spending(p, id, code), marks, env) == (s1, Refused)
  {
    hide Alone, Answers, MarkCode, RaiseAssurance;
    AloneSteps(cfg, s, Spending(p, id, code), marks, env);
    var s1 := MarkCode(s, id, env.now).0;
    AloneRests(cfg, s1, Refused, marks, env);
    AloneRaises(cfg, s1, p, marks, marks, env);
  }

  /** `verify_session` and `require_aal2` alone. */
  lemma SoloVerifyIsAtomic(cfg: Config, s: Store, token: Secret, permission: string, marks: nat, env: Env)
    ensures Answers(Alone(cfg, s, Start(token, Plain(permission)), marks, env),
                    VerifySession(cfg, s, token, permission, env.now))
    ensures Answers(Alone(cfg, s, Start(token, Aal2), marks, env), RequireAal2(cfg, s, token, env.now))
  {
    hide Alone, VerifySession;
    AloneVerifies(cfg, s, token, Plain(permission), marks, env);
    AloneVerifies(cfg, s, token, Aal2, marks, env);
    var (s1, p) := VerifySession(cfg, s, token, permission, env.now);
    if p.Ok? {
      AloneSteps(cfg, s1, Verified(p.value, Plain(permission)), marks, env);
      AloneRests(cfg, s1, Passed(p.value, Plain(permission)), marks, env);
    }
    var (s2, q) := VerifySession(cfg, s, token, "", env.now);
    if q.Ok? {
      AloneSteps(cfg, s2, Verified(q.value, Aal2), marks, env);
      AloneRests(cfg, s2, Passed(q.value, Aal2), marks, env);
      AloneRests(cfg, s2, Refused, marks, env);
    }
  }

  lemma SoloTotpIsAtomic(cfg: Config, s: Store, token: Secret, code: string, marks: nat, env: Env)
    ensures Answers(Alone(cfg, s, Start(token, WithTotp(code)), marks, env), StepUpTotp(cfg, s, token, code, env))
  {
    hide Alone, VerifySession, VerifyTotpIn, RaiseAssurance, FactorsOf;
    AloneVerifies(cfg, s, token, WithTotp(code), marks, env);
    var (s1, p) := VerifySession(cfg, s, token, "", env.now);
    if p.Ok? {
      AloneSteps(cfg, s1, Verified(p.value, WithTotp(code)), marks, env);
      AloneRests(cfg, s1, Refused, marks, env);
      AloneTries(cfg, s1, p.value, code, FactorsOf(s1, p.value.user.id), marks, env);
      var (s2, f) := VerifyTotpIn(cfg, s1, FactorsOf(s1, p.value.user.id), code, env.now);
      if env.allowed && f.Ok? {
        assert StepUpTotp(cfg, s, token, code, env) == RaiseAssurance(s2, p.value, env.now);
      }
    }
  }

  lemma SoloRecoveryIsAtomic(cfg: Config, s: Store, token: Secret, code: Secret, marks: nat, env: Env)
    ensures Answers(Alone(cfg, s, Start(token, WithRecovery(code)), marks, env),
                    StepUpRecovery(cfg, s, token, code, env))
  {
    hide Alone, VerifySession, MarkCode, RaiseAssurance, CodesOf, FindCode;
    AloneVerifies(cfg, s, token, WithRecovery(code), marks, env);
    var (s1, p) := VerifySession(cfg, s, token, "", env.now);
    if p.Ok? {
      AloneSteps(cfg, s1, Verified(p.value, WithRecovery(code)), marks, env);
      AloneRests(cfg, s1, Refused, marks, env);
      var found := FindCode(CodesOf(s1, p.value.user.id), HashOf(code));
      if found.Some? {
        AloneSpends(cfg, s1, p.value, found.value.id, code, marks, env);
        var (s2, marked) := MarkCode(s1, found.value.id, env.now);
        if env.allowed && marked.Ok? {
          assert StepUpRecovery(cfg, s, token, code, env) == RaiseAssurance(s2, p.value, env.now);
        }
      }
    }
  }
}

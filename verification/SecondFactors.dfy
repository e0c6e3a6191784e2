/** What every call does to every TOTP factor and to the vault, and that a step-up rests on a factor
    its user has confirmed. */
module SecondFactors {
  import opened Prelude
  import opened Permissions
  import opened AuthModels
  import opened AuthStore
  import opened AuthCalls
  import opened AuthRuns
  import opened AuthInvariants
  import opened AuthGuarantees
  import opened AuthMeaning
  import F = Footprints

  // ----- One record -----

  /** The `i`-th factor in order of enrolment is the first to accept the code. */
  ghost predicate FirstAccepting(cfg: Config, s: Store, order: seq<FactorId>, i: nat, user: UserId, code: string,
                                 now: Time)
  {
    && i < |order| && FactorAccepts(cfg, s, user, order[i], code, now)
    && forall j :: 0 <= j < i ==> !FactorAccepts(cfg, s, user, order[j], code, now)
  }

  /** The successful step-up spends the code on this factor: the first of the user's to accept it. */
  ghost predicate Spends(cfg: Config, s: Store, call: Call, r: Res<Reply>, now: Time, id: FactorId) {
    && call.Second? && call.factorCall.StepUpWithTotp? && r.Ok? && r.value.PrincipalReply?
    && exists i: nat ::
         FirstAccepting(cfg, s, s.factorOrder, i, r.value.principal.user.id, call.factorCall.code, now)
         && s.factorOrder[i] == id
  }

  /** The call confirms this factor, which was not enabled. */
  predicate Enables(call: Call, r: Res<Reply>, f: Factor) {
    call.Second? && call.factorCall.ConfirmTotp? && r.Ok? && call.factorCall.factor == f.id && !f.enabled
  }

  /** The record of a stored factor after a call with this answer. */
  ghost function FactorAfter(cfg: Config, s: Store, call: Call, r: Res<Reply>, now: Time, f: Factor): Factor {
    if Enables(call, r, f) then f.(enabled := true, lastUsedAt := Some(now))
    else if Spends(cfg, s, call, r, now, f.id) && f.id in s.vault then
      f.(lastUsedAt := Some(now), lastUsedCounter := cfg.counterFor(s.vault[f.id], call.factorCall.code, now))
    else f
  }

  predicate Begins(call: Call, r: Res<Reply>) {
    call.Second? && call.factorCall.BeginTotp? && r.Ok?
  }

  /** The factor can be confirmed: it is the user's, and enabled already or its secret, the one it
      was enrolled with, gives the code now. */
  predicate Confirmable(cfg: Config, s: Store, user: UserId, id: FactorId, code: string, now: Time) {
    && id in s.factors && s.factors[id].userId == user && s.factors[id].kind == Totp
    && (s.factors[id].enabled || SecretGives(cfg, s, id, code, now))
  }

  predicate SecretGives(cfg: Config, s: Store, id: FactorId, code: string, now: Time) {
    && id in s.factors && id in s.vault && s.factors[id].secretHash == Some(HashOf(s.vault[id]))
    && cfg.counterFor(s.vault[id], code, now).Some?
  }

  ghost predicate Follow(cfg: Config, s: Store, call: Call, env: Env, r: Res<Reply>, s': Store) {
    && (forall id :: id in s.factors ==>
          id in s'.factors && s'.factors[id] == FactorAfter(cfg, s, call, r, env.now, s.factors[id]))
    && (forall id :: id in s'.factors && id !in s.factors ==> Begins(call, r) && id == env.drawn.factor)
    && s'.vault == (if Begins(call, r) then s.vault[env.drawn.factor := env.drawn.secret] else s.vault)
    && (Begins(call, r) ==>
          && env.drawn.factor in s'.factors
          && s'.factors[env.drawn.factor] == Factor(env.drawn.factor, call.factorCall.user, Totp,
                                                    Some(HashOf(env.drawn.secret)), false, None, None))
  }

  // ----- Enrolment -----

  /** An enrolment begins for a stored user when the vault may be used. */
  lemma EnrollmentMeaning(cfg: Config, s: Store, user: UserId, env: Env)
    requires env.drawn.factor !in s.factors
    ensures var (s', r) := OfFactor(BeginEnrollment(cfg, s, user, env));
      && (r.Ok? <==> user in s.users && cfg.vaultAccepted)
      && Follow(cfg, s, Second(BeginTotp(user)), env, r, s')
  {
  }

  /** A confirmation succeeds for a confirmable factor, and then enables it if it was not. */
  lemma ConfirmationMeaning(cfg: Config, s: Store, user: UserId, id: FactorId, code: string, env: Env)
    requires forall i :: i in s.factors ==> s.factors[i].id == i
    ensures var (s', r) := VerifyEnrollment(cfg, s, user, id, code, env);
      && (r.Ok? <==> Confirmable(cfg, s, user, id, code, env.now))
      && s'.vault == s.vault
      && s'.factors == if r.Ok? && !s.factors[id].enabled
           then s.factors[id := s.factors[id].(enabled := true, lastUsedAt := Some(env.now))] else s.factors
  {
    hide UpdateFactor;
    if id in s.factors {
      FactorUpdated(s, s.factors[id].(enabled := true, lastUsedAt := Some(env.now)));
    }
  }

  lemma FactorUpdated(s: Store, f: Factor)
    requires f.id in s.factors
    ensures UpdateFactor(s, f) == (s.(factors := s.factors[f.id := f]), Ok(()))
  {
  }

  lemma ConfirmationFollows(cfg: Config, s: Store, user: UserId, id: FactorId, code: string, env: Env)
    requires forall i :: i in s.factors ==> s.factors[i].id == i
    ensures var (s', r) := OfFactor(VerifyEnrollment(cfg, s, user, id, code, env));
      Follow(cfg, s, Second(ConfirmTotp(user, id, code)), env, r, s')
  {
    hide VerifyEnrollment, FirstAccepting;
    ConfirmationMeaning(cfg, s, user, id, code, env);
  }

  // ----- Step-ups -----

  lemma MarkSucceeds(s: Store, id: FactorId, counter: int, now: Time)
    requires id in s.factors
    requires s.factors[id].lastUsedCounter.Some? ==> s.factors[id].lastUsedCounter.value < counter
    ensures var f := s.factors[id].(lastUsedAt := Some(now), lastUsedCounter := Some(counter));
      MarkCounter(s, id, counter, now) == (s.(factors := s.factors[id := f]), Some(f))
  {
  }

  /** The loop over the listed factors marks the first to accept the code, or changes nothing. */
  lemma {:induction false} LoopSpends(cfg: Config, s: Store, order: seq<FactorId>, user: UserId, code: string,
                                      now: Time)
    requires forall id :: id in s.factors ==> s.factors[id].id == id
    ensures var (s', r) := VerifyTotpIn(cfg, s, FactorsIn(s, order, user), code, now);
      if r.Ok? then
        exists i: nat ::
          i < |order| && FirstAccepting(cfg, s, order, i, user, code, now) && Marked(cfg, s, order[i], code, now, s')
      else s' == s
    decreases |order|
  {
    hide CodeCounter, Usable, MarkCounter, FactorAccepts;
    if order != [] {
      var rest := FactorsIn(s, order[1..], user);
      var id := order[0];
      LoopSpends(cfg, s, order[1..], user, code, now);
      var listed := FactorsIn(s, order, user);
      if id in s.factors && s.factors[id].userId == user {
        assert listed == [s.factors[id]] + rest && listed[1..] == rest && listed[0] == s.factors[id];
        UsableMeaning(cfg, s, s.factors[id], user, code, now);
        if Usable(cfg, s, s.factors[id], code, now) {
          FirstMarks(cfg, s, listed, user, code, now);
          assert FirstAccepting(cfg, s, order, 0, user, code, now);
        } else {
          LaterMarks(cfg, s, order, user, code, now);
        }
      } else {
        assert listed == rest;
        NotAccepting(cfg, s, id, user, code, now);
        LaterMarks(cfg, s, order, user, code, now);
      }
    }
  }

  /** The factor carries the counter of the code, and nothing else has changed. */
  predicate Marked(cfg: Config, s: Store, id: FactorId, code: string, now: Time, s': Store) {
    && id in s.factors && id in s.vault
    && s' == s.(factors := s.factors[id := s.factors[id].(
                  lastUsedAt := Some(now), lastUsedCounter := cfg.counterFor(s.vault[id], code, now))])
  }

  lemma NotAccepting(cfg: Config, s: Store, id: FactorId, user: UserId, code: string, now: Time)
    requires id !in s.factors || s.factors[id].userId != user
    ensures !FactorAccepts(cfg, s, user, id, code, now)
  {
  }

  lemma FirstMarks(cfg: Config, s: Store, listed: seq<Factor>, user: UserId, code: string, now: Time)
    requires listed != [] && listed[0].id in s.factors && s.factors[listed[0].id] == listed[0]
    requires listed[0].userId == user && Usable(cfg, s, listed[0], code, now)
    ensures var (s', r) := VerifyTotpIn(cfg, s, listed, code, now);
      r.Ok? && FactorAccepts(cfg, s, user, listed[0].id, code, now) && Marked(cfg, s, listed[0].id, code, now, s')
  {
    hide Usable, MarkCounter;
    UsableMeaning(cfg, s, listed[0], user, code, now);
    MarkSucceeds(s, listed[0].id, cfg.counterFor(s.vault[listed[0].id], code, now).value, now);
  }

  lemma LaterMarks(cfg: Config, s: Store, order: seq<FactorId>, user: UserId, code: string, now: Time)
    requires order != [] && !FactorAccepts(cfg, s, user, order[0], code, now)
    ensures forall i: nat :: FirstAccepting(cfg, s, order[1..], i, user, code, now) ==>
      FirstAccepting(cfg, s, order, i + 1, user, code, now) && order[i + 1] == order[1..][i]
  {
    hide FactorAccepts;
  }

  lemma OneIsFirst(cfg: Config, s: Store, order: seq<FactorId>, user: UserId, code: string, now: Time)
    ensures forall i: nat, j: nat ::
      FirstAccepting(cfg, s, order, i, user, code, now) && FirstAccepting(cfg, s, order, j, user, code, now) ==> i == j
  {
    hide FactorAccepts;
  }

  lemma SameFirst(cfg: Config, s: Store, s1: Store, order: seq<FactorId>, user: UserId, code: string, now: Time)
    requires F.SameFactors(s, s1)
    ensures forall i: nat ::
      FirstAccepting(cfg, s1, order, i, user, code, now) <==> FirstAccepting(cfg, s, order, i, user, code, now)
    ensures forall id :: FactorAccepts(cfg, s1, user, id, code, now) <==> FactorAccepts(cfg, s, user, id, code, now)
  {
  }

  lemma FactorIds(cfg: Config, s: Store)
    requires Inv(cfg, s)
    ensures forall id :: id in s.factors ==> s.factors[id].id == id
  {
    hide UsersIndexed, SessionsIndexed, FlowsIndexed, CredentialsIndexed, IdentitiesKeyed, CodesListed, Snapshots;
  }

  lemma StepUpFollows(cfg: Config, s: Store, token: Secret, code: string, env: Env)
    requires Inv(cfg, s)
    ensures var (s', r) := OfPrincipal(StepUpTotp(cfg, s, token, code, env));
      Follow(cfg, s, Second(StepUpWithTotp(token, code)), env, r, s')
  {
    hide Inv, VerifySession, VerifyTotpIn, RaiseAssurance, Unrevoked, FactorAccepts, Follow, FirstAccepting, Marked;
    var call := Second(StepUpWithTotp(token, code));
    var (s', r) := OfPrincipal(StepUpTotp(cfg, s, token, code, env));
    FactorIds(cfg, s);
    F.VerifyLeaves(cfg, s, token, "", env.now);
    var (s1, p) := VerifySession(cfg, s, token, "", env.now);
    if p.Ok? && env.allowed {
      var user := p.value.user.id;
      LoopSpends(cfg, s1, s1.factorOrder, user, code, env.now);
      SameFirst(cfg, s, s1, s.factorOrder, user, code, env.now);
      var (s2, f) := VerifyTotpIn(cfg, s1, FactorsOf(s1, user), code, env.now);
      if f.Ok? {
        var i: nat :| i < |s1.factorOrder| && FirstAccepting(cfg, s1, s1.factorOrder, i, user, code, env.now)
          && Marked(cfg, s1, s1.factorOrder[i], code, env.now, s2);
        F.VerifyTotpLeaves(cfg, s1, FactorsOf(s1, user), code, env.now);
        VerifiedCanRaise(cfg, s, token, env.now);
        CanRaiseAfter(s1, s2, p.value);
        RaiseSucceeds(s2, p.value, env.now);
        RaiseKeepsPrincipal(s2, p.value, env.now);
        F.RaiseLeaves(s2, p.value, env.now);
        SpendingFollows(cfg, s, s1, s2, call, env, r, i, s');
      } else {
        RefusalFollows(cfg, s, call, env, r, s');
      }
    } else {
      RefusalFollows(cfg, s, call, env, r, s');
    }
  }

  lemma CanRaiseAfter(s1: Store, s2: Store, p: Principal)
    requires s2.sessions == s1.sessions
    ensures Unrevoked(s2, p.session.id) <==> Unrevoked(s1, p.session.id)
  {
  }

  lemma RaiseKeepsPrincipal(s: Store, p: Principal, now: Time)
    ensures var r := RaiseAssurance(s, p, now).1; r.Ok? ==> r.value.user == p.user
  {
  }

  lemma SpendingFollows(cfg: Config, s: Store, s1: Store, s2: Store, call: Call, env: Env, r: Res<Reply>, i: nat,
                        s': Store)
    requires call.Second? && call.factorCall.StepUpWithTotp? && r.Ok? && r.value.PrincipalReply?
    requires F.SameFactors(s, s1) && F.SameFactors(s2, s') && i < |s.factorOrder|
    requires FirstAccepting(cfg, s, s.factorOrder, i, r.value.principal.user.id, call.factorCall.code, env.now)
    requires Marked(cfg, s1, s1.factorOrder[i], call.factorCall.code, env.now, s2)
    requires forall id :: id in s.factors ==> s.factors[id].id == id
    ensures Follow(cfg, s, call, env, r, s')
  {
    hide FirstAccepting;
    OneIsFirst(cfg, s, s.factorOrder, r.value.principal.user.id, call.factorCall.code, env.now);
    assert Spends(cfg, s, call, r, env.now, s.factorOrder[i]);
  }

  lemma RefusalFollows(cfg: Config, s: Store, call: Call, env: Env, r: Res<Reply>, s': Store)
    requires F.SameFactors(s, s') && r.Err?
    ensures Follow(cfg, s, call, env, r, s')
  {
    hide FirstAccepting;
  }

  lemma KeptFollow(cfg: Config, s: Store, call: Call, env: Env, r: Res<Reply>, s': Store)
    requires F.SameFactors(s, s')
    requires call.Second? ==>
      !call.factorCall.BeginTotp? && !call.factorCall.ConfirmTotp? && !call.factorCall.StepUpWithTotp?
    ensures Follow(cfg, s, call, env, r, s')
  {
    hide FirstAccepting;
  }

  // ----- Calls -----

  lemma SocialLoginKeeps(cfg: Config, s: Store, p: SocialProfile, given: Option<Secret>, nonce: Option<Secret>,
                         env: Env)
    ensures F.SameFactors(s, LoginSocial(cfg, s, p, given, nonce, env).0)
  {
    hide ConsumeSocialState, SocialUser, LoginWith;
    if given.Some? {
      F.SocialStateLeaves(cfg, s, p.provider, given.value, nonce, env);
    }
    var s1 := if given.Some? then ConsumeSocialState(cfg, s, p.provider, given.value, nonce, env).0 else s;
    F.SocialUserLeaves(cfg, s1, p, env);
    var (s2, user) := SocialUser(cfg, s1, p, env);
    if user.Ok? {
      F.LoginLeaves(cfg, s2, user.value, p.provider, env);
    }
  }

  lemma MagicLinkKeeps(cfg: Config, s: Store, token: Secret, env: Env)
    ensures F.SameFactors(s, ConsumeMagicLink(cfg, s, token, env).0)
  {
    hide ConsumeFlow, UserByEmail, LoginWith, CreateUserCall;
    F.ConsumeFlowLeaves(s, HashOf(token), MagicLink, "email", env.now);
    var (s1, consumed) := ConsumeFlow(s, HashOf(token), MagicLink, "email", env.now);
    if consumed.Some? && consumed.value.email.Some? {
      var email := consumed.value.email.value;
      var role := if cfg.profile == SingleOwner then Owner else Role.User;
      F.CreateUserCallLeaves(cfg, s1, email, role, "", true, env);
      var (s2, created) := CreateUserCall(cfg, s1, email, role, "", true, env);
      if UserByEmail(s1, email).Some? {
        F.LoginLeaves(cfg, s1, UserByEmail(s1, email).value, "email", env);
      } else if created.Ok? {
        F.LoginLeaves(cfg, s2, created.value, "email", env);
      }
    }
  }

  lemma ResetKeeps(cfg: Config, s: Store, token: Secret, password: string, env: Env)
    ensures F.SameFactors(s, ConsumeReset(cfg, s, token, password, env).0)
  {
    hide ConsumeFlow, FlowUser, SetPassword, RevokeForUser, IsOwnerEmail;
    F.ConsumeFlowLeaves(s, HashOf(token), PasswordReset, "email", env.now);
    var (s1, consumed) := ConsumeFlow(s, HashOf(token), PasswordReset, "email", env.now);
    if consumed.Some? && FlowUser(s1, consumed.value).Some? {
      var id := FlowUser(s1, consumed.value).value.id;
      F.SetPasswordLeaves(cfg, s1, id, password, Some(false), None, env);
      F.RevokeForUserLeaves(SetPassword(cfg, s1, id, password, Some(false), None, env).0, id, None, env.now);
    }
  }

  lemma AccountsKeep(cfg: Config, s: Store, call: AccountCall, env: Env)
    ensures F.SameFactors(s, AccountStep(cfg, s, call, env).0)
  {
    hide CreateUserCall, BootstrapOwner, SetPassword, LoginPassword, RequestMagicLink, ConsumeMagicLink,
      RequestVerification, ConsumeVerification, RequestReset, ConsumeReset;
    match call
    case CreateUserWith(email, role, password, verified) =>
      F.CreateUserCallLeaves(cfg, s, email, role, password, verified, env);
    case Bootstrap(email, password) => F.BootstrapLeaves(cfg, s, email, password, env);
    case ChangePassword(user, password, revoke, except) =>
      F.SetPasswordLeaves(cfg, s, user, password, revoke, except, env);
    case PasswordLogin(email, password) => F.PasswordLoginLeaves(cfg, s, email, password, env);
    case AskMagicLink(email, safe) => F.RequestsLeave(cfg, s, email, safe, None, None, env);
    case UseMagicLink(token) => MagicLinkKeeps(cfg, s, token, env);
    case AskVerification(id, address) => F.RequestsLeave(cfg, s, "", true, id, address, env);
    case UseVerification(token) => F.VerificationLeaves(cfg, s, token, env);
    case AskReset(email) => F.RequestsLeave(cfg, s, email, true, None, None, env);
    case UseReset(token, password) => ResetKeeps(cfg, s, token, password, env);
  }

  lemma SessionCallsKeep(cfg: Config, s: Store, call: SessionCall, env: Env)
    ensures F.SameFactors(s, SessionCallStep(cfg, s, call, env).0)
  {
    hide BeginSocialLogin, ConsumeSocialState, LoginSocial, VerifySession, RevokeSession, Cleanup, SessionByHash;
    match call
    case BeginSocial(provider, safe, nonce) => F.BeginSocialLeaves(cfg, s, provider, safe, nonce, env);
    case UseSocialState(provider, state, nonce) => F.SocialStateLeaves(cfg, s, provider, state, nonce, env);
    case SocialLogin(profile, given, nonce) => SocialLoginKeeps(cfg, s, profile, given, nonce, env);
    case Verify(token, permission) => F.VerifyLeaves(cfg, s, token, permission, env.now);
    case LogoutWith(token) =>
      var found := SessionByHash(s, HashOf(token));
      F.RevokeLeaves(s, if found.Some? then found.value.id else 0, env.now);
    case Revoke(session) => F.RevokeLeaves(s, session, env.now);
    case CleanupExpired => F.CleanupLeaves(s, env.now);
  }

  lemma FactorCallsFollow(cfg: Config, s: Store, call: FactorCall, env: Env)
    requires Inv(cfg, s) && env.drawn.factor !in s.factors
    ensures var (s', r) := FactorStep(cfg, s, call, env); Follow(cfg, s, Second(call), env, r, s')
  {
    hide Inv, Follow, VerifySession, BeginEnrollment, VerifyEnrollment, CreateCodes, StepUpTotp, StepUpRecovery;
    var (s', r) := FactorStep(cfg, s, call, env);
    FactorIds(cfg, s);
    match call
    case NeedAal2(token) =>
      F.VerifyLeaves(cfg, s, token, "", env.now);
      KeptFollow(cfg, s, Second(call), env, r, s');
    case BeginTotp(user) => EnrollmentMeaning(cfg, s, user, env);
    case ConfirmTotp(user, factor, code) => ConfirmationFollows(cfg, s, user, factor, code, env);
    case StepUpWithTotp(token, code) => StepUpFollows(cfg, s, token, code, env);
    case MakeCodes(user) =>
      F.CreateCodesLeaves(s, user, env.drawn.codes);
      KeptFollow(cfg, s, Second(call), env, r, s');
    case StepUpWithCode(token, recovery) =>
      F.RecoveryStepUpLeaves(cfg, s, token, recovery, env);
      KeptFollow(cfg, s, Second(call), env, r, s');
  }

  /** Every call leaves every stored factor as `FactorAfter` says; an enrolment adds one that is not
      enabled, with its secret, and secrets never change. */
  lemma FactorsFollowCalls(cfg: Config, s: Store, call: Call, env: Env)
    requires Inv(cfg, s) && Unused(s, env.drawn)
    ensures var (s', r) := Step(cfg, s, call, env); Follow(cfg, s, call, env, r, s')
  {
    hide Inv, Follow, AccountStep, SessionCallStep, FactorStep, AdminStep;
    var (s', r) := Step(cfg, s, call, env);
    match call
    case Account(c) =>
      AccountsKeep(cfg, s, c, env);
      KeptFollow(cfg, s, call, env, r, s');
    case OnSession(c) =>
      SessionCallsKeep(cfg, s, c, env);
      KeptFollow(cfg, s, call, env, r, s');
    case Second(c) => FactorCallsFollow(cfg, s, c, env);
    case Administer(c) =>
      F.AdminCallLeaves(cfg, s, c, env);
      KeptFollow(cfg, s, call, env, r, s');
  }

  // ----- Confirmation over runs -----

  /** The `i`-th call of the run is a confirmation by the factor's user, with a code that the given
      secret, enrolled with the factor, then gave. */
  predicate ConfirmedAt(cfg: Config, s: Store, events: seq<Event>, i: nat, id: FactorId, user: UserId, secret: Secret)
    requires i < |events|
  {
    var before, e := Run(cfg, s, events[..i]), events[i];
    && e.call.Second? && e.call.factorCall.ConfirmTotp?
    && e.call.factorCall.factor == id && e.call.factorCall.user == user
    && SecretGives(cfg, before, id, e.call.factorCall.code, e.env.now)
    && before.vault[id] == secret && before.factors[id].userId == user
  }

  /** The factor was enabled at the start, or confirmed in the run with the secret it has now. */
  ghost predicate Rests(cfg: Config, s: Store, events: seq<Event>, id: FactorId, user: UserId, secret: Secret) {
    || (id in s.factors && s.factors[id].enabled)
    || exists i: nat :: i < |events| && ConfirmedAt(cfg, s, events, i, id, user, secret)
  }

  lemma EnabledInStep(cfg: Config, s: Store, e: Event, id: FactorId)
    requires Inv(cfg, s) && Unused(s, e.env.drawn)
    ensures var (s', r) := Step(cfg, s, e.call, e.env);
      && (id in s.factors ==> id in s'.factors && s'.factors[id].userId == s.factors[id].userId)
      && (id in s.factors && id in s.vault ==> id in s'.vault && s'.vault[id] == s.vault[id])
      && (id in s'.factors && s'.factors[id].enabled ==>
            && id in s.factors
            && (s.factors[id].enabled
                || (e.call.Second? && e.call.factorCall.ConfirmTotp? && e.call.factorCall.factor == id
                    && e.call.factorCall.user == s.factors[id].userId
                    && SecretGives(cfg, s, id, e.call.factorCall.code, e.env.now))))
  {
    hide Inv, Step, VerifyEnrollment, Spends;
    FactorsFollowCalls(cfg, s, e.call, e.env);
    FactorIds(cfg, s);
    if e.call.Second? && e.call.factorCall.ConfirmTotp? {
      ConfirmationMeaning(cfg, s, e.call.factorCall.user, e.call.factorCall.factor, e.call.factorCall.code, e.env);
      ConfirmingStep(cfg, s, e);
    }
  }

  lemma ConfirmingStep(cfg: Config, s: Store, e: Event)
    requires e.call.Second? && e.call.factorCall.ConfirmTotp?
    ensures var c := e.call.factorCall;
      Step(cfg, s, e.call, e.env) == OfFactor(VerifyEnrollment(cfg, s, c.user, c.factor, c.code, e.env))
  {
    hide VerifyEnrollment;
  }

  lemma RestsLonger(cfg: Config, s: Store, events: seq<Event>, id: FactorId, user: UserId, secret: Secret)
    requires events != [] && Rests(cfg, s, events[..|events| - 1], id, user, secret)
    ensures Rests(cfg, s, events, id, user, secret)
  {
    hide Step, SecretGives;
    var init := events[..|events| - 1];
    if !(id in s.factors && s.factors[id].enabled) {
      var i: nat :| i < |init| && ConfirmedAt(cfg, s, init, i, id, user, secret);
      assert init[..i] == events[..i];
      assert ConfirmedAt(cfg, s, events, i, id, user, secret);
    }
  }

  /** After any run, an enabled factor with a secret was enabled at the start, or its user has
      confirmed it with a code of that secret. */
  lemma {:induction false} EnabledWasConfirmed(cfg: Config, s: Store, events: seq<Event>, id: FactorId)
    requires Inv(cfg, s) && FreshRun(cfg, s, events)
    requires var s' := Run(cfg, s, events); id in s'.factors && s'.factors[id].enabled && id in s'.vault
    requires forall f :: f in s.factors && s.factors[f].enabled ==> f in s.vault
    ensures var s' := Run(cfg, s, events); Rests(cfg, s, events, id, s'.factors[id].userId, s'.vault[id])
    decreases |events|
  {
    hide Inv, Unused, Step, ConfirmedAt;
    if events != [] {
      var last := |events| - 1;
      var init, e := events[..last], events[last];
      RunKeeps(cfg, s, init);
      var before, after := Run(cfg, s, init), Run(cfg, s, events);
      EnabledInStep(cfg, before, e, id);
      if before.factors[id].enabled {
        EnabledHasSecret(cfg, s, init, id);
        EnabledWasConfirmed(cfg, s, init, id);
        RestsLonger(cfg, s, events, id, after.factors[id].userId, after.vault[id]);
      } else {
        ConfirmedLast(cfg, s, events, id);
      }
    }
  }

  lemma ConfirmedLast(cfg: Config, s: Store, events: seq<Event>, id: FactorId)
    requires events != []
    requires var before, e := Run(cfg, s, events[..|events| - 1]), events[|events| - 1];
      var after := Run(cfg, s, events);
      && e.call.Second? && e.call.factorCall.ConfirmTotp? && e.call.factorCall.factor == id
      && SecretGives(cfg, before, id, e.call.factorCall.code, e.env.now)
      && e.call.factorCall.user == before.factors[id].userId
      && id in after.factors && id in after.vault && after.factors[id].userId == before.factors[id].userId
      && after.vault[id] == before.vault[id]
    ensures var after := Run(cfg, s, events); Rests(cfg, s, events, id, after.factors[id].userId, after.vault[id])
  {
    hide Step;
    var after := Run(cfg, s, events);
    assert ConfirmedAt(cfg, s, events, |events| - 1, id, after.factors[id].userId, after.vault[id]);
  }

  lemma {:induction false} EnabledHasSecret(cfg: Config, s: Store, events: seq<Event>, id: FactorId)
    requires Inv(cfg, s) && FreshRun(cfg, s, events)
    requires var s' := Run(cfg, s, events); id in s'.factors && s'.factors[id].enabled
    requires forall f :: f in s.factors && s.factors[f].enabled ==> f in s.vault
    ensures id in Run(cfg, s, events).vault
    decreases |events|
  {
    hide Inv, Unused, Step;
    if events != [] {
      var init, e := events[..|events| - 1], events[|events| - 1];
      RunKeeps(cfg, s, init);
      EnabledInStep(cfg, Run(cfg, s, init), e, id);
      if Run(cfg, s, init).factors[id].enabled {
        EnabledHasSecret(cfg, s, init, id);
      }
    }
  }

  /** A successful TOTP step-up after a run that starts without enabled factors: the user of the
      session has confirmed, in an earlier call of the run, a factor with the secret that gives the
      code. A factor only enrolled never steps anyone up. */
  lemma StepUpWasConfirmed(cfg: Config, s: Store, events: seq<Event>, token: Secret, code: string, env: Env)
    requires Inv(cfg, s) && FreshRun(cfg, s, events)
    requires forall f :: f in s.factors ==> !s.factors[f].enabled
    requires StepUpTotp(cfg, Run(cfg, s, events), token, code, env).1.Ok?
    ensures var s' := Run(cfg, s, events);
      var user := VerifySession(cfg, s', token, "", env.now).1.value.user.id;
      exists id, i: nat ::
        && FactorAccepts(cfg, s', user, id, code, env.now)
        && i < |events| && ConfirmedAt(cfg, s, events, i, id, user, s'.vault[id])
  {
    hide Inv, FreshRun, Run, StepUpTotp, VerifySession, ConfirmedAt;
    var s' := Run(cfg, s, events);
    RunKeeps(cfg, s, events);
    TotpStepUpMeaning(cfg, s', token, code, env);
    var user := VerifySession(cfg, s', token, "", env.now).1.value.user.id;
    var id :| FactorAccepts(cfg, s', user, id, code, env.now);
    EnabledWasConfirmed(cfg, s, events, id);
  }
}

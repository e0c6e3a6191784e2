/** Runs of service calls: the calls as data, one step per call, and runs over events. */
module AuthRuns {
  import opened Prelude
  import opened Permissions
  import opened AuthModels
  import opened AuthStore
  import opened AuthCalls

  /** Calls on users, passwords and login flows. */
  datatype AccountCall =
    | CreateUserWith(email: string, role: Role, password: string, verified: bool)
    | Bootstrap(email: string, password: string)
    | ChangePassword(user: UserId, password: string, revoke: Option<bool>, except: Option<SessionId>)
    | PasswordLogin(email: string, password: string)
    | AskMagicLink(email: string, returnToSafe: bool)
    | UseMagicLink(token: Secret)
    | AskVerification(id: Option<UserId>, address: Option<string>)
    | UseVerification(token: Secret)
    | AskReset(email: string)
    | UseReset(token: Secret, password: string)

  /** Social login and session calls. */
  datatype SessionCall =
    | BeginSocial(provider: string, returnToSafe: bool, nonce: Option<Secret>)
    | UseSocialState(provider: string, state: Secret, nonce: Option<Secret>)
    | SocialLogin(profile: SocialProfile, given: Option<Secret>, nonce: Option<Secret>)
    | Verify(token: Secret, permission: string)
    | LogoutWith(token: Secret)
    | Revoke(session: SessionId)
    | CleanupExpired

  /** Second-factor calls. */
  datatype FactorCall =
    | NeedAal2(token: Secret)
    | BeginTotp(user: UserId)
    | ConfirmTotp(user: UserId, factor: FactorId, code: string)
    | StepUpWithTotp(token: Secret, code: string)
    | MakeCodes(user: UserId)
    | StepUpWithCode(token: Secret, recovery: Secret)

  /** Calls of the admin service. */
  datatype AdminCall =
    | SetRole(actor: Secret, user: UserId, role: Role)
    | Ban(actor: Secret, user: UserId)
    | Unban(actor: Secret, user: UserId)
    | Disable(actor: Secret, user: UserId)
    | Enable(actor: Secret, user: UserId)
    | SetUserPassword(actor: Secret, user: UserId, password: string)
    | RevokeAsAdmin(actor: Secret, session: SessionId)

  datatype Call =
    | Account(account: AccountCall)
    | OnSession(sessionCall: SessionCall)
    | Second(factorCall: FactorCall)
    | Administer(adminCall: AdminCall)

  datatype Reply = Done | UserReply(user: User) | SessionReply(session: Session) | PrincipalReply(principal: Principal)
    | FlowReply(flow: Flow) | FactorReply(factor: Factor) | CredentialReply(credential: Credential)

  type Outcome = (Store, Res<Reply>)

  function Unit(r: (Store, Res<()>)): Outcome { (r.0, match r.1 case Ok(_) => Ok(Done) case Err(e) => Err(e)) }
  function OfUser(r: (Store, Res<User>)): Outcome {
    (r.0, match r.1 case Ok(v) => Ok(UserReply(v)) case Err(e) => Err(e))
  }
  function OfSession(r: (Store, Res<Session>)): Outcome {
    (r.0, match r.1 case Ok(v) => Ok(SessionReply(v)) case Err(e) => Err(e))
  }
  function OfPrincipal(r: (Store, Res<Principal>)): Outcome {
    (r.0, match r.1 case Ok(v) => Ok(PrincipalReply(v)) case Err(e) => Err(e))
  }
  function OfFlow(r: (Store, Res<Flow>)): Outcome {
    (r.0, match r.1 case Ok(v) => Ok(FlowReply(v)) case Err(e) => Err(e))
  }
  function OfFactor(r: (Store, Res<Factor>)): Outcome {
    (r.0, match r.1 case Ok(v) => Ok(FactorReply(v)) case Err(e) => Err(e))
  }
  function OfCredential(r: (Store, Res<Credential>)): Outcome {
    (r.0, match r.1 case Ok(v) => Ok(CredentialReply(v)) case Err(e) => Err(e))
  }

  function AccountStep(cfg: Config, s: Store, call: AccountCall, env: Env): Outcome {
    match call
    case CreateUserWith(email, role, password, verified) =>
      OfUser(CreateUserCall(cfg, s, email, role, password, verified, env))
    case Bootstrap(email, password) => OfUser(BootstrapOwner(cfg, s, email, password, env))
    case ChangePassword(user, password, revoke, except) =>
      OfCredential(SetPassword(cfg, s, user, password, revoke, except, env))
    case PasswordLogin(email, password) => OfSession(LoginPassword(cfg, s, email, password, env))
    case AskMagicLink(email, safe) => OfFlow(RequestMagicLink(cfg, s, email, safe, env))
    case UseMagicLink(token) => OfSession(ConsumeMagicLink(cfg, s, token, env))
    case AskVerification(id, address) => OfFlow(RequestVerification(cfg, s, id, address, env))
    case UseVerification(token) => OfUser(ConsumeVerification(cfg, s, token, env))
    case AskReset(email) => OfFlow(RequestReset(cfg, s, email, env))
    case UseReset(token, password) => OfUser(ConsumeReset(cfg, s, token, password, env))
  }

  function SessionCallStep(cfg: Config, s: Store, call: SessionCall, env: Env): Outcome {
    match call
    case BeginSocial(provider, safe, nonce) => OfFlow(BeginSocialLogin(cfg, s, provider, safe, nonce, env))
    case UseSocialState(provider, state, nonce) => OfFlow(ConsumeSocialState(cfg, s, provider, state, nonce, env))
    case SocialLogin(profile, given, nonce) => OfSession(LoginSocial(cfg, s, profile, given, nonce, env))
    case Verify(token, permission) => OfPrincipal(VerifySession(cfg, s, token, permission, env.now))
    case LogoutWith(token) => Unit(Logout(s, token, env.now))
    case Revoke(session) => (RevokeSession(s, session, env.now), Ok(Done))
    case CleanupExpired => (Cleanup(s, env.now), Ok(Done))
  }

  function FactorStep(cfg: Config, s: Store, call: FactorCall, env: Env): Outcome {
    match call
    case NeedAal2(token) => OfPrincipal(RequireAal2(cfg, s, token, env.now))
    case BeginTotp(user) => OfFactor(BeginEnrollment(cfg, s, user, env))
    case ConfirmTotp(user, factor, code) => OfFactor(VerifyEnrollment(cfg, s, user, factor, code, env))
    case StepUpWithTotp(token, code) => OfPrincipal(StepUpTotp(cfg, s, token, code, env))
    case MakeCodes(user) => Unit(GenerateCodes(s, user, env))
    case StepUpWithCode(token, recovery) => OfPrincipal(StepUpRecovery(cfg, s, token, recovery, env))
  }

  function AdminStep(cfg: Config, s: Store, call: AdminCall, env: Env): Outcome {
    match call
    case SetRole(actor, user, role) => OfUser(UpdateRole(cfg, s, actor, user, role, env))
    case Ban(actor, user) => OfUser(Suspend(cfg, s, actor, user, Banned, env))
    case Unban(actor, user) => OfUser(Reinstate(cfg, s, actor, user, USERS_BAN, env))
    case Disable(actor, user) => OfUser(Suspend(cfg, s, actor, user, Disabled, env))
    case Enable(actor, user) => OfUser(Reinstate(cfg, s, actor, user, USERS_WRITE, env))
    case SetUserPassword(actor, user, password) => OfCredential(AdminSetPassword(cfg, s, actor, user, password, env))
    case RevokeAsAdmin(actor, session) => Unit(AdminRevokeSession(cfg, s, actor, session, env))
  }

  /** One call as one step. */
  function Step(cfg: Config, s: Store, call: Call, env: Env): Outcome {
    match call
    case Account(c) => AccountStep(cfg, s, c, env)
    case OnSession(c) => SessionCallStep(cfg, s, c, env)
    case Second(c) => FactorStep(cfg, s, c, env)
    case Administer(c) => AdminStep(cfg, s, c, env)
  }

  datatype Event = Event(call: Call, env: Env)

  function Run(cfg: Config, s: Store, events: seq<Event>): Store {
    if events == [] then s
    else Step(cfg, Run(cfg, s, events[..|events| - 1]), events[|events| - 1].call, events[|events| - 1].env).0
  }

  /** The answer to the last event of a run. */
  function Answer(cfg: Config, s: Store, events: seq<Event>): Res<Reply>
    requires events != []
  {
    Step(cfg, Run(cfg, s, events[..|events| - 1]), events[|events| - 1].call, events[|events| - 1].env).1
  }

  /** The clock starts at or after `start` and never goes back. */
  predicate Clocked(start: Time, events: seq<Event>) {
    events != [] ==>
      && Clocked(start, events[..|events| - 1])
      && Last(start, events[..|events| - 1]) <= events[|events| - 1].env.now
  }

  function Last(start: Time, events: seq<Event>): Time {
    if events == [] then start else events[|events| - 1].env.now
  }

  /** None of the values drawn is in use. */
  predicate Unused(s: Store, n: New) {
    && n.user !in s.users && n.credential !in s.credentials
    && n.session !in s.sessions && HashOf(n.sessionToken) !in s.sessionsByHash
    && n.flow !in s.flows && HashOf(n.token) !in s.flowsByHash
    && n.factor !in s.factors
    && (forall i :: 0 <= i < |n.codes| ==> n.codes[i].0 !in s.codes)
    && (forall i, j :: 0 <= i < j < |n.codes| ==> n.codes[i].0 != n.codes[j].0)
  }

  /** Every event of the run draws unused values. */
  predicate FreshRun(cfg: Config, s: Store, events: seq<Event>) {
    events != [] ==>
      && FreshRun(cfg, s, events[..|events| - 1])
      && Unused(Run(cfg, s, events[..|events| - 1]), events[|events| - 1].env.drawn)
  }
}

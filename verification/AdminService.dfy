/** The admin service (src/coreline_auth/admin.py) over the auth service, and one entry point
    for all calls. */
module AdminService {
  import opened Prelude
  import opened Permissions
  import opened AuthModels
  import opened AuthStore
  import opened AuthCalls
  import opened AuthService
  import opened AuthRuns
  import opened AuthInvariants
  import AuthGuarantees

  class CorelineAdminService {
    const auth: CorelineAuthService

    constructor (auth: CorelineAuthService)
      ensures this.auth == auth
    {
      this.auth := auth;
    }

    /** `_require_another_active_privileged_user`: a search through the active users, in any order. */
    method AnotherActivePrivileged(target: UserId) returns (found: bool)
      ensures found == AnotherPrivileged(auth.storage.State(), target)
    {
      var users := auth.storage.users;
      var todo := users.Keys;
      while todo != {}
        invariant todo <= users.Keys
        invariant forall id :: id in users && id !in todo ==>
          !(users[id].id != target && users[id].status == Active && Privileged(users[id].role))
      {
        var id :| id in todo;
        if users[id].status == Active && users[id].id != target && Privileged(users[id].role) {
          return true;
        }
        todo := todo - {id};
      }
      found := false;
    }

    method UpdateUserRole(actor: Secret, id: UserId, role: Role, env: Env) returns (r: Res<User>)
      modifies auth.storage
      ensures (auth.storage.State(), r) == UpdateRole(auth.cfg, old(auth.storage.State()), actor, id, role, env)
    {
      hide VerifySession, AnotherPrivileged, UpdateUser, RevokeForUser;
      var p := auth.VerifySession(actor, USERS_WRITE, env);
      if p.Err? {
        return Err(p.error);
      }
      var user := auth.RequireUser(id);
      if user.Err? {
        return user;
      }
      if Privileged(user.value.role) && !Privileged(role) {
        var another := AnotherActivePrivileged(user.value.id);
        if !another {
          return Err(AuthorizationDenied(LastPrivileged));
        }
      }
      var updated := user.value.(role := role, updatedAt := env.now);
      var saved := auth.storage.UpdateUser(updated);
      if saved.Err? {
        return Err(saved.error);
      }
      var _ := auth.storage.RevokeSessionsForUser(updated.id, None, env.now);
      r := Ok(updated);
    }

    /** The guards and the write that `ban_user` and `disable_user` share. */
    method SuspendUser(actor: Secret, id: UserId, status: UserStatus, env: Env) returns (r: Res<User>)
      modifies auth.storage
      ensures (auth.storage.State(), r) == Suspend(auth.cfg, old(auth.storage.State()), actor, id, status, env)
    {
      hide VerifySession, AnotherPrivileged, UpdateUser, RevokeForUser;
      var p := auth.VerifySession(actor, if status == Banned then USERS_BAN else USERS_WRITE, env);
      if p.Err? {
        return Err(p.error);
      }
      var user := auth.RequireUser(id);
      if user.Err? {
        return user;
      }
      if user.value.id == p.value.user.id {
        return Err(AuthorizationDenied(OwnAccount));
      }
      if Privileged(user.value.role) {
        var another := AnotherActivePrivileged(user.value.id);
        if !another {
          return Err(AuthorizationDenied(LastPrivileged));
        }
      }
      var updated := user.value.(status := status, updatedAt := env.now);
      var saved := auth.storage.UpdateUser(updated);
      if saved.Err? {
        return Err(saved.error);
      }
      if status == Disabled {
        var _ := auth.storage.RevokeSessionsForUser(updated.id, None, env.now);
      }
      r := Ok(updated);
    }

    method BanUser(actor: Secret, id: UserId, env: Env) returns (r: Res<User>)
      modifies auth.storage
      ensures (auth.storage.State(), r) == Suspend(auth.cfg, old(auth.storage.State()), actor, id, Banned, env)
    {
      r := SuspendUser(actor, id, Banned, env);
    }

    method DisableUser(actor: Secret, id: UserId, env: Env) returns (r: Res<User>)
      modifies auth.storage
      ensures (auth.storage.State(), r) == Suspend(auth.cfg, old(auth.storage.State()), actor, id, Disabled, env)
    {
      r := SuspendUser(actor, id, Disabled, env);
    }

    /** `unban_user` and `enable_user` differ in the permission they ask for. */
    method ReinstateUser(actor: Secret, id: UserId, permission: string, env: Env) returns (r: Res<User>)
      modifies auth.storage
      ensures (auth.storage.State(), r) == Reinstate(auth.cfg, old(auth.storage.State()), actor, id, permission, env)
    {
      hide VerifySession, UpdateUser;
      var p := auth.VerifySession(actor, permission, env);
      if p.Err? {
        return Err(p.error);
      }
      var user := auth.RequireUser(id);
      if user.Err? {
        return user;
      }
      var updated := user.value.(status := Active, updatedAt := env.now);
      var saved := auth.storage.UpdateUser(updated);
      r := if saved.Err? then Err(saved.error) else Ok(updated);
    }

    method SetUserPassword(actor: Secret, id: UserId, password: string, env: Env) returns (r: Res<Credential>)
      modifies auth.storage
      ensures (auth.storage.State(), r)
        == AdminSetPassword(auth.cfg, old(auth.storage.State()), actor, id, password, env)
    {
      hide VerifySession, SetPassword, RevokeForUser;
      var p := auth.VerifySession(actor, USERS_WRITE, env);
      if p.Err? {
        return Err(p.error);
      }
      r := auth.SetPassword(id, password, Some(false), None, env);
      if r.Ok? && auth.cfg.revokeOnPasswordChange {
        var _ := auth.storage.RevokeSessionsForUser(id, None, env.now);
      }
    }

    method RevokeSessionAs(actor: Secret, id: SessionId, env: Env) returns (r: Res<()>)
      modifies auth.storage
      ensures (auth.storage.State(), r) == AdminRevokeSession(auth.cfg, old(auth.storage.State()), actor, id, env)
    {
      hide VerifySession, RevokeSession;
      var p := auth.VerifySession(actor, SESSIONS_REVOKE, env);
      if p.Err? {
        return Err(p.error);
      }
      auth.RevokeSession(id, env);
      r := Ok(());
    }

    // ----- All calls -----

    method PerformAccount(call: AccountCall, env: Env) returns (r: Res<Reply>)
      modifies auth.storage
      ensures (auth.storage.State(), r) == AccountStep(auth.cfg, old(auth.storage.State()), call, env)
    {
      hide CreateUserCall, BootstrapOwner, SetPassword, LoginPassword, RequestMagicLink, ConsumeMagicLink,
        RequestVerification, ConsumeVerification, RequestReset, ConsumeReset;
      match call
      case CreateUserWith(email, role, password, verified) =>
        var u := auth.CreateUser(email, role, password, verified, env);
        r := if u.Ok? then Ok(UserReply(u.value)) else Err(u.error);
      case Bootstrap(email, password) =>
        var u := auth.BootstrapOwner(email, password, env);
        r := if u.Ok? then Ok(UserReply(u.value)) else Err(u.error);
      case ChangePassword(user, password, revoke, except) =>
        var c := auth.SetPassword(user, password, revoke, except, env);
        r := if c.Ok? then Ok(CredentialReply(c.value)) else Err(c.error);
      case PasswordLogin(email, password) =>
        var x := auth.LoginPassword(email, password, env);
        r := if x.Ok? then Ok(SessionReply(x.value)) else Err(x.error);
      case AskMagicLink(email, safe) =>
        var f := auth.RequestMagicLink(email, safe, env);
        r := if f.Ok? then Ok(FlowReply(f.value)) else Err(f.error);
      case UseMagicLink(token) =>
        var x := auth.ConsumeMagicLink(token, env);
        r := if x.Ok? then Ok(SessionReply(x.value)) else Err(x.error);
      case AskVerification(id, address) =>
        var f := auth.RequestEmailVerification(id, address, env);
        r := if f.Ok? then Ok(FlowReply(f.value)) else Err(f.error);
      case UseVerification(token) =>
        var u := auth.ConsumeEmailVerification(token, env);
        r := if u.Ok? then Ok(UserReply(u.value)) else Err(u.error);
      case AskReset(email) =>
        var f := auth.RequestPasswordReset(email, env);
        r := if f.Ok? then Ok(FlowReply(f.value)) else Err(f.error);
      case UseReset(token, password) =>
        var u := auth.ConsumePasswordReset(token, password, env);
        r := if u.Ok? then Ok(UserReply(u.value)) else Err(u.error);
    }

    method PerformSession(call: SessionCall, env: Env) returns (r: Res<Reply>)
      modifies auth.storage
      ensures (auth.storage.State(), r) == SessionCallStep(auth.cfg, old(auth.storage.State()), call, env)
    {
      hide BeginSocialLogin, ConsumeSocialState, LoginSocial, VerifySession, RevokeSession, SessionByHash, Cleanup;
      match call
      case BeginSocial(provider, safe, nonce) =>
        var f := auth.BeginSocialLogin(provider, safe, nonce, env);
        r := if f.Ok? then Ok(FlowReply(f.value)) else Err(f.error);
      case UseSocialState(provider, state, nonce) =>
        var f := auth.ConsumeSocialLoginState(provider, state, nonce, env);
        r := if f.Ok? then Ok(FlowReply(f.value)) else Err(f.error);
      case SocialLogin(profile, given, nonce) =>
        var x := auth.LoginSocial(profile, given, nonce, env);
        r := if x.Ok? then Ok(SessionReply(x.value)) else Err(x.error);
      case Verify(token, permission) =>
        var p := auth.VerifySession(token, permission, env);
        r := if p.Ok? then Ok(PrincipalReply(p.value)) else Err(p.error);
      case LogoutWith(token) =>
        auth.Logout(token, env);
        r := Ok(Done);
      case Revoke(session) =>
        auth.RevokeSession(session, env);
        r := Ok(Done);
      case CleanupExpired =>
        var _, _ := auth.CleanupExpired(env);
        r := Ok(Done);
    }

    method PerformFactor(call: FactorCall, env: Env) returns (r: Res<Reply>)
      modifies auth.storage
      ensures (auth.storage.State(), r) == FactorStep(auth.cfg, old(auth.storage.State()), call, env)
    {
      hide RequireAal2, BeginEnrollment, VerifyEnrollment, StepUpTotp, GenerateCodes, StepUpRecovery;
      match call
      case NeedAal2(token) =>
        var p := auth.RequireAal2(token, env);
        r := if p.Ok? then Ok(PrincipalReply(p.value)) else Err(p.error);
      case BeginTotp(user) =>
        var f := auth.BeginTotpEnrollment(user, env);
        r := if f.Ok? then Ok(FactorReply(f.value)) else Err(f.error);
      case ConfirmTotp(user, factor, code) =>
        var f := auth.VerifyTotpEnrollment(user, factor, code, env);
        r := if f.Ok? then Ok(FactorReply(f.value)) else Err(f.error);
      case StepUpWithTotp(token, code) =>
        var p := auth.StepUpTotp(token, code, env);
        r := if p.Ok? then Ok(PrincipalReply(p.value)) else Err(p.error);
      case MakeCodes(user) =>
        var u := auth.GenerateRecoveryCodes(user, env);
        r := if u.Ok? then Ok(Done) else Err(u.error);
      case StepUpWithCode(token, recovery) =>
        var p := auth.StepUpRecoveryCode(token, recovery, env);
        r := if p.Ok? then Ok(PrincipalReply(p.value)) else Err(p.error);
    }

    method PerformAdmin(call: AdminCall, env: Env) returns (r: Res<Reply>)
      modifies auth.storage
      ensures (auth.storage.State(), r) == AdminStep(auth.cfg, old(auth.storage.State()), call, env)
    {
      hide UpdateRole, Suspend, Reinstate, AdminSetPassword, AdminRevokeSession;
      match call
      case SetRole(actor, user, role) =>
        var u := UpdateUserRole(actor, user, role, env);
        r := if u.Ok? then Ok(UserReply(u.value)) else Err(u.error);
      case Ban(actor, user) =>
        var u := BanUser(actor, user, env);
        r := if u.Ok? then Ok(UserReply(u.value)) else Err(u.error);
      case Unban(actor, user) =>
        var u := ReinstateUser(actor, user, USERS_BAN, env);
        r := if u.Ok? then Ok(UserReply(u.value)) else Err(u.error);
      case Disable(actor, user) =>
        var u := DisableUser(actor, user, env);
        r := if u.Ok? then Ok(UserReply(u.value)) else Err(u.error);
      case Enable(actor, user) =>
        var u := ReinstateUser(actor, user, USERS_WRITE, env);
        r := if u.Ok? then Ok(UserReply(u.value)) else Err(u.error);
      case SetUserPassword(actor, user, password) =>
        var c := SetUserPassword(actor, user, password, env);
        r := if c.Ok? then Ok(CredentialReply(c.value)) else Err(c.error);
      case RevokeAsAdmin(actor, session) =>
        var u := RevokeSessionAs(actor, session, env);
        r := if u.Ok? then Ok(Done) else Err(u.error);
    }

    /** Any call does what its step says, and keeps the storage valid. */
    method Perform(call: Call, env: Env) returns (r: Res<Reply>)
      requires Inv(auth.cfg, auth.storage.State()) && Unused(auth.storage.State(), env.drawn)
      modifies auth.storage
      ensures (auth.storage.State(), r) == Step(auth.cfg, old(auth.storage.State()), call, env)
      ensures Inv(auth.cfg, auth.storage.State())
    {
      hide Inv, Unused, AccountStep, SessionCallStep, FactorStep, AdminStep;
      AuthGuarantees.StepEvolves(auth.cfg, auth.storage.State(), call, env);
      match call
      case Account(c) => r := PerformAccount(c, env);
      case OnSession(c) => r := PerformSession(c, env);
      case Second(c) => r := PerformFactor(c, env);
      case Administer(c) => r := PerformAdmin(c, env);
    }
  }
}

/** The auth service, step by step over the storage (src/coreline_auth/service.py). Each method
    is proved to do exactly what the call of the same name does as one step. */
module AuthService {
  import opened Prelude
  import opened Text
  import opened Permissions
  import opened AuthModels
  import opened AuthStore
  import opened MemoryStorage
  import opened AuthCalls
  import Calls = AuthCalls

  class CorelineAuthService {
    const cfg: Config
    const storage: MemoryAuthStorage

    constructor (cfg: Config, storage: MemoryAuthStorage)
      ensures this.cfg == cfg && this.storage == storage
    {
      this.cfg := cfg;
      this.storage := storage;
    }

    // ----- Support -----

    method RequireUser(id: UserId) returns (r: Res<User>)
      ensures r == Calls.RequireUser(storage.State(), id)
    {
      var user := storage.GetUser(id);
      r := if user == None then Err(AuthenticationFailed(UserMissing)) else Ok(user.value);
    }

    method RecordLogin(u: User, env: Env) returns (r: Res<()>)
      modifies storage
      ensures (storage.State(), r) == Calls.RecordLogin(old(storage.State()), u, env.now)
    {
      r := storage.UpdateUser(u.(lastLoginAt := Some(env.now), updatedAt := env.now));
    }

    // ----- Users and passwords -----

    method SetPassword(id: UserId, password: string, revoke: Option<bool>, except: Option<SessionId>, env: Env)
      returns (r: Res<Credential>)
      modifies storage
      ensures (storage.State(), r) == Calls.SetPassword(cfg, old(storage.State()), id, password, revoke, except, env)
    {
      hide PasswordCredential, UpsertCredential, RevokeForUser;
      var user := RequireUser(id);
      if user.Err? {
        return Err(user.error);
      }
      var existing := storage.GetPasswordCredential(id);
      var hashed := HashPassword(password);
      if hashed.Err? {
        return Err(hashed.error);
      }
      var c := if existing.Some? then existing.value.(hash := Some(hashed.value), revokedAt := None)
               else Credential(env.drawn.credential, id, Some(hashed.value), None);
      storage.UpsertCredential(c);
      var revoking := if revoke.Some? then revoke.value else cfg.revokeOnPasswordChange;
      if revoking {
        var _ := storage.RevokeSessionsForUser(id, except, env.now);
      }
      r := Ok(c);
    }

    method CreateUser(email: string, role: Role, password: string, verified: bool, env: Env) returns (r: Res<User>)
      modifies storage
      ensures (storage.State(), r) == CreateUserCall(cfg, old(storage.State()), email, role, password, verified, env)
    {
      hide AuthStore.CreateUser, UpsertIdentity, Calls.SetPassword, IsOwnerEmail;
      var normal := cfg.normalize(email);
      if normal == None {
        return Err(ValidationError(InvalidEmail));
      }
      if cfg.profile == SingleOwner && !IsOwnerEmail(cfg, normal.value) {
        return Err(AuthorizationDenied(NotOwner));
      }
      var u := NewUser(cfg, normal.value, role, verified, env);
      r := storage.CreateUser(u);
      if r.Ok? {
        storage.UpsertIdentity(Identity(u.id, "email", u.email, u.email, u.verified));
        if password != "" {
          var saved := SetPassword(u.id, password, Some(false), None, env);
          if saved.Err? {
            r := Err(saved.error);
          }
        }
      }
    }

    method BootstrapOwner(email: string, password: string, env: Env) returns (r: Res<User>)
      modifies storage
      ensures (storage.State(), r) == Calls.BootstrapOwner(cfg, old(storage.State()), email, password, env)
    {
      hide UserByEmail, CreateUserCall, Calls.SetPassword, IsOwnerEmail;
      var normal := cfg.normalize(email);
      if normal == None {
        return Err(ValidationError(InvalidEmail));
      }
      if !IsOwnerEmail(cfg, normal.value) {
        return Err(AuthorizationDenied(NotOwner));
      }
      var existing := storage.GetUserByEmail(normal.value);
      if existing == None {
        r := CreateUser(normal.value, Owner, password, true, env);
      } else {
        r := Ok(existing.value);
        if password != "" {
          var saved := SetPassword(existing.value.id, password, Some(false), None, env);
          if saved.Err? {
            r := Err(saved.error);
          }
        }
      }
    }

    // ----- Logins -----

    method IssueSession(u: User, provider: string, env: Env) returns (r: Res<Session>)
      modifies storage
      ensures (storage.State(), r) == Calls.IssueSession(cfg, old(storage.State()), u, provider, env)
    {
      hide NewSession, CreateSession;
      r := storage.CreateSession(NewSession(cfg, u, provider, env));
    }

    method FinishLogin(u: User, provider: string, env: Env) returns (r: Res<Session>)
      modifies storage
      ensures (storage.State(), r) == Calls.FinishLogin(cfg, old(storage.State()), u, provider, env)
    {
      hide Calls.IssueSession, Calls.RecordLogin;
      r := IssueSession(u, provider, env);
      if r.Ok? {
        var recorded := RecordLogin(u, env);
        if recorded.Err? {
          r := Err(recorded.error);
        }
      }
    }

    method LoginWith(u: User, provider: string, env: Env) returns (r: Res<Session>)
      modifies storage
      ensures (storage.State(), r) == Calls.LoginWith(cfg, old(storage.State()), u, provider, env)
    {
      hide Calls.FinishLogin, ProfileObjection;
      var objection := ProfileObjection(cfg, u);
      if objection.Some? {
        return Err(objection.value);
      }
      r := FinishLogin(u, provider, env);
    }

    method LoginPassword(email: string, password: string, env: Env) returns (r: Res<Session>)
      modifies storage
      ensures (storage.State(), r) == Calls.LoginPassword(cfg, old(storage.State()), email, password, env)
    {
      hide UserByEmail, PasswordCredential, Calls.FinishLogin, ProfileObjection;
      var normal := cfg.normalize(email);
      if normal == None {
        return Err(ValidationError(InvalidEmail));
      }
      if !env.allowed {
        return Err(AuthenticationFailed(RateLimited));
      }
      var user := storage.GetUserByEmail(normal.value);
      if user == None || user.value.status != Active {
        return Err(AuthenticationFailed(InvalidLogin));
      }
      var objection := ProfileObjection(cfg, user.value);
      if objection.Some? {
        return Err(objection.value);
      }
      var c := storage.GetPasswordCredential(user.value.id);
      if c == None || c.value.hash == None || c.value.hash.value != PasswordHash(password) {
        return Err(AuthenticationFailed(InvalidLogin));
      }
      r := FinishLogin(user.value, "email", env);
    }

    // ----- One-time flows -----

    method RequestMagicLink(email: string, returnToSafe: bool, env: Env) returns (r: Res<Flow>)
      modifies storage
      ensures (storage.State(), r) == Calls.RequestMagicLink(cfg, old(storage.State()), email, returnToSafe, env)
    {
      hide CreateFlow, NewFlow, IsOwnerEmail;
      var normal := cfg.normalize(email);
      if normal == None {
        return Err(ValidationError(InvalidEmail));
      }
      if !returnToSafe {
        return Err(ValidationError(UnsafeReturnTo));
      }
      if cfg.profile == SingleOwner && !IsOwnerEmail(cfg, normal.value) {
        return Err(AuthorizationDenied(NotOwner));
      }
      if !env.allowed {
        return Err(AuthenticationFailed(RateLimited));
      }
      r := storage.CreateLoginFlow(NewFlow(cfg, MagicLink, "email", None, Some(normal.value), None, env));
    }

    method ConsumeMagicLink(token: Secret, env: Env) returns (r: Res<Session>)
      modifies storage
      ensures (storage.State(), r) == Calls.ConsumeMagicLink(cfg, old(storage.State()), token, env)
    {
      hide ConsumeFlow, UserByEmail, CreateUserCall, Calls.LoginWith;
      var consumed := storage.ConsumeLoginFlowByStateHash(HashOf(token), MagicLink, Some("email"), env.now);
      if consumed == None || consumed.value.email == None || consumed.value.email.value == "" {
        return Err(AuthenticationFailed(InvalidMagicLink));
      }
      var email := consumed.value.email.value;
      var user := storage.GetUserByEmail(email);
      if user == None {
        var created := CreateUser(email, if cfg.profile == SingleOwner then Owner else Role.User, "", true, env);
        if created.Err? {
          return Err(created.error);
        }
        user := Some(created.value);
      }
      r := LoginWith(user.value, "email", env);
    }

    method RequestEmailVerification(id: Option<UserId>, email: Option<string>, env: Env) returns (r: Res<Flow>)
      modifies storage
      ensures (storage.State(), r) == RequestVerification(cfg, old(storage.State()), id, email, env)
    {
      hide CreateFlow, NewFlow, IsOwnerEmail, UserByEmail;
      if id.Some? == email.Some? {
        return Err(ValidationError(BadArguments));
      }
      var user: Option<User>;
      if id.Some? {
        user := storage.GetUser(id.value);
      } else {
        var normal := cfg.normalize(email.value);
        if normal == None {
          return Err(ValidationError(InvalidEmail));
        }
        user := storage.GetUserByEmail(normal.value);
      }
      if user == None {
        return Err(AuthenticationFailed(UserMissing));
      }
      if user.value.status != Active {
        return Err(AuthenticationFailed(UserInactive));
      }
      if cfg.profile == SingleOwner && !IsOwnerEmail(cfg, user.value.email) {
        return Err(AuthorizationDenied(NotOwner));
      }
      if !env.allowed {
        return Err(AuthenticationFailed(RateLimited));
      }
      r := storage.CreateLoginFlow(NewFlow(cfg, EmailVerification, "email", None, Some(user.value.email),
                                           Some(user.value.id), env));
    }

    method UserOfFlow(f: Flow) returns (r: Option<User>)
      ensures r == FlowUser(storage.State(), f)
    {
      hide UserByEmail;
      r := None;
      if f.userId.Some? {
        r := storage.GetUser(f.userId.value);
      }
      if r == None && f.email.Some? && f.email.value != "" {
        r := storage.GetUserByEmail(f.email.value);
      }
    }

    method ConsumeEmailVerification(token: Secret, env: Env) returns (r: Res<User>)
      modifies storage
      ensures (storage.State(), r) == ConsumeVerification(cfg, old(storage.State()), token, env)
    {
      hide ConsumeFlow, FlowUser, UpdateUser, GetIdentity, UpsertIdentity;
      var consumed := storage.ConsumeLoginFlowByStateHash(HashOf(token), EmailVerification, Some("email"), env.now);
      if consumed == None {
        return Err(AuthenticationFailed(InvalidVerification));
      }
      var user := UserOfFlow(consumed.value);
      if user == None || user.value.status != Active {
        return Err(AuthenticationFailed(InvalidVerification));
      }
      if consumed.value.email.Some? && consumed.value.email.value != "" {
        var known, named := cfg.normalize(user.value.email), cfg.normalize(consumed.value.email.value);
        if known == None || named == None {
          return Err(ValidationError(InvalidEmail));
        }
        if known != named {
          return Err(AuthenticationFailed(InvalidVerification));
        }
      }
      var u := user.value.(verified := true, updatedAt := env.now);
      var saved := storage.UpdateUser(u);
      if saved.Err? {
        return Err(saved.error);
      }
      var identity := storage.GetIdentity("email", u.email);
      if identity.Some? {
        storage.UpsertIdentity(identity.value.(verified := true));
      }
      r := Ok(u);
    }

    method RequestPasswordReset(email: string, env: Env) returns (r: Res<Flow>)
      modifies storage
      ensures (storage.State(), r) == RequestReset(cfg, old(storage.State()), email, env)
    {
      hide CreateFlow, NewFlow, UserByEmail;
      var normal := cfg.normalize(email);
      if normal == None {
        return Err(ValidationError(InvalidEmail));
      }
      if !env.allowed {
        return Err(AuthenticationFailed(RateLimited));
      }
      var user := storage.GetUserByEmail(normal.value);
      var allowedByProfile := cfg.profile != SingleOwner || normal.value == Lower(cfg.ownerEmail);
      var shouldSend := user.Some? && user.value.status == Active && allowedByProfile;
      var flow :=
        NewFlow(cfg, PasswordReset, "email", None, normal, if shouldSend then Some(user.value.id) else None, env);
      if shouldSend {
        r := storage.CreateLoginFlow(flow);
      } else {
        r := Ok(flow);
      }
    }

    method ConsumePasswordReset(token: Secret, password: string, env: Env) returns (r: Res<User>)
      modifies storage
      ensures (storage.State(), r) == ConsumeReset(cfg, old(storage.State()), token, password, env)
    {
      hide ConsumeFlow, FlowUser, Calls.SetPassword, RevokeForUser, IsOwnerEmail;
      var consumed := storage.ConsumeLoginFlowByStateHash(HashOf(token), PasswordReset, Some("email"), env.now);
      if consumed == None {
        return Err(AuthenticationFailed(InvalidReset));
      }
      var user := UserOfFlow(consumed.value);
      if user == None || user.value.status != Active {
        return Err(AuthenticationFailed(InvalidReset));
      }
      if cfg.profile == SingleOwner && !IsOwnerEmail(cfg, user.value.email) {
        return Err(AuthorizationDenied(NotOwner));
      }
      var saved := SetPassword(user.value.id, password, Some(false), None, env);
      if saved.Err? {
        return Err(saved.error);
      }
      if cfg.revokeOnPasswordChange {
        var _ := storage.RevokeSessionsForUser(user.value.id, None, env.now);
      }
      r := Ok(user.value);
    }

    // ----- Social login -----

    method BeginSocialLogin(provider: string, returnToSafe: bool, nonce: Option<Secret>, env: Env)
      returns (r: Res<Flow>)
      modifies storage
      ensures (storage.State(), r)
        == Calls.BeginSocialLogin(cfg, old(storage.State()), provider, returnToSafe, nonce, env)
    {
      hide CreateFlow, NewFlow;
      if !returnToSafe {
        return Err(ValidationError(UnsafeReturnTo));
      }
      r := storage.CreateLoginFlow(NewFlow(cfg, OAuth, provider, nonce, None, None, env));
    }

    method ConsumeSocialLoginState(provider: string, state: Secret, nonce: Option<Secret>, env: Env)
      returns (r: Res<Flow>)
      modifies storage
      ensures (storage.State(), r) == ConsumeSocialState(cfg, old(storage.State()), provider, state, nonce, env)
    {
      hide FlowByHash, ConsumeFlow;
      var existing := storage.GetLoginFlowByStateHash(HashOf(state));
      if existing == None || !Consumable(existing.value, OAuth, provider, env.now) {
        return Err(AuthenticationFailed(InvalidSocialState));
      }
      if existing.value.nonceHash.Some? && (nonce == None || HashOf(nonce.value) != existing.value.nonceHash.value) {
        return Err(AuthenticationFailed(InvalidNonce));
      }
      var flow := storage.ConsumeLoginFlowByStateHash(HashOf(state), OAuth, Some(provider), env.now);
      r := if flow == None then Err(AuthenticationFailed(InvalidSocialState)) else Ok(flow.value);
    }

    /** The user of a known identity, or the user an unknown one is linked to. */
    method UserOfProfile(p: SocialProfile, env: Env) returns (r: Res<User>)
      modifies storage
      ensures (storage.State(), r) == SocialUser(cfg, old(storage.State()), p, env)
    {
      hide GetIdentity, UserByEmail, UpsertIdentity, CreateUserCall;
      var identity := storage.GetIdentity(p.provider, p.subject);
      if identity.Some? {
        r := RequireUser(identity.value.userId);
        return;
      }
      if p.email == "" {
        return Err(AuthenticationFailed(NoProviderEmail));
      }
      var existing := storage.GetUserByEmail(p.email);
      if existing.Some? && cfg.linkingNeedsVerified && !p.emailVerified {
        return Err(AuthenticationFailed(UnverifiedProviderEmail));
      }
      if existing.Some? {
        r := Ok(existing.value);
      } else {
        r := CreateUser(p.email, if cfg.profile == SingleOwner then Owner else Role.User, "", p.emailVerified, env);
        if r.Err? {
          return;
        }
      }
      storage.UpsertIdentity(Identity(r.value.id, p.provider, p.subject, p.email, p.emailVerified));
    }

    method LoginSocial(p: SocialProfile, state: Option<Secret>, nonce: Option<Secret>, env: Env)
      returns (r: Res<Session>)
      modifies storage
      ensures (storage.State(), r) == Calls.LoginSocial(cfg, old(storage.State()), p, state, nonce, env)
    {
      hide ConsumeSocialState, SocialUser, Calls.LoginWith;
      if state.Some? {
        var consumed := ConsumeSocialLoginState(p.provider, state.value, nonce, env);
        if consumed.Err? {
          return Err(consumed.error);
        }
      }
      var user := UserOfProfile(p, env);
      if user.Err? {
        return Err(user.error);
      }
      r := LoginWith(user.value, p.provider, env);
    }

    // ----- Sessions -----

    method VerifySession(token: Secret, permission: string, env: Env) returns (r: Res<Principal>)
      modifies storage
      ensures (storage.State(), r) == Calls.VerifySession(cfg, old(storage.State()), token, permission, env.now)
    {
      hide SessionByHash, Expired, Allows, TouchSession, TouchDue;
      var found := storage.GetSessionByTokenHash(HashOf(token));
      if found == None || found.value.revokedAt.Some? {
        return Err(AuthenticationFailed(InvalidSession));
      }
      var x := found.value;
      if Expired(x, env.now) {
        return Err(AuthenticationFailed(SessionExpired));
      }
      var user := RequireUser(x.userId);
      if user.Err? {
        return Err(user.error);
      }
      if user.value.status != Active {
        return Err(AuthenticationFailed(UserInactive));
      }
      if permission != "" && !Allows(x.permissions, permission) {
        return Err(AuthorizationDenied(PermissionMissing));
      }
      if TouchDue(cfg, x, env.now) {
        var refreshed := storage.TouchSession(x.id, env.now, IdleDeadline(cfg, env.now));
        if refreshed == None {
          return Err(AuthenticationFailed(InvalidSession));
        }
        x := refreshed.value;
      }
      r := Ok(Principal(user.value, x));
    }

    method RequireAal2(token: Secret, env: Env) returns (r: Res<Principal>)
      modifies storage
      ensures (storage.State(), r) == Calls.RequireAal2(cfg, old(storage.State()), token, env.now)
    {
      hide Calls.VerifySession;
      r := VerifySession(token, "", env);
      if r.Ok? && r.value.session.assurance != AAL2 {
        r := Err(AuthorizationDenied(Aal2Required));
      }
    }

    method Logout(token: Secret, env: Env)
      modifies storage
      ensures storage.State() == Calls.Logout(old(storage.State()), token, env.now).0
    {
      hide SessionByHash, AuthStore.RevokeSession;
      var found := storage.GetSessionByTokenHash(HashOf(token));
      if found.Some? {
        storage.RevokeSession(found.value.id, env.now);
      }
    }

    method RevokeSession(id: SessionId, env: Env)
      modifies storage
      ensures storage.State() == AuthStore.RevokeSession(old(storage.State()), id, env.now)
    {
      storage.RevokeSession(id, env.now);
    }

    method CleanupExpired(env: Env) returns (sessions: nat, flows: nat)
      modifies storage
      ensures storage.State() == Cleanup(old(storage.State()), env.now)
    {
      sessions, flows := storage.CleanupExpired(env.now);
    }

    // ----- Second factors -----

    method BeginTotpEnrollment(id: UserId, env: Env) returns (r: Res<Factor>)
      modifies storage
      ensures (storage.State(), r) == BeginEnrollment(cfg, old(storage.State()), id, env)
    {
      hide CreateFactor, StoreSecret;
      var user := RequireUser(id);
      if user.Err? {
        return Err(user.error);
      }
      if !cfg.vaultAccepted {
        return Err(ConfigurationError(InsecureVault));
      }
      var f := Factor(env.drawn.factor, id, Totp, Some(HashOf(env.drawn.secret)), false, None, None);
      storage.CreateMfaFactor(f);
      storage.StoreTotpSecret(f.id, env.drawn.secret);
      r := Ok(f);
    }

    method FactorCodeCounter(f: Factor, code: string, env: Env) returns (r: Option<int>)
      ensures r == CodeCounter(cfg, storage.State(), f, code, env.now)
    {
      var secret := storage.LoadTotpSecret(f.id);
      r := if secret == None || f.secretHash != Some(HashOf(secret.value)) then None
           else cfg.counterFor(secret.value, code, env.now);
    }

    method VerifyTotpEnrollment(user: UserId, id: FactorId, code: string, env: Env) returns (r: Res<Factor>)
      modifies storage
      ensures (storage.State(), r) == VerifyEnrollment(cfg, old(storage.State()), user, id, code, env)
    {
      hide CodeCounter, UpdateFactor;
      var found := storage.GetMfaFactor(id);
      if found == None || found.value.userId != user || found.value.kind != Totp {
        return Err(AuthenticationFailed(FactorMissing));
      }
      if found.value.enabled {
        return Ok(found.value);
      }
      var counter := FactorCodeCounter(found.value, code, env);
      if counter == None {
        return Err(AuthenticationFailed(InvalidCode));
      }
      var updated := found.value.(enabled := true, lastUsedAt := Some(env.now));
      var saved := storage.UpdateMfaFactor(updated);
      r := if saved.Err? then Err(saved.error) else Ok(updated);
    }

    method VerifyTotp(user: UserId, code: string, env: Env) returns (r: Res<Factor>)
      modifies storage
      ensures (storage.State(), r)
        == VerifyTotpIn(cfg, old(storage.State()), FactorsOf(old(storage.State()), user), code, env.now)
    {
      hide CodeCounter, MarkCounter, FactorsOf;
      var listed := storage.ListMfaFactors(user);
      ghost var goal := VerifyTotpIn(cfg, storage.State(), listed, code, env.now);
      for i := 0 to |listed|
        invariant VerifyTotpIn(cfg, storage.State(), listed[i..], code, env.now) == goal
      {
        var f := listed[i];
        assert listed[i..][0] == f && listed[i..][1..] == listed[i + 1..];
        if f.kind == Totp && f.enabled {
          var counter := FactorCodeCounter(f, code, env);
          if counter.Some? && !Replayed(f, counter.value) {
            var updated := storage.MarkMfaFactorCounterUsed(f.id, counter.value, env.now);
            if updated.Some? {
              return Ok(updated.value);
            }
          }
        }
      }
      r := Err(AuthenticationFailed(InvalidCode));
    }

    method RaiseAssurance(p: Principal, env: Env) returns (r: Res<Principal>)
      modifies storage
      ensures (storage.State(), r) == Calls.RaiseAssurance(old(storage.State()), p, env.now)
    {
      hide SetAssurance;
      var updated := storage.SetSessionAssuranceLevel(p.session.id, AAL2, env.now);
      r := if updated == None then Err(AuthenticationFailed(InvalidSession)) else Ok(Principal(p.user, updated.value));
    }

    method StepUpTotp(token: Secret, code: string, env: Env) returns (r: Res<Principal>)
      modifies storage
      ensures (storage.State(), r) == Calls.StepUpTotp(cfg, old(storage.State()), token, code, env)
    {
      hide Calls.VerifySession, VerifyTotpIn, FactorsOf, Calls.RaiseAssurance;
      r := VerifySession(token, "", env);
      if r.Err? {
        return;
      }
      if !env.allowed {
        return Err(AuthenticationFailed(RateLimited));
      }
      var f := VerifyTotp(r.value.user.id, code, env);
      if f.Err? {
        return Err(f.error);
      }
      r := RaiseAssurance(r.value, env);
    }

    method GenerateRecoveryCodes(user: UserId, env: Env) returns (r: Res<()>)
      modifies storage
      ensures (storage.State(), r) == GenerateCodes(old(storage.State()), user, env)
    {
      hide CreateCode;
      var found := RequireUser(user);
      if found.Err? {
        return Err(found.error);
      }
      var drawn := env.drawn.codes;
      ghost var s := storage.State();
      for i := 0 to |drawn|
        invariant storage.State() == CreateCodes(s, user, drawn[..i])
      {
        assert drawn[..i + 1][..i] == drawn[..i];
        storage.CreateRecoveryCode(RecoveryCode(drawn[i].0, user, HashOf(drawn[i].1), None));
      }
      assert drawn[..|drawn|] == drawn;
      r := Ok(());
    }

    method StepUpRecoveryCode(token: Secret, code: Secret, env: Env) returns (r: Res<Principal>)
      modifies storage
      ensures (storage.State(), r) == StepUpRecovery(cfg, old(storage.State()), token, code, env)
    {
      hide Calls.VerifySession, CodesOf, MarkCode, Calls.RaiseAssurance;
      var p := VerifySession(token, "", env);
      if p.Err? {
        return p;
      }
      if !env.allowed {
        return Err(AuthenticationFailed(RateLimited));
      }
      var listed := storage.ListRecoveryCodes(p.value.user.id);
      ghost var s := storage.State();
      for i := 0 to |listed|
        invariant storage.State() == s && FindCode(listed, HashOf(code)) == FindCode(listed[i..], HashOf(code))
      {
        assert listed[i..][0] == listed[i] && listed[i..][1..] == listed[i + 1..];
        if listed[i].usedAt == None && listed[i].codeHash == HashOf(code) {
          var marked := storage.MarkRecoveryCodeUsed(listed[i].id, env.now);
          if marked.Err? {
            return Err(AuthenticationFailed(InvalidCode));
          }
          r := RaiseAssurance(p.value, env);
          return;
        }
      }
      r := Err(AuthenticationFailed(InvalidCode));
    }
  }
}

/** What each call of the auth and admin services does to the storage and answers, one call
    being one step (src/coreline_auth/service.py, admin.py, service_support.py). */
module AuthCalls {
  import opened Prelude
  import opened Text
  import opened Permissions
  import opened AuthModels
  import opened AuthStore

  /** Values a call draws: ids, a token (or state), a TOTP secret, recovery codes. */
  datatype New = New(user: UserId, credential: CredentialId, session: SessionId, flow: FlowId, factor: FactorId,
                     token: Secret, sessionToken: Secret, secret: Secret, codes: seq<(CodeId, Secret)>)

  /** The surroundings of a call: the clock, the verdict of the pluggable rate limiter, and the
      values it would draw. */
  datatype Env = Env(now: Time, allowed: bool, drawn: New)

  // ----- Support -----

  function Require<T>(s: Store, o: Option<T>, e: Error): (Store, Res<T>) {
    match o case None => (s, Err(e)) case Some(v) => (s, Ok(v))
  }

  function RequireUser(s: Store, id: UserId): Res<User> {
    if id in s.users then Ok(s.users[id]) else Err(AuthenticationFailed(UserMissing))
  }

  predicate IsOwnerEmail(cfg: Config, email: string) {
    cfg.ownerEmail != "" && Lower(email) == Lower(cfg.ownerEmail)
  }

  /** `enforce_profile_login`; `None` lets the login through. */
  function ProfileObjection(cfg: Config, u: User): Option<Error> {
    if cfg.profile == SingleOwner && !IsOwnerEmail(cfg, u.email) then Some(AuthorizationDenied(NotOwner))
    else if cfg.requireVerified && !u.verified then Some(AuthenticationFailed(UnverifiedEmail))
    else None
  }

  function RecordLogin(s: Store, u: User, now: Time): (Store, Res<()>) {
    UpdateUser(s, u.(lastLoginAt := Some(now), updatedAt := now))
  }

  function IdleDeadline(cfg: Config, now: Time): Option<Time> {
    if cfg.idleTtl != 0 then Some(now + cfg.idleTtl) else None
  }

  // ----- Sessions -----

  function NewSession(cfg: Config, u: User, provider: string, env: Env): Session {
    var role := if cfg.profile == SingleOwner then Owner else u.role;
    Session(env.drawn.session, HashOf(env.drawn.sessionToken), u.id, u.email, provider, role,
            PermissionsFor(cfg.profile, cfg.ownerEmail, role, u.email), AAL1, env.now, env.now + cfg.sessionTtl,
            IdleDeadline(cfg, env.now), None, Some(env.now))
  }

  function IssueSession(cfg: Config, s: Store, u: User, provider: string, env: Env): (Store, Res<Session>) {
    CreateSession(s, NewSession(cfg, u, provider, env))
  }

  /** The common end of every login: issue the session, then record the login. */
  function FinishLogin(cfg: Config, s: Store, u: User, provider: string, env: Env): (Store, Res<Session>) {
    var (s1, issued) := IssueSession(cfg, s, u, provider, env);
    if issued.Err? then (s1, issued)
    else
      var (s2, recorded) := RecordLogin(s1, u, env.now);
      (s2, if recorded.Err? then Err(recorded.error) else issued)
  }

  function LoginWith(cfg: Config, s: Store, u: User, provider: string, env: Env): (Store, Res<Session>) {
    match ProfileObjection(cfg, u)
    case Some(e) => (s, Err(e))
    case None => FinishLogin(cfg, s, u, provider, env)
  }

  predicate TouchDue(cfg: Config, x: Session, now: Time) {
    cfg.touchInterval == 0 || x.lastSeenAt == None || now - x.lastSeenAt.value >= cfg.touchInterval
  }

  /** The checks of `verify_session` on the session and user it has read. */
  function SessionObjection(s: Store, x: Option<Session>, permission: string, now: Time): Option<Error> {
    if x == None || x.value.revokedAt.Some? then Some(AuthenticationFailed(InvalidSession))
    else if Expired(x.value, now) then Some(AuthenticationFailed(SessionExpired))
    else if x.value.userId !in s.users then Some(AuthenticationFailed(UserMissing))
    else if s.users[x.value.userId].status != Active then Some(AuthenticationFailed(UserInactive))
    else if permission != "" && !Allows(x.value.permissions, permission) then
      Some(AuthorizationDenied(PermissionMissing))
    else None
  }

  /** The throttled touch at the end of `verify_session`. */
  function Refresh(cfg: Config, s: Store, x: Session, now: Time): (Store, Option<Session>) {
    if TouchDue(cfg, x, now) then TouchSession(s, x.id, now, IdleDeadline(cfg, now)) else (s, Some(x))
  }

  /** `verify_session`; an empty permission is an absent one. */
  function VerifySession(cfg: Config, s: Store, token: Secret, permission: string, now: Time): (Store, Res<Principal>) {
    var found := SessionByHash(s, HashOf(token));
    match SessionObjection(s, found, permission, now)
    case Some(e) => (s, Err(e))
    case None =>
      var (s1, refreshed) := Refresh(cfg, s, found.value, now);
      (s1, if refreshed == None then Err(AuthenticationFailed(InvalidSession))
           else Ok(Principal(s.users[found.value.userId], refreshed.value)))
  }

  function Logout(s: Store, token: Secret, now: Time): (Store, Res<()>) {
    match SessionByHash(s, HashOf(token))
    case None => (s, Ok(()))
    case Some(x) => (RevokeSession(s, x.id, now), Ok(()))
  }

  function RequireAal2(cfg: Config, s: Store, token: Secret, now: Time): (Store, Res<Principal>) {
    var (s1, p) := VerifySession(cfg, s, token, "", now);
    if p.Ok? && p.value.session.assurance != AAL2 then (s1, Err(AuthorizationDenied(Aal2Required))) else (s1, p)
  }

  // ----- Users and passwords -----

  /** `hash_password`: at least eight characters. */
  function HashPassword(password: string): Res<PasswordHash> {
    if |password| < 8 then Err(ValidationError(WeakPassword)) else Ok(PasswordHash(password))
  }

  function SetPassword(cfg: Config, s: Store, id: UserId, password: string, revoke: Option<bool>,
                       except: Option<SessionId>, env: Env)
    : (Store, Res<Credential>)
  {
    if id !in s.users then (s, Err(AuthenticationFailed(UserMissing)))
    else
      var hashed := HashPassword(password);
      if hashed.Err? then (s, Err(hashed.error))
      else
        var existing := PasswordCredential(s, id);
        var c := if existing.Some? then existing.value.(hash := Some(hashed.value), revokedAt := None)
                 else Credential(env.drawn.credential, id, Some(hashed.value), None);
        var s1 := UpsertCredential(s, c);
        var revoking := if revoke.Some? then revoke.value else cfg.revokeOnPasswordChange;
        (if revoking then RevokeForUser(s1, id, except, env.now) else s1, Ok(c))
  }

  /** The record `create_user` stores; the single-owner profile makes every user its owner. */
  function NewUser(cfg: Config, normal: string, role: Role, verified: bool, env: Env): User {
    var single := cfg.profile == SingleOwner;
    AuthModels.User.User(env.drawn.user, normal, single || verified, if single then Owner else role, Active,
                         env.now, None)
  }

  /** Stores a new user with the identity for its address and its password, if any. */
  function StoreUser(cfg: Config, s: Store, u: User, password: string, env: Env): (Store, Res<User>) {
    var (s1, created) := CreateUser(s, u);
    if created.Err? then (s1, created)
    else
      var s2 := UpsertIdentity(s1, Identity(u.id, "email", u.email, u.email, u.verified));
      if password == "" then (s2, created)
      else
        var (s3, set_) := SetPassword(cfg, s2, u.id, password, Some(false), None, env);
        (s3, if set_.Err? then Err(set_.error) else created)
  }

  /** `create_user`; an empty password is an absent one. */
  function CreateUserCall(cfg: Config, s: Store, email: string, role: Role, password: string, verified: bool, env: Env)
    : (Store, Res<User>)
  {
    match cfg.normalize(email)
    case None => (s, Err(ValidationError(InvalidEmail)))
    case Some(normal) =>
      if cfg.profile == SingleOwner && !IsOwnerEmail(cfg, normal) then (s, Err(AuthorizationDenied(NotOwner)))
      else StoreUser(cfg, s, NewUser(cfg, normal, role, verified, env), password, env)
  }

  function BootstrapOwner(cfg: Config, s: Store, email: string, password: string, env: Env): (Store, Res<User>) {
    match cfg.normalize(email)
    case None => (s, Err(ValidationError(InvalidEmail)))
    case Some(normal) =>
      if !IsOwnerEmail(cfg, normal) then (s, Err(AuthorizationDenied(NotOwner)))
      else
        match UserByEmail(s, normal)
        case Some(u) =>
          if password == "" then (s, Ok(u))
          else
            var (s1, set_) := SetPassword(cfg, s, u.id, password, Some(false), None, env);
            (s1, if set_.Err? then Err(set_.error) else Ok(u))
        case None => CreateUserCall(cfg, s, normal, Owner, password, true, env)
  }

  function LoginPassword(cfg: Config, s: Store, email: string, password: string, env: Env): (Store, Res<Session>) {
    match cfg.normalize(email)
    case None => (s, Err(ValidationError(InvalidEmail)))
    case Some(normal) =>
      var found := UserByEmail(s, normal);
      if !env.allowed then (s, Err(AuthenticationFailed(RateLimited)))
      else if found == None || found.value.status != Active then (s, Err(AuthenticationFailed(InvalidLogin)))
      else
        match ProfileObjection(cfg, found.value)
        case Some(e) => (s, Err(e))
        case None =>
          var c := PasswordCredential(s, found.value.id);
          if c == None || c.value.hash != Some(PasswordHash(password)) then (s, Err(AuthenticationFailed(InvalidLogin)))
          else FinishLogin(cfg, s, found.value, "email", env)
  }

  // ----- One-time flows -----

  function NewFlow(cfg: Config, kind: FlowKind, provider: string, nonce: Option<Secret>, email: Option<string>,
                   user: Option<UserId>, env: Env): Flow
  {
    Flow(env.drawn.flow, kind, provider, HashOf(env.drawn.token),
         if nonce.Some? then Some(HashOf(nonce.value)) else None,
         email, env.now + cfg.flowTtl, None, user)
  }

  function RequestMagicLink(cfg: Config, s: Store, email: string, returnToSafe: bool, env: Env): (Store, Res<Flow>) {
    match cfg.normalize(email)
    case None => (s, Err(ValidationError(InvalidEmail)))
    case Some(normal) =>
      if !returnToSafe then (s, Err(ValidationError(UnsafeReturnTo)))
      else if cfg.profile == SingleOwner && !IsOwnerEmail(cfg, normal) then (s, Err(AuthorizationDenied(NotOwner)))
      else if !env.allowed then (s, Err(AuthenticationFailed(RateLimited)))
      else CreateFlow(s, NewFlow(cfg, MagicLink, "email", None, Some(normal), None, env))
  }

  function ConsumeMagicLink(cfg: Config, s: Store, token: Secret, env: Env): (Store, Res<Session>) {
    var (s1, consumed) := ConsumeFlow(s, HashOf(token), MagicLink, "email", env.now);
    if consumed == None || consumed.value.email == None || consumed.value.email == Some("") then
      (s1, Err(AuthenticationFailed(InvalidMagicLink)))
    else
      var email := consumed.value.email.value;
      match UserByEmail(s1, email)
      case Some(u) => LoginWith(cfg, s1, u, "email", env)
      case None =>
        var (s2, created) :=
          CreateUserCall(cfg, s1, email, if cfg.profile == SingleOwner then Owner else Role.User, "", true, env);
        if created.Err? then (s2, Err(created.error)) else LoginWith(cfg, s2, created.value, "email", env)
  }

  /** `request_email_verification` by id or by address. */
  function RequestVerification(cfg: Config, s: Store, id: Option<UserId>, email: Option<string>, env: Env)
    : (Store, Res<Flow>)
  {
    if id.Some? == email.Some? then (s, Err(ValidationError(BadArguments)))
    else if id == None && cfg.normalize(email.value) == None then (s, Err(ValidationError(InvalidEmail)))
    else
      var found := if id.Some? then Lookup(s.users, id.value) else UserByEmail(s, cfg.normalize(email.value).value);
      if found == None then (s, Err(AuthenticationFailed(UserMissing)))
      else
        var u := found.value;
        if u.status != Active then (s, Err(AuthenticationFailed(UserInactive)))
        else if cfg.profile == SingleOwner && !IsOwnerEmail(cfg, u.email) then (s, Err(AuthorizationDenied(NotOwner)))
        else if !env.allowed then (s, Err(AuthenticationFailed(RateLimited)))
        else CreateFlow(s, NewFlow(cfg, EmailVerification, "email", None, Some(u.email), Some(u.id), env))
  }

  /** The user a consumed flow is about: by the recorded id, else by address. */
  function FlowUser(s: Store, f: Flow): Option<User> {
    var byId := if f.userId.Some? then Lookup(s.users, f.userId.value) else None;
    if byId == None && f.email.Some? && f.email.value != "" then UserByEmail(s, f.email.value) else byId
  }

  function ConsumeVerification(cfg: Config, s: Store, token: Secret, env: Env): (Store, Res<User>) {
    var (s1, consumed) := ConsumeFlow(s, HashOf(token), EmailVerification, "email", env.now);
    if consumed == None then (s1, Err(AuthenticationFailed(InvalidVerification)))
    else
      var f := consumed.value;
      var found := FlowUser(s1, f);
      if found == None || found.value.status != Active then (s1, Err(AuthenticationFailed(InvalidVerification)))
      else
        var named := f.email.Some? && f.email.value != "";
        if named && (cfg.normalize(found.value.email) == None || cfg.normalize(f.email.value) == None) then
          (s1, Err(ValidationError(InvalidEmail)))
        else if named && cfg.normalize(found.value.email) != cfg.normalize(f.email.value) then
          (s1, Err(AuthenticationFailed(InvalidVerification)))
        else
          var u := found.value.(verified := true, updatedAt := env.now);
          var (s2, saved) := UpdateUser(s1, u);
          if saved.Err? then (s2, Err(saved.error))
          else
            match GetIdentity(s2, "email", u.email)
            case None => (s2, Ok(u))
            case Some(i) => (UpsertIdentity(s2, i.(verified := true)), Ok(u))
  }

  /** `request_password_reset`: without a deliverable address nothing is stored. */
  function RequestReset(cfg: Config, s: Store, email: string, env: Env): (Store, Res<Flow>) {
    match cfg.normalize(email)
    case None => (s, Err(ValidationError(InvalidEmail)))
    case Some(normal) =>
      if !env.allowed then (s, Err(AuthenticationFailed(RateLimited)))
      else
        var found := UserByEmail(s, normal);
        if found.Some? && found.value.status == Active
          && (cfg.profile != SingleOwner || normal == Lower(cfg.ownerEmail)) then
          CreateFlow(s, NewFlow(cfg, PasswordReset, "email", None, Some(normal), Some(found.value.id), env))
        else (s, Ok(NewFlow(cfg, PasswordReset, "email", None, Some(normal), None, env)))
  }

  function ConsumeReset(cfg: Config, s: Store, token: Secret, password: string, env: Env): (Store, Res<User>) {
    var (s1, consumed) := ConsumeFlow(s, HashOf(token), PasswordReset, "email", env.now);
    if consumed == None then (s1, Err(AuthenticationFailed(InvalidReset)))
    else
      var found := FlowUser(s1, consumed.value);
      if found == None || found.value.status != Active then (s1, Err(AuthenticationFailed(InvalidReset)))
      else if cfg.profile == SingleOwner && !IsOwnerEmail(cfg, found.value.email) then
        (s1, Err(AuthorizationDenied(NotOwner)))
      else
        var (s2, set_) := SetPassword(cfg, s1, found.value.id, password, Some(false), None, env);
        if set_.Err? then (s2, Err(set_.error))
        else (if cfg.revokeOnPasswordChange then RevokeForUser(s2, found.value.id, None, env.now) else s2,
              Ok(found.value))
  }

  // ----- Social login -----

  function BeginSocialLogin(cfg: Config, s: Store, provider: string, returnToSafe: bool, nonce: Option<Secret>,
                            env: Env): (Store, Res<Flow>)
  {
    if !returnToSafe then (s, Err(ValidationError(UnsafeReturnTo)))
    else CreateFlow(s, NewFlow(cfg, OAuth, provider, nonce, None, None, env))
  }

  predicate NonceMatches(f: Flow, nonce: Option<Secret>) {
    f.nonceHash.Some? ==> nonce.Some? && HashOf(nonce.value) == f.nonceHash.value
  }

  function ConsumeSocialState(cfg: Config, s: Store, provider: string, state: Secret, nonce: Option<Secret>, env: Env)
    : (Store, Res<Flow>)
  {
    var existing := FlowByHash(s, HashOf(state));
    if existing == None || !Consumable(existing.value, OAuth, provider, env.now) then
      (s, Err(AuthenticationFailed(InvalidSocialState)))
    else if !NonceMatches(existing.value, nonce) then (s, Err(AuthenticationFailed(InvalidNonce)))
    else
      var (s1, consumed) := ConsumeFlow(s, HashOf(state), OAuth, provider, env.now);
      Require(s1, consumed, AuthenticationFailed(InvalidSocialState))
  }

  /** The linking half of `login_social`: the user of a known identity, or the user an unknown
      one is linked to. */
  function SocialUser(cfg: Config, s: Store, p: SocialProfile, env: Env): (Store, Res<User>) {
    match GetIdentity(s, p.provider, p.subject)
    case Some(i) => (s, RequireUser(s, i.userId))
    case None =>
      if p.email == "" then (s, Err(AuthenticationFailed(NoProviderEmail)))
      else
        var existing := UserByEmail(s, p.email);
        if existing.Some? && cfg.linkingNeedsVerified && !p.emailVerified then
          (s, Err(AuthenticationFailed(UnverifiedProviderEmail)))
        else
          var (s1, user) :=
            if existing.Some? then (s, Ok(existing.value))
            else CreateUserCall(cfg, s, p.email, if cfg.profile == SingleOwner then Owner else Role.User, "",
                                p.emailVerified, env);
          if user.Err? then (s1, user)
          else (UpsertIdentity(s1, Identity(user.value.id, p.provider, p.subject, p.email, p.emailVerified)), user)
  }

  function LoginSocial(cfg: Config, s: Store, p: SocialProfile, state: Option<Secret>, nonce: Option<Secret>, env: Env)
    : (Store, Res<Session>)
  {
    var (s1, consumed) :=
      if state.Some? then ConsumeSocialState(cfg, s, p.provider, state.value, nonce, env)
      else (s, Err(AuthenticationFailed(InvalidSocialState)));
    if state.Some? && consumed.Err? then (s1, Err(consumed.error))
    else
      var (s2, user) := SocialUser(cfg, s1, p, env);
      if user.Err? then (s2, Err(user.error)) else LoginWith(cfg, s2, user.value, p.provider, env)
  }

  // ----- Second factors -----

  function BeginEnrollment(cfg: Config, s: Store, id: UserId, env: Env): (Store, Res<Factor>) {
    if id !in s.users then (s, Err(AuthenticationFailed(UserMissing)))
    else if !cfg.vaultAccepted then (s, Err(ConfigurationError(InsecureVault)))
    else
      var f := Factor(env.drawn.factor, id, Totp, Some(HashOf(env.drawn.secret)), false, None, None);
      (StoreSecret(CreateFactor(s, f), f.id, env.drawn.secret), Ok(f))
  }

  /** `_factor_code_counter`. */
  function CodeCounter(cfg: Config, s: Store, f: Factor, code: string, now: Time): Option<int> {
    match Lookup(s.vault, f.id)
    case None => None
    case Some(secret) => if f.secretHash != Some(HashOf(secret)) then None else cfg.counterFor(secret, code, now)
  }

  function VerifyEnrollment(cfg: Config, s: Store, user: UserId, id: FactorId, code: string, env: Env)
    : (Store, Res<Factor>)
  {
    var found := Lookup(s.factors, id);
    if found == None || found.value.userId != user || found.value.kind != Totp then
      (s, Err(AuthenticationFailed(FactorMissing)))
    else if found.value.enabled then (s, Ok(found.value))
    else if CodeCounter(cfg, s, found.value, code, env.now) == None then (s, Err(AuthenticationFailed(InvalidCode)))
    else
      var updated := found.value.(enabled := true, lastUsedAt := Some(env.now));
      var (s1, saved) := UpdateFactor(s, updated);
      (s1, if saved.Err? then Err(saved.error) else Ok(updated))
  }

  predicate Usable(cfg: Config, s: Store, f: Factor, code: string, now: Time) {
    && f.kind == Totp && f.enabled
    && CodeCounter(cfg, s, f, code, now).Some?
    && !Replayed(f, CodeCounter(cfg, s, f, code, now).value)
  }

  /** The loop of `verify_totp` over the listed factors. */
  function VerifyTotpIn(cfg: Config, s: Store, listed: seq<Factor>, code: string, now: Time): (Store, Res<Factor>) {
    if listed == [] then (s, Err(AuthenticationFailed(InvalidCode)))
    else if !Usable(cfg, s, listed[0], code, now) then VerifyTotpIn(cfg, s, listed[1..], code, now)
    else
      var (s1, marked) := MarkCounter(s, listed[0].id, CodeCounter(cfg, s, listed[0], code, now).value, now);
      if marked == None then VerifyTotpIn(cfg, s1, listed[1..], code, now) else (s1, Ok(marked.value))
  }

  /** The last step of both step-ups. */
  function RaiseAssurance(s: Store, p: Principal, now: Time): (Store, Res<Principal>) {
    var (s1, raised) := SetAssurance(s, p.session.id, AAL2, now);
    if raised == None then (s1, Err(AuthenticationFailed(InvalidSession)))
    else (s1, Ok(Principal(p.user, raised.value)))
  }

  function StepUpTotp(cfg: Config, s: Store, token: Secret, code: string, env: Env): (Store, Res<Principal>) {
    var (s1, p) := VerifySession(cfg, s, token, "", env.now);
    if p.Err? then (s1, p)
    else if !env.allowed then (s1, Err(AuthenticationFailed(RateLimited)))
    else
      var (s2, f) := VerifyTotpIn(cfg, s1, FactorsOf(s1, p.value.user.id), code, env.now);
      if f.Err? then (s2, Err(f.error)) else RaiseAssurance(s2, p.value, env.now)
  }

  function CreateCodes(s: Store, user: UserId, codes: seq<(CodeId, Secret)>): Store {
    if codes == [] then s
    else
      var init := CreateCodes(s, user, codes[..|codes| - 1]);
      var c := codes[|codes| - 1];
      CreateCode(init, RecoveryCode(c.0, user, HashOf(c.1), None))
  }

  function GenerateCodes(s: Store, user: UserId, env: Env): (Store, Res<()>) {
    if user !in s.users then (s, Err(AuthenticationFailed(UserMissing)))
    else (CreateCodes(s, user, env.drawn.codes), Ok(()))
  }

  /** The first listed unused code with the given hash. */
  function FindCode(listed: seq<RecoveryCode>, h: Hash): Option<RecoveryCode> {
    if listed == [] then None
    else if listed[0].usedAt == None && listed[0].codeHash == h then Some(listed[0])
    else FindCode(listed[1..], h)
  }

  function StepUpRecovery(cfg: Config, s: Store, token: Secret, code: Secret, env: Env): (Store, Res<Principal>) {
    var (s1, p) := VerifySession(cfg, s, token, "", env.now);
    if p.Err? then (s1, p)
    else if !env.allowed then (s1, Err(AuthenticationFailed(RateLimited)))
    else
      match FindCode(CodesOf(s1, p.value.user.id), HashOf(code))
      case None => (s1, Err(AuthenticationFailed(InvalidCode)))
      case Some(c) =>
        var (s2, marked) := MarkCode(s1, c.id, env.now);
        if marked.Err? then (s2, Err(AuthenticationFailed(InvalidCode))) else RaiseAssurance(s2, p.value, env.now)
  }

  // ----- Administration -----

  const USERS_WRITE := "users:write"
  const USERS_BAN := "users:ban"
  const SESSIONS_REVOKE := "sessions:revoke"

  /** `_require_another_active_privileged_user` finds one. */
  predicate AnotherPrivileged(s: Store, target: UserId) {
    exists id :: id in s.users
      && s.users[id].id != target && s.users[id].status == Active && Privileged(s.users[id].role)
  }

  function UpdateRole(cfg: Config, s: Store, actor: Secret, id: UserId, role: Role, env: Env): (Store, Res<User>) {
    var (s1, p) := VerifySession(cfg, s, actor, USERS_WRITE, env.now);
    if p.Err? then (s1, Err(p.error))
    else
      var user := RequireUser(s1, id);
      if user.Err? then (s1, user)
      else if Privileged(user.value.role) && !Privileged(role) && !AnotherPrivileged(s1, user.value.id) then
        (s1, Err(AuthorizationDenied(LastPrivileged)))
      else
        var updated := user.value.(role := role, updatedAt := env.now);
        var (s2, saved) := UpdateUser(s1, updated);
        if saved.Err? then (s2, Err(saved.error)) else (RevokeForUser(s2, updated.id, None, env.now), Ok(updated))
  }

  /** `ban_user` and `disable_user`; only disabling revokes the sessions. */
  function Suspend(cfg: Config, s: Store, actor: Secret, id: UserId, status: UserStatus, env: Env): (Store, Res<User>) {
    var (s1, p) := VerifySession(cfg, s, actor, if status == Banned then USERS_BAN else USERS_WRITE, env.now);
    if p.Err? then (s1, Err(p.error))
    else
      var user := RequireUser(s1, id);
      if user.Err? then (s1, user)
      else if user.value.id == p.value.user.id then (s1, Err(AuthorizationDenied(OwnAccount)))
      else if Privileged(user.value.role) && !AnotherPrivileged(s1, user.value.id) then
        (s1, Err(AuthorizationDenied(LastPrivileged)))
      else
        var updated := user.value.(status := status, updatedAt := env.now);
        var (s2, saved) := UpdateUser(s1, updated);
        if saved.Err? then (s2, Err(saved.error))
        else (if status == Disabled then RevokeForUser(s2, updated.id, None, env.now) else s2, Ok(updated))
  }

  /** `unban_user` and `enable_user`. */
  function Reinstate(cfg: Config, s: Store, actor: Secret, id: UserId, permission: string, env: Env): (Store, Res<User>)
  {
    var (s1, p) := VerifySession(cfg, s, actor, permission, env.now);
    if p.Err? then (s1, Err(p.error))
    else
      var user := RequireUser(s1, id);
      if user.Err? then (s1, user)
      else
        var updated := user.value.(status := Active, updatedAt := env.now);
        var (s2, saved) := UpdateUser(s1, updated);
        (s2, if saved.Err? then Err(saved.error) else Ok(updated))
  }

  function AdminSetPassword(cfg: Config, s: Store, actor: Secret, id: UserId, password: string, env: Env)
    : (Store, Res<Credential>)
  {
    var (s1, p) := VerifySession(cfg, s, actor, USERS_WRITE, env.now);
    if p.Err? then (s1, Err(p.error))
    else
      var (s2, c) := SetPassword(cfg, s1, id, password, Some(false), None, env);
      if c.Err? then (s2, c) else (if cfg.revokeOnPasswordChange then RevokeForUser(s2, id, None, env.now) else s2, c)
  }

  function AdminRevokeSession(cfg: Config, s: Store, actor: Secret, id: SessionId, env: Env): (Store, Res<()>) {
    var (s1, p) := VerifySession(cfg, s, actor, SESSIONS_REVOKE, env.now);
    if p.Err? then (s1, Err(p.error)) else (RevokeSession(s1, id, env.now), Ok(()))
  }
}

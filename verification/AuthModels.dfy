/** Domain records of the auth core (src/coreline_auth/models.py) and its configuration. Ids,
    tokens and secrets are opaque values; generated ones are inputs of the calls that draw them. */
module AuthModels {
  import opened Prelude
  import opened Permissions

  /** Whole seconds, as `now_utc` gives them. */
  type Time = int

  type UserId = nat
  type CredentialId = nat
  type FlowId = nat
  type SessionId = nat
  type FactorId = nat
  type CodeId = nat
  type Secret = nat

  /** SHA-256 of a secret, as an injective function and nothing more. */
  datatype Hash = HashOf(secret: Secret)

  /** Argon2 hash of a password: it verifies exactly that password. */
  datatype PasswordHash = PasswordHash(password: string)

  datatype UserStatus = Active | Disabled | Banned

  datatype FlowKind = MagicLink | EmailVerification | PasswordReset | OAuth

  datatype Assurance = AAL1 | AAL2

  datatype FactorKind = Totp | Passkey

  datatype User = User(id: UserId, email: string, verified: bool, role: Role, status: UserStatus,
                       updatedAt: Time, lastLoginAt: Option<Time>)

  datatype Identity = Identity(userId: UserId, provider: string, subject: string, email: string, verified: bool)

  datatype Credential = Credential(id: CredentialId, userId: UserId, hash: Option<PasswordHash>,
                                   revokedAt: Option<Time>)

  datatype Flow = Flow(id: FlowId, kind: FlowKind, provider: string, stateHash: Hash, nonceHash: Option<Hash>,
                       email: Option<string>, expiresAt: Time, consumedAt: Option<Time>, userId: Option<UserId>)

  datatype Session = Session(id: SessionId, tokenHash: Hash, userId: UserId, email: string, provider: string,
                             role: Role, permissions: seq<string>, assurance: Assurance, createdAt: Time,
                             expiresAt: Time, idleExpiresAt: Option<Time>, revokedAt: Option<Time>,
                             lastSeenAt: Option<Time>)

  datatype Factor = Factor(id: FactorId, userId: UserId, kind: FactorKind, secretHash: Option<Hash>, enabled: bool,
                           lastUsedAt: Option<Time>, lastUsedCounter: Option<int>)

  datatype RecoveryCode = RecoveryCode(id: CodeId, userId: UserId, codeHash: Hash, usedAt: Option<Time>)

  datatype Principal = Principal(user: User, session: Session)

  datatype SocialProfile = SocialProfile(provider: string, subject: string, email: string, emailVerified: bool)

  /** The exception class and the reason given with it. */
  datatype Error =
    | AuthenticationFailed(reason: Reason)
    | AuthorizationDenied(reason: Reason)
    | ValidationError(reason: Reason)
    | ConfigurationError(reason: Reason)

  datatype Reason =
    | InvalidSession | SessionExpired | UserMissing | UserInactive | PermissionMissing
    | InvalidEmail | InvalidLogin | InvalidMagicLink | InvalidVerification | InvalidReset
    | InvalidSocialState | InvalidNonce | NoProviderEmail | UnverifiedProviderEmail | UnverifiedEmail
    | NotOwner | RateLimited | UnsafeReturnTo | WeakPassword | EmailTaken | StateTaken | TokenTaken
    | InvalidCode | CodeUsed | FactorMissing | InsecureVault | Aal2Required
    | OwnAccount | LastPrivileged | BadArguments

  /** Equal up to the message. */
  predicate SameClass(a: Error, b: Error) {
    && (a.AuthenticationFailed? <==> b.AuthenticationFailed?)
    && (a.AuthorizationDenied? <==> b.AuthorizationDenied?)
    && (a.ValidationError? <==> b.ValidationError?)
  }

  type Res<T> = Result<T, Error>

  /** `CorelineAuthConfig`, with the library functions the service calls: address
      normalisation and the TOTP search. An empty owner address is an absent one, an idle
      lifetime of zero means no idle expiry. `vaultAccepted` says whether the configured secret
      vault may be used for enrolment. */
  datatype Config = Config(profile: Profile, ownerEmail: string, requireVerified: bool, sessionTtl: int, idleTtl: int,
                           touchInterval: int, flowTtl: int, linkingNeedsVerified: bool, revokeOnPasswordChange: bool,
                           vaultAccepted: bool, normalize: string -> Option<string>,
                           counterFor: (Secret, string, Time) -> Option<int>)

  predicate Expired(s: Session, now: Time) {
    s.expiresAt <= now || (s.idleExpiresAt.Some? && s.idleExpiresAt.value <= now)
  }

  predicate Privileged(role: Role) {
    role == Owner || role == Admin
  }
}

# Coreline Auth: verified model

This project models the security-relevant core of Coreline Auth and of its board demo, and proves
what they guarantee over whole runs and over interleavings.

* **Auth, sessions and second factors.** `AuthModels` holds the records and the configuration,
  `AuthStore` says what each storage operation does to the maps, `AuthCalls` what each service and
  admin call does as one step, `AuthRuns` puts calls into runs. `MemoryStorage`, `AuthService` and
  `AdminService` are the classes of the program: every method is proved to do exactly what the
  corresponding function says, and `Perform` to keep the storage valid. `AuthInvariants` and
  `AuthSafety` prove what every call keeps; `AuthGuarantees`, `SessionLifetimes`, `RegularUse` and
  `OneTime` state what follows for runs. `UserRecords`, `SessionRecords`, `FlowRecords` and
  `SecondFactors` say on the fields of the records what every call does to every one of them
  (`Footprints` holds what it leaves alone), and `AuthMeaning`, `FlowUse` and `AdminMeaning` when
  each call succeeds, if and only if, and what a request and its use do. `CleanupSimulation` and
  `CleanupInvisible` relate a run to the same run without its cleanups.
* **Protocols.** `StepUpProtocol` and `FlowProtocol` let any number of clients run step-ups and
  one-time flows one storage method at a time, interleaved with each other and with every other
  storage operation (`StorageOps`). `StaleRecords` shows what such interleavings do to a ban.
  `StepUpRefinement` and `FlowRefinement` prove that a client nobody interrupts does what the call
  does as one step.
* **Algorithms beside them.** `RateLimiter`, `JwksCache`, `Redaction`, `Permissions`,
  `Authorization`, `Totp`, and the board demo in `BoardState`, `BoardStorage`, `BoardService` and
  `BoardMeaning`.

Time is an integer (a real for the limiter and the key cache) given to each call. Ids, tokens and
secrets are values a call draws; runs require them to be unused. SHA-256 is an injective
constructor, a password hash verifies its own password, address normalisation and the TOTP search
are parameters of the configuration, and the verdict of the pluggable rate limiter is an input of
the calls that ask it.

Points that differ from a first reading of the code:

* A limiter window opens at its first allowed check, so the bound per window length is
  `2 * limit - 1` and not `2 * limit` (`RateLimiter.LimiterBound`, reached for every limit and
  window in `RateLimiter.BoundIsTight`).
* A step-up moves the time a session was last seen without its idle deadline, so a session used
  within every idle period can still idle out (`RegularUse.StepUpsStrand`). On a session in regular
  use so far, a step-up does no harm exactly when a touch is due, or at most one tick has passed
  since the last one, or the absolute end comes no later than the deadline, or the touch interval
  leaves no room between two uses (`RegularUse.StepUpOutlivedIff`).
* Covering of permissions fails to compose in exactly two cases: an `any` grant, an unscoped one and
  another scope, and a grant that is not the text `*`, that text, and a text that does not parse
  (`Permissions.CoveringComposes`, `Permissions.CoveringGap`, `Permissions.UnparsedGap`). The first
  explicit grant replaces the role defaults (`Authorization.AddingGrants`,
  `Authorization.FirstGrantCanLose`).
* Candidates are printed and read back, which drops outer whitespace: "doc:edit :own" is allowed by
  the grant "doc:edit" (`Authorization.TrimmedActionCounts`). A resource or action with a colon,
  which only separate arguments can have, does not read back, and the search then raises in an
  exactly stated case (`Authorization.CanClosedForm`). There, becoming the owner or getting a
  further grant can lose access, and an own-scoped grant can reach another's resource
  (`Authorization.OwnershipCanLose`, `Authorization.WiderGrantCanLose`,
  `Authorization.OwnGrantsCanStray`).
* Identities are kept under the text `provider:subject`. Two providers share a text for some
  subjects exactly when the name of one, with a colon, starts the name of the other
  (`AuthGuarantees.ProvidersCollide`); then their logins share a user
  (`AuthMeaning.SharedTextSharesUser`).
* A fetch of a key set that raises is remembered nowhere: through an outage every call that
  finds no fresh entry fetches (`JwksCache.OutageRefetches`, `JwksCache.OutageOfStaleEntry`).
* A new user whose password is too short is refused only after it has been stored: the address is
  then taken by a user without a password (`UserRecords.CreateUserMeaning`). Likewise a social login
  can register a user whom the profile then does not let in (`UserRecords.UsersFollowCalls`).
* Logins write back the user record they have read, so a ban or role change that comes in between is
  lost; a ban stands exactly when no login holds an active record of the user
  (`StaleRecords.BanStandsIff`).

## Model

| member | source | states |
|---|---|---|
| MemoryStorage.MemoryAuthStorage.CreateUser | src/coreline_auth/storage/memory.py:33-39 | stores a user under its id and address key, or refuses a taken address and changes nothing |
| MemoryStorage.MemoryAuthStorage.GetUserByEmail | src/coreline_auth/storage/memory.py:44-46 | finds through the address index |
| MemoryStorage.MemoryAuthStorage.UpdateUser | src/coreline_auth/storage/memory.py:48-52 | replaces a stored record and re-indexes its address, or refuses an unknown id |
| MemoryStorage.MemoryAuthStorage.UpsertIdentity | src/coreline_auth/storage/memory.py:77-80 | keeps an identity under `provider:subject` unless the subject is empty |
| MemoryStorage.MemoryAuthStorage.UpsertCredential | src/coreline_auth/storage/memory.py:85-89 | stores a credential and makes a usable one the user's password credential |
| MemoryStorage.MemoryAuthStorage.CreateLoginFlow | src/coreline_auth/storage/memory.py:95-101 | stores a flow under its id and state hash, or refuses a taken hash |
| MemoryStorage.MemoryAuthStorage.ConsumeLoginFlowByStateHash | src/coreline_auth/storage/memory.py:115-127 | one guarded step: only an unconsumed, unexpired flow of the kind, and of the provider when one is given, is marked and returned |
| MemoryStorage.MemoryAuthStorage.CreateSession | src/coreline_auth/storage/memory.py:129-134 | stores a session under its id and token hash, or refuses a taken hash |
| MemoryStorage.MemoryAuthStorage.TouchSession | src/coreline_auth/storage/memory.py:160-168 | only an unrevoked session gets a new last-seen time and idle deadline |
| MemoryStorage.MemoryAuthStorage.SetSessionAssuranceLevel | src/coreline_auth/storage/memory.py:170-178 | only an unrevoked session gets the level and last-seen time; the idle deadline stays |
| MemoryStorage.MemoryAuthStorage.RevokeSessionsForUser | src/coreline_auth/storage/memory.py:185-193 | exactly the unrevoked sessions whose user is the given one and whose id is not the spared one get the time of revocation; every other record is unchanged; they are counted, in any visiting order |
| MemoryStorage.MemoryAuthStorage.CleanupExpired | src/coreline_auth/storage/memory.py:195-212 | exactly the unrevoked sessions past one of their two ends are revoked, exactly the expired flows are forgotten with their index entries, and both are counted |
| MemoryStorage.MemoryAuthStorage.RevokeExpired | src/coreline_auth/storage/memory.py:196-202 | the session loop of cleanup, with its count |
| MemoryStorage.MemoryAuthStorage.ForgetExpired | src/coreline_auth/storage/memory.py:204-211 | the flow loop of cleanup, with its count |
| MemoryStorage.MemoryAuthStorage.ListMfaFactors | src/coreline_auth/storage/memory.py:249-250 | the user's factors in insertion order |
| MemoryStorage.MemoryAuthStorage.MarkMfaFactorCounterUsed | src/coreline_auth/storage/memory.py:257-266 | one guarded step: only a counter above the last used one is accepted |
| MemoryStorage.MemoryAuthStorage.MarkRecoveryCodeUsed | src/coreline_auth/storage/memory.py:275-282 | one guarded step: only an unused code is marked |
| AuthService.CorelineAuthService.SetPassword | src/coreline_auth/service.py:127-137 | replaces or creates the one password credential and revokes sessions as asked |
| AuthService.CorelineAuthService.CreateUser | src/coreline_auth/service.py:113-125 | the user, its address identity and its password, with the owner rules of the single-owner profile |
| AuthService.CorelineAuthService.BootstrapOwner | src/coreline_auth/service.py:101-111 | creates the owner, or only sets the password of an existing one |
| AuthService.CorelineAuthService.LoginPassword | src/coreline_auth/service.py:139-159 | issues a session exactly when limiter, user, profile and password let it |
| AuthService.CorelineAuthService.ConsumeMagicLink | src/coreline_auth/service.py:176-191 | consumes first, then creates a missing user, checks the profile and logs in |
| AuthService.CorelineAuthService.ConsumeEmailVerification | src/coreline_auth/service.py:213-232 | consumes first, then verifies the address of the flow's active user |
| AuthService.CorelineAuthService.RequestPasswordReset | src/coreline_auth/service.py:234-251 | stores a flow only for an active user the profile allows, and answers alike otherwise |
| AuthService.CorelineAuthService.ConsumePasswordReset | src/coreline_auth/service.py:253-271 | consumes first, then sets the password and revokes every session if configured |
| AuthService.CorelineAuthService.ConsumeSocialLoginState | src/coreline_auth/service.py:291-302 | checks state and nonce on a read, then consumes |
| AuthService.CorelineAuthService.UserOfProfile | src/coreline_auth/service.py:307-330 | the linked user of a known identity, else links on the address under the verification rule |
| AuthService.CorelineAuthService.LoginSocial | src/coreline_auth/service.py:304-335 | the optional state, the linking, the login |
| AuthService.CorelineAuthService.VerifySession | src/coreline_auth/service.py:346-372 | the checks in order and the throttled touch |
| AuthService.CorelineAuthService.VerifyTotp | src/coreline_auth/service.py:440-455 | the loop marks the first factor whose matching counter is still fresh |
| AuthService.CorelineAuthService.StepUpTotp | src/coreline_auth/service.py:457-465 | verify, limiter, spend a counter, raise |
| AuthService.CorelineAuthService.GenerateRecoveryCodes | src/coreline_auth/service.py:467-475 | the loop stores every drawn code, in order |
| AuthService.CorelineAuthService.StepUpRecoveryCode | src/coreline_auth/service.py:477-492 | verify, limiter, spend the first listed unused code with the hash, raise |
| AuthService.CorelineAuthService.RequireAal2 | src/coreline_auth/service.py:494-498 | verification that refuses a session below the second level |
| AdminService.CorelineAdminService.AnotherActivePrivileged | src/coreline_auth/admin.py:101-105 | finds whether another active owner or admin exists, in any visiting order |
| AdminService.CorelineAdminService.UpdateUserRole | src/coreline_auth/admin.py:27-36 | the guarded role change together with the revocation of the user's sessions |
| AdminService.CorelineAdminService.SuspendUser | src/coreline_auth/admin.py:38-69 | the guards shared by banning and disabling; only disabling revokes sessions |
| AdminService.CorelineAdminService.SetUserPassword | src/coreline_auth/admin.py:79-86 | the password change and the configured revocation |
| AdminService.CorelineAdminService.Perform | src/coreline_auth/admin.py:17-96 | every auth and admin call over the class storage is its step and keeps the storage valid |
| AuthSafety.StepKeeps | src/coreline_auth/service.py:75-498 | every call keeps all indexes, snapshots and records consistent, and changes users, sessions and identities only as allowed |
| AuthGuarantees.RunKeeps | src/coreline_auth/storage/memory.py:33-52 | the invariant holds after every run with fresh values |
| AuthGuarantees.EmptyStoreIsValid | src/coreline_auth/storage/memory.py:18-31 | a new storage satisfies the invariant |
| AuthGuarantees.LookupsAreScans | src/coreline_auth/storage/memory.py:95-138 | after any run, lookup by address, token hash, state hash or user finds exactly what a linear search in any order finds |
| AuthGuarantees.VerifyFollowsCurrentRole | src/coreline_auth/service.py:346-372 | after any run, verification succeeds if and only if a session with the token is unrevoked and before both of its ends, and its active user may use the permission by the current role: owners and admins any, viewers and users the reading listed, the single owner under the configured address |
| AuthGuarantees.SnapshotsFollowRoles | src/coreline_auth/service.py:337-344 | after any run, each unrevoked session carries the policy's role and permissions for its user's current role |
| AuthGuarantees.PrivilegeRemains | src/coreline_auth/admin.py:27-77 | an active owner or admin remains after every run that starts with one |
| AuthSafety.PrivilegeGuard | src/coreline_auth/admin.py:98-105 | the guard of role change, ban and disable leaves an active owner or admin |
| AuthGuarantees.KeysCollide | src/coreline_auth/storage/memory.py:77-83 | two pairs are kept under one text if and only if they are equal or one subject carries the rest of the other provider |
| AuthGuarantees.EmailKeysAreOfEmail | src/coreline_auth/storage/memory.py:77-83 | a provider's texts are those of address identities if and only if it is "email" or starts with it and a colon |
| AuthGuarantees.ProvidersCollide | src/coreline_auth/storage/memory.py:77-83 | two providers share a text for some subjects if and only if one of them, with a colon, starts the other |
| AuthGuarantees.IdentityStays | src/coreline_auth/service.py:304-335 | over any run a social identity stays exactly as it was linked |
| AuthGuarantees.SocialLoginLinks | src/coreline_auth/service.py:304-335 | a successful social login leaves its pair linked to the user it logs in |
| AuthGuarantees.SocialLoginsAgree | src/coreline_auth/service.py:304-335 | two social logins whose pairs share a text, as one pair always does, log in one user, any run apart |
| AuthGuarantees.LinksWereVerified | src/coreline_auth/service.py:313-329 | every link a run adds was made in one social login that vouches for it, to a user new in that call or to the one with the address, verified when the configuration asks |
| SessionLifetimes.DeadForever | src/coreline_auth/service.py:346-354 | a revoked or expired session is so after every later run |
| SessionLifetimes.DeadTokenIsRefused | src/coreline_auth/service.py:346-354 | its token is refused by every later verification |
| SessionLifetimes.LogoutKills | src/coreline_auth/service.py:374-378 | after a logout the token is refused after every run |
| SessionLifetimes.ResetKillsForever | src/coreline_auth/service.py:253-271 | after a reset, every token the user held is refused after every run |
| SessionLifetimes.RoleChangeKills | src/coreline_auth/admin.py:27-36 | a role change kills every session of the user |
| SessionLifetimes.LimitsFollowUse | src/coreline_auth/service.py:337-372 | the idle deadline is at most one idle lifetime after the last use, the absolute one exactly one session lifetime after creation |
| SessionLifetimes.UnusedTokenIsRefused | src/coreline_auth/service.py:346-372 | in all runs, step-ups included, a token unused for an idle lifetime or past its session lifetime is refused |
| RegularUse.StepUpSafeIff | src/coreline_auth/service.py:360-371 | a successful step-up leaves the session last seen at most a tick after its deadline was set if and only if a touch is due or at most a tick has passed since the last one |
| RegularUse.RegularUseIsSafe | src/coreline_auth/service.py:360-371 | in runs with only such step-ups, the last use is at most one touch interval after the deadline was set |
| RegularUse.RegularUseSurvives | src/coreline_auth/service.py:346-372 | then gaps below idle lifetime less touch interval never hit idle expiry, nor a cleanup, before the absolute end, and an unrevoked session of an active user verifies |
| RegularUse.StepUpOutlivedIff | src/coreline_auth/service.py:346-372 | when a session in regular use outlives a successful step-up, for every valid storage, exactly |
| RegularUse.LateIsStranded | src/coreline_auth/service.py:360-371 | a session last seen later than one tick after its deadline was set runs into that deadline in regular use |
| RegularUse.StepUpsStrand | src/coreline_auth/service.py:337-371 | for every touch interval of at least two ticks with room between two uses: after a login, step-ups at the first two ticks make regular use run into the idle deadline; verifications in their place do not |
| AuthMeaning.PasswordReplaced | src/coreline_auth/service.py:127-137 | after a change the user's usable password is the new one and no other, and other users' are as before |
| AuthMeaning.PasswordLoginMeaning | src/coreline_auth/service.py:139-159 | a password login succeeds if and only if the limiter allows it and an active account has the address and password, is verified if that is required, and is the configured owner when there is a single one |
| AuthMeaning.ObjectionMeaning | src/coreline_auth/service_support.py:49-57 | who is not let in is refused for not being the owner first, then for an unverified address |
| AuthMeaning.OnlyNewPasswordLogsIn | src/coreline_auth/service.py:127-159 | after a change the account logs in if and only if the attempt is the new password |
| AuthMeaning.LoginRoundTrip | src/coreline_auth/service.py:337-372 | a login's token verifies for that user at the first level until a lifetime ends |
| AuthMeaning.FlowWorksOnce | src/coreline_auth/storage/memory.py:95-127 | a created flow is consumed if and only if it has not expired, and not a second time right after, under any kind or provider |
| AuthMeaning.MagicLinkRoundTrip | src/coreline_auth/service.py:161-191 | a requested link logs an existing user in until it expires and is refused from then on |
| AuthMeaning.MagicLinkCreatesUser | src/coreline_auth/service.py:161-191 | for an address without a user, the link used in time creates an active, verified one, a plain user unless there is a single owner, and logs it in |
| AuthMeaning.ResetRoundTrip | src/coreline_auth/service.py:234-271 | a requested reset used in time gives the account exactly the new password |
| AuthMeaning.VerificationRoundTrip | src/coreline_auth/service.py:193-232 | a requested verification used in time marks the address verified |
| AuthMeaning.TotpMeaning | src/coreline_auth/service.py:440-455 | a code is accepted if and only if a factor of the user is an enabled TOTP factor, its stored secret has the hash it was enrolled with, and gives the code at a counter above the last one used |
| AuthMeaning.RecoveryMeaning | src/coreline_auth/service.py:482-492 | the loop finds a code if and only if the user has an unused one with the hash |
| AuthMeaning.TotpStepUpMeaning | src/coreline_auth/service.py:457-465 | a TOTP step-up succeeds if and only if the token verifies, the limiter allows it, and such a factor of the session's user accepts the code |
| AuthMeaning.RecoveryStepUpMeaning | src/coreline_auth/service.py:477-492 | when a recovery step-up succeeds, exactly |
| AuthMeaning.SuspendedIsRefused | src/coreline_auth/admin.py:38-69 | after every run that does not reinstate the user, every token of a banned or disabled user is refused |
| AuthMeaning.DisableKillsForever | src/coreline_auth/admin.py:58-69 | a token held when its user is disabled is refused after every run, reinstatement or not |
| AuthMeaning.AdminPasswordReplaces | src/coreline_auth/admin.py:79-86 | the password an admin sets is the only one the user then has; other users' stay |
| AuthMeaning.BootstrapIsIdempotent | src/coreline_auth/service.py:101-111 | a second bootstrap without a password finds the same owner and changes nothing |
| OneTime.GeneratedCodeWorksOnce | src/coreline_auth/service.py:467-492 | each generated code steps its user up; unless another unused code has its hash, it is refused after every later run that does not draw its secret again |
| OneTime.OneCodeIsSpent | src/coreline_auth/service.py:482-492 | a recovery step-up makes exactly one code unavailable, an unused one of its user with the hash |
| OneTime.StepAges | src/coreline_auth/storage/memory.py:95-127 | every call forgets, consumes or creates flows, and uses or creates codes, the created ones under what it draws |
| OneTime.ConsumedForever | src/coreline_auth/storage/memory.py:115-127 | a consumed flow is refused after every later run that does not draw its token again, under any kind or provider |
| AuthMeaning.SharedTextSharesUser | src/coreline_auth/service.py:304-335 | a social login under the text of another provider's pair succeeds and logs in that pair's user |
| UserRecords.UsersFollowCalls | src/coreline_auth/service.py:101-378 | what every call does to every user record, exactly: only naming a role sets it, only banning, disabling and reinstating set a status, only a verification marks an address, only logins set their times; and whom a call registers, with which role, status, address and verification |
| UserRecords.RolesAreGiven | src/coreline_auth/service.py:113-125 | after any run every user has the role of the start or the one an earlier call gave it, by setting it or by registering the user, and has had it ever since |
| UserRecords.PrivilegeIsNamed | src/coreline_auth/admin.py:27-36 | outside the single-owner profile, a user newly owner or admin was made so by a call naming that role or by the bootstrap; links, logins and verifications never do it |
| UserRecords.CreateUserMeaning | src/coreline_auth/service.py:113-125 | a user is stored as requested if and only if the address is normal and free, and the owner's when there is one; a weak password fails the call only afterwards and the user stays |
| UserRecords.BootstrapMeaning | src/coreline_auth/service.py:101-111 | a bootstrap is for the configured owner's address alone: it sets the password of the user there, or creates an owner, and refuses a weak password |
| UserRecords.AddressIsIdentity | src/coreline_auth/service.py:121 | a created user's address is kept as an identity of its own, verified like the user |
| UserRecords.VerificationMarksIdentity | src/coreline_auth/service.py:226-230 | a verification marks the identity of the user's address and no other |
| UserRecords.AddressesUpToCase | src/coreline_auth/storage/memory.py:13-14 | addresses that differ in outer whitespace and ASCII capitals only are one |
| UserRecords.PasswordSetMeaning | src/coreline_auth/service.py:127-137 | a password is set if and only if the user is stored and it has eight characters |
| SessionRecords.SessionsFollowCalls | src/coreline_auth/service.py:101-498 | what every call does to every session, exactly: when it is seen, raised and revoked; and that exactly the successful logins add one, with its fields |
| SessionRecords.RevocationsHaveCauses | src/coreline_auth/storage/memory.py:180-202 | over any run a session is revoked if and only if some call succeeds in revoking it: a password change or reset of its user that asks for it and does not spare it, a role change or disabling of its user, a logout with its token, a revocation by id, or a cleanup past one of its ends |
| SessionRecords.VerifiedAs | src/coreline_auth/service.py:346-372 | a verification answers with the one usable session of the token, as then seen, and its stored user |
| SessionRecords.VerifyRefusals | src/coreline_auth/service.py:346-359 | why a verification is refused: unknown or revoked, past an end, inactive user, missing permission, in that order |
| SessionRecords.Aal2Meaning | src/coreline_auth/service.py:494-498 | the second level is let through if and only if the token's session is usable and has it |
| FlowRecords.FlowsFollowCalls | src/coreline_auth/service.py:161-335 | what every call does to every login flow, exactly: consumed when live, whatever the call answers, forgotten by cleanups when expired; and when each request succeeds, and with which fields it stores a flow |
| FlowRecords.SocialStateMeaning | src/coreline_auth/service.py:291-302 | a social state is consumed if and only if a flow has its hash, is a social one of the provider, unconsumed, unexpired, and has no nonce hash or the hash of the given nonce; a wrong nonce is told from other reasons |
| FlowUse.SocialLoginMeaning | src/coreline_auth/service.py:304-335 | a social login succeeds if and only if such a flow exists for the state given, if one is, and the profile is let in: its known pair's user, else the user with its address under the linking rule, else a new one |
| FlowUse.MagicLinkMeaning | src/coreline_auth/service.py:176-191 | when a magic link logs in, exactly, and whom |
| FlowUse.ResetMeaning | src/coreline_auth/service.py:253-271 | when a reset succeeds, exactly, and for whom |
| FlowUse.VerificationMeaning | src/coreline_auth/service.py:213-232 | when an address verification succeeds, exactly |
| FlowUse.UseNeedsLive | src/coreline_auth/service.py:176-335 | no call that presents a link, state or other flow token succeeds without a live flow |
| FlowUse.UsedForGood | src/coreline_auth/storage/memory.py:115-127 | a token whose flow a call has used up is refused by every such call, social logins included, after every run that does not draw it again |
| SecondFactors.FactorsFollowCalls | src/coreline_auth/service.py:400-465 | what every call does to every factor and to the vault, exactly: enrolments add factors that are not enabled, confirmations enable them, step-ups spend a counter of the first factor to accept the code |
| SecondFactors.ConfirmationMeaning | src/coreline_auth/service.py:430-438 | when a confirmation succeeds, exactly, and that it enables the factor |
| SecondFactors.EnrollmentMeaning | src/coreline_auth/service.py:400-428 | when an enrolment begins, exactly, with the factor and secret it stores |
| SecondFactors.EnabledWasConfirmed | src/coreline_auth/service.py:430-438 | after any run an enabled factor was enabled at the start, or its user has confirmed it with a code of the secret it has |
| SecondFactors.StepUpWasConfirmed | src/coreline_auth/service.py:430-465 | a TOTP step-up rests on a factor that the session's user confirmed earlier in the run; a factor only enrolled never steps anyone up |
| AdminMeaning.AdminCallMeaning | src/coreline_auth/admin.py:27-105 | when each admin call succeeds, exactly: the permission it asks for, the actor's usable session, and the guards on its target |
| AdminMeaning.AdminsAreHigh | src/coreline_auth/admin.py:27-105 | only active owners and admins, or the single owner, succeed with an admin call |
| CleanupSimulation.CleanupSim | src/coreline_auth/storage/memory.py:195-212 | cleaning one of two related stores keeps them related |
| CleanupSimulation.VerifySim | src/coreline_auth/service.py:346-372 | related stores verify alike up to the class of the error |
| CleanupSimulation.ConsumeFlowSim | src/coreline_auth/storage/memory.py:115-127 | related stores consume alike |
| CleanupInvisible.StepSim | src/coreline_auth/service.py:75-498 | every call but cleanup answers alike on related stores and keeps them related |
| CleanupInvisible.CleanupChangesNoAnswer | src/coreline_auth/service.py:384-385 | cleanups inserted anywhere into a run change no other answer but for the message of an error |
| CleanupInvisible.ConsultedDecides | src/coreline_auth/service.py:139-479 | which calls ask the limiter about which key: a refusal decides them, and no other call |
| CleanupInvisible.CleanupChangesNoLimit | src/coreline_auth/service.py:384-385 | with and without cleanups the limiter is asked at the same calls with the same keys |
| StorageOps.ApplyKeeps | src/coreline_auth/storage/memory.py:143-212 | no storage operation clears a revocation, lowers a level, unmarks a code, lowers a counter, disables a factor or changes the hash of a token, secret or code, and only step-ups raise |
| StepUpProtocol.NextKeeps | src/coreline_auth/service.py:440-498 | every interleaved step keeps payments, raises and levels accounted for |
| StepUpProtocol.UpgradesArePaid | src/coreline_auth/service.py:440-492 | in every interleaving each raise has a payment of its own by the session's owner, for the code presented with that session's token; the code has the stored hash, or gives the counter under the secret of an enabled TOTP factor; no code is spent twice, and the counters of a factor strictly increase |
| StepUpProtocol.Aal2WasPaidFor | src/coreline_auth/service.py:494-498 | in every interleaving a second-level session, or one `require_aal2` let through, was raised by a paid step-up |
| StepUpProtocol.TraceGrows | src/coreline_auth/storage/memory.py:143-193 | in every interleaving revocation and the second level are never undone |
| StepUpProtocol.RevokedNeverVerifies | src/coreline_auth/service.py:346-372 | in every interleaving a revoked session never verifies in a call that has not read it before |
| StepUpProtocol.RevokeAllIsForever | src/coreline_auth/service.py:253-271 | after the revoke-all step every session the user held is shut out of all later calls |
| StepUpRefinement.SoloVerifyIsAtomic | src/coreline_auth/service.py:346-372 | the verification steps of an uninterrupted client are the call |
| StepUpRefinement.SoloTotpIsAtomic | src/coreline_auth/service.py:440-465 | so are those of a TOTP step-up, loop included |
| StepUpRefinement.SoloRecoveryIsAtomic | src/coreline_auth/service.py:477-492 | so are those of a recovery-code step-up |
| FlowProtocol.ConsumptionKeeps | src/coreline_auth/storage/memory.py:115-127 | a consumption returns the flow created under its hash, not consumed before, and unconsumable after |
| FlowProtocol.NextKeeps | src/coreline_auth/service.py:176-302 | every interleaved step keeps flows, consumptions and links accounted for |
| FlowProtocol.ConsumedAtMostOnce | src/coreline_auth/service.py:253-302 | in every interleaving each state hash is consumed at most once |
| FlowProtocol.LinksNeverOutnumberFlows | src/coreline_auth/service.py:176-191 | sessions issued for magic links are distinct, each for a link of its own, and never outnumber the links created |
| FlowProtocol.NonceMatchedAtConsumption | src/coreline_auth/service.py:291-302 | a consumed social state is the flow of the client's provider created under the presented state, consumed once, and its nonce hash, if any, is the hash of the client's nonce, though that was compared in an earlier read |
| FlowRefinement.SoloLinkIsAtomic | src/coreline_auth/service.py:176-191 | the steps of an uninterrupted client with a magic link are the call |
| FlowRefinement.SoloStateIsAtomic | src/coreline_auth/service.py:291-302 | so are those of a social state |
| FlowRefinement.SoloConsumptionIsAtomic | src/coreline_auth/service.py:213-259 | so is the consumption of a reset or verification flow |
| StaleRecords.BanStandsIff | src/coreline_auth/service.py:176-191 | a ban stands in every interleaving short of a reinstatement if and only if no login holds an active record of the user |
| StaleRecords.UncarriedStands | src/coreline_auth/service.py:176-191 | no step of any client undoes a ban nobody carries, nor begins to carry it |
| StaleRecords.CarriedIsUndone | src/coreline_auth/service.py:176-191 | the steps of a login that carries the record undo the ban |
| StaleRecords.RecordingRestores | src/coreline_auth/storage/memory.py:48-52 | recording a login restores the whole record that was read, role and status included |
| RateLimiter.FixedWindowRateLimiter.CleanupExpired | src/coreline_auth/rate_limit.py:54-60 | keeps exactly the live windows, in their order, and counts the rest |
| RateLimiter.FixedWindowRateLimiter.OldestKey | src/coreline_auth/rate_limit.py:44-46 | the first key, in insertion order, with the smallest reset time |
| RateLimiter.FixedWindowRateLimiter.Check | src/coreline_auth/rate_limit.py:40-52 | purge, eviction of that key, decision and new order; the error of evicting from nothing |
| RateLimiter.CheckMeaning | src/coreline_auth/rate_limit.py:40-52 | when a check is denied, exactly, for how many seconds, in which window an allowed one is counted, and which windows stay |
| RateLimiter.CapacityHolds | src/coreline_auth/rate_limit.py:43-46 | the number of windows never exceeds a positive capacity |
| RateLimiter.PurgeChangesNoDecision | src/coreline_auth/rate_limit.py:40-60 | purging on every check decides like a specification of the one key that never purges |
| RateLimiter.Tracking | src/coreline_auth/rate_limit.py:47-52 | what the window of a key says about the allowed checks so far, and the bound in every window length |
| RateLimiter.LimiterBound | src/coreline_auth/rate_limit.py:40-60 | at most `2 * limit - 1` allowed checks of a key in any interval one window long |
| RateLimiter.BoundIsTight | src/coreline_auth/rate_limit.py:40-60 | for every limit, window and positive capacity, a run that reaches the bound |
| JwksCache.JWKSCache.GetJwks | src/coreline_auth/social/discovery.py:61-79 | answer, new cache and whether the fetcher was called, failing fetches included |
| JwksCache.GetMeaning | src/coreline_auth/social/discovery.py:61-79 | when a call fetches, exactly, and what it then answers and stores |
| JwksCache.RefreshesAreSpaced | src/coreline_auth/social/discovery.py:63-67 | refreshes of one address lie a lifetime apart |
| JwksCache.MissesAreSpaced | src/coreline_auth/social/discovery.py:69-78 | failed searches for one key id lie a cooldown apart, whatever happens between |
| JwksCache.FetchBound | src/coreline_auth/social/discovery.py:61-79 | calls of the fetcher over a span: at most the spaced refreshes, spaced failed searches per key id, successful searches and fetches that raised |
| JwksCache.MissingKeysBound | src/coreline_auth/social/discovery.py:61-79 | with key ids no document contains: at most `1 + span/ttl + k * (1 + span/cooldown)` calls of the fetcher, and those that raised |
| JwksCache.OutageRefetches | src/coreline_auth/social/discovery.py:61-79 | through any run in which every fetch raises nothing changes, and the fetches are exactly the calls that would fetch on their own |
| JwksCache.OutageOfStaleEntry | src/coreline_auth/social/discovery.py:63-67 | without a fresh entry every call of such a run for the address fetches |
| JwksCache.AnswersAreFresh | src/coreline_auth/social/discovery.py:61-79 | every document handed out is the fetcher's answer from this call or within the lifetime |
| JwksCache.ConstantFetcherIsTransparent | src/coreline_auth/social/discovery.py:61-79 | with a constant fetcher the cache does not show |
| Redaction.RedactMapping | src/coreline_auth/storage/audit.py:37-46 | the loop with its break builds the redacted dictionary, order and overwriting included |
| Redaction.RedactValue | src/coreline_auth/storage/audit.py:49-62 | the recursion over dictionaries, lists and strings |
| Redaction.SensitiveMeaning | src/coreline_auth/storage/audit.py:50-52 | a key is sensitive if and only if one of the five words stands in it letter by letter, in any capitals |
| Redaction.NamedSecretsAreRedacted | src/coreline_auth/storage/audit.py:49-62 | whatever stands under a key with one of the words in any capitals comes out as "[REDACTED]", at every depth and inside lists |
| Redaction.CaseDoesNotMatter | src/coreline_auth/storage/audit.py:50-52 | keys that are equal once lowered redact every value alike |
| Redaction.OutputHidesSecrets | src/coreline_auth/storage/audit.py:37-62 | in every output only "[REDACTED]" stands under such keys, at every depth |
| Redaction.Markers | src/coreline_auth/storage/audit.py:37-62 | what is cut, at 50 entries, 50 items, 1000 characters and four containers, with its markers, and what is not |
| Redaction.NonInterference | src/coreline_auth/storage/audit.py:37-62 | trees that differ only under keys in which one of the five words stands, up to case, have one output |
| Redaction.FixedPoints | src/coreline_auth/storage/audit.py:37-62 | redaction leaves a tree alone if and only if it is canonical |
| Redaction.Idempotence | src/coreline_auth/storage/audit.py:37-62 | redacting twice is redacting once, for every tree |
| Redaction.OutputWithinCaps | src/coreline_auth/storage/audit.py:37-62 | the caps on entries, items, strings, keys and depth hold of every output |
| Permissions.ParseOfValue | src/coreline_auth/permissions.py:40-58 | printing then parsing gives the statement back if and only if it is printable |
| Permissions.ValueOfParse | src/coreline_auth/permissions.py:40-58 | parsing then printing gives the text back, with the exact exceptions |
| Permissions.CoversByStatement | src/coreline_auth/permissions.py:87-111 | covering of texts is covering of statements; unparsable texts cover and are covered only trivially |
| Permissions.AllowsMeaning | src/coreline_auth/permissions.py:83-111 | a list allows a permission if and only if one of its grants is `*`, the text itself, or covers it as a statement |
| Permissions.RolesAllow | src/coreline_auth/permissions.py:66-81 | what each role may do, exactly: owners and admins anything, viewers and users the reading listed |
| Permissions.SingleOwnerAllows | src/coreline_auth/permissions.py:67-70 | in the single-owner profile only the owner may do anything, under the configured address up to case |
| Permissions.CoveringComposes | src/coreline_auth/permissions.py:87-111 | covering is reflexive, and composes for all texts except in two exactly stated cases |
| Permissions.CoveringGap | src/coreline_auth/permissions.py:87-111 | the case of scopes is real for every resource and action, and exactly for scopes other than none, `own` and `any` |
| Permissions.UnparsedGap | src/coreline_auth/permissions.py:87-111 | the case of texts is real for exactly the texts that do not parse |
| Authorization.MatchedPermission | src/coreline_auth/authorization.py:171-175 | a grant in force that covers the requirement, or none does |
| Authorization.SearchMeaning | src/coreline_auth/authorization.py:97-108 | the search allows if and only if some candidate is allowed, and names the grant |
| Authorization.CandidatesAre | src/coreline_auth/authorization.py:145-169 | which requirements are tried, by scope and ownership |
| Authorization.DecideClosedForm | src/coreline_auth/authorization.py:78-108 | for every target without a colon: allowed if and only if the actor is active and a wide grant, or an own grant on an own resource, is in force |
| Authorization.ParsedTargetIsColonless | src/coreline_auth/authorization.py:136-143 | every target read from a permission text has no colon |
| Authorization.CanClosedForm | src/coreline_auth/authorization.py:78-108 | for all arguments: when the call raises, exactly, and otherwise when it allows, exactly |
| Authorization.PlainReadsBack | src/coreline_auth/permissions.py:40-58 | a printed unscoped candidate reads back with its outer whitespace dropped |
| Authorization.ScopedReadsBack | src/coreline_auth/permissions.py:40-58 | a printed scoped candidate reads back with the whitespace before its resource dropped |
| Authorization.GrantedMeaning | src/coreline_auth/authorization.py:78-108 | access is granted if and only if an active actor is permitted, for every target |
| Authorization.AccessMeaning | src/coreline_auth/authorization.py:44-108 | the same from the context alone: status texts in any capitals, default grants of a role by name, ownership by equal ids |
| Authorization.ContextMeaning | src/coreline_auth/authorization.py:44-62 | who counts as active, and which grants are in force |
| Authorization.TargetMeaning | src/coreline_auth/authorization.py:136-143 | which arguments name a target, and which target |
| Authorization.TrimmedActionCounts | src/coreline_auth/authorization.py:136-169 | a required text with whitespace before its scope is allowed by a grant of the trimmed action |
| Authorization.OwnershipIsMonotone | src/coreline_auth/authorization.py:145-169 | becoming the owner never loses access, but for one exact case with a colon, where the search raises |
| Authorization.OwnershipCanLose | src/coreline_auth/authorization.py:145-169 | that case is real: a grant list that lets everyone but the owner in |
| Authorization.OwnGrantsStayHome | src/coreline_auth/authorization.py:145-169 | own-scoped grants reach another owner's resource if and only if the unscoped text of the target reads back own-scoped for something they reach |
| Authorization.OwnGrantsCanStray | src/coreline_auth/authorization.py:145-169 | that case is real: an own-scoped grant that lets a stranger in |
| Authorization.AddingGrants | src/coreline_auth/authorization.py:90-92 | adding a grant loses access only where it replaces the role defaults, or makes the search raise on a target with a colon, exactly |
| Authorization.FirstGrantCanLose | src/coreline_auth/authorization.py:90-92 | the first case is real: an admin's first explicit grant |
| Authorization.WiderGrantCanLose | src/coreline_auth/authorization.py:97-108 | the second case is real: adding `*` makes the search raise |
| Totp.Truncate | src/coreline_auth/mfa.py:60-61 | a 31-bit value of the digest |
| Totp.TruncateMeaning | src/coreline_auth/mfa.py:60-61 | the value whose four bytes are those at the offset in the last hexadecimal digit of the digest, without the topmost bit |
| Totp.MatchesMeaning | src/coreline_auth/mfa.py:55-62 | a text matches a counter if and only if the counter can be packed and the text is as many digits as asked for, of the truncated hash modulo ten to their number |
| Totp.DigitsKept | src/coreline_auth/mfa.py:70 | cleaning a submitted code keeps exactly its digits, in order |
| Totp.CodeTextShape | src/coreline_auth/mfa.py:55-62 | a code is exactly `digits` decimal digits that denote the truncated value modulo ten to the `digits` |
| Totp.CodesAgree | src/coreline_auth/mfa.py:55-62 | codes are equal if and only if the values agree modulo ten to the `digits` |
| Totp.CounterForCode | src/coreline_auth/mfa.py:69-80 | the least matching counter in the window or none, and exactly when the search raises |
| Totp.SlotDrift | src/coreline_auth/mfa.py:69-80 | clock drift bounds counter drift in both directions |
| Totp.DriftWindow | src/coreline_auth/mfa.py:69-80 | a code is found within the window and its own counter is out of reach one period beyond it |
| Totp.GeneratedCodeIsNormal | src/coreline_auth/mfa.py:70-72 | generated codes survive the cleaning of submitted ones |
| BoardStorage.MemoryBoardStorage.CreatePost | demos/board_rbac/storage.py:40-46 | stores a new post with an empty list of comments, keeping the index |
| BoardStorage.MemoryBoardStorage.DeletePost | demos/board_rbac/storage.py:67-73 | the cascade loop removes the post, its comments and its index entry |
| BoardStorage.MemoryBoardStorage.CreateComment | demos/board_rbac/storage.py:75-83 | stores and indexes a comment of a stored post |
| BoardStorage.MemoryBoardStorage.UpdateComment | demos/board_rbac/storage.py:96-107 | changes a comment but never its post, author or creation time |
| BoardStorage.MemoryBoardStorage.DeleteComment | demos/board_rbac/storage.py:109-114 | removes a comment from the store and the index |
| BoardStorage.MemoryBoardStorage.ListComments | demos/board_rbac/storage.py:89-94 | the comments on a post sorted by creation time and id, in any visiting order of the set |
| BoardState.DeletePostCascades | demos/board_rbac/storage.py:67-73 | deleting a post is plain filtering of posts and comments |
| BoardState.ListingIsUnique | demos/board_rbac/storage.py:89-94 | filter-then-sort has one answer |
| BoardService.Service.CreatePost | demos/board_rbac/service.py:49-57 | authorization, cleaning and storing of a post |
| BoardService.Service.UpdatePost | demos/board_rbac/service.py:59-67 | ownership-aware authorization before cleaning and storing |
| BoardService.Service.UpdateComment | demos/board_rbac/service.py:99-102 | the same for a comment |
| BoardService.Service.ListComments | demos/board_rbac/service.py:80-82 | readers get the listing of a stored post |
| BoardMeaning.CallMeaning | demos/board_rbac/service.py:49-114 | when each writing call succeeds, exactly: the permission it needs by name, ownership, lengths; what it then stores; a refused call changes nothing |
| BoardMeaning.MatchesMeaning | demos/board_rbac/permissions.py:54-73 | permission texts cover each other if and only if their parts do |
| BoardMeaning.DefaultRolesMeaning | demos/board_rbac/permissions.py:22-50 | what each default role may do, exactly |
| BoardService.RunsKeepIndex | demos/board_rbac/storage.py:33-114 | in every reachable state the index lists exactly the stored comments of exactly the stored posts |
| BoardService.OriginsOverRuns | demos/board_rbac/storage.py:56-65 | a post's author and creation time never change while it lives |
| BoardService.CommentOriginsOverRuns | demos/board_rbac/storage.py:96-107 | nor a comment's author, creation time or post |
| BoardService.PostProvenance | demos/board_rbac/service.py:49-67 | every stored title and body was written by an accepted call of an active actor, allowed as its author or by an any-scope grant, and has stood since |
| BoardService.CommentProvenance | demos/board_rbac/service.py:88-102 | so was every stored comment |

## Left out

- Snapshots, roles and the remaining owner or admin are stated for calls that run one at a time: `record_login` and the admin calls write back whole user records, so two interleaved calls can overwrite each other's changes. For a ban beside magic-link logins `StaleRecords` says exactly when; two admin calls beside each other are not interleaved.
- FlowProtocol.NextKeeps: what follows the consumption of a reset or verification flow is left to the steps of the environment; the login that follows a magic link is modelled in full.
- MemoryStorage.MemoryAuthStorage.CreateLoginFlow: every flow has a state hash, as the services create them.
- Totp.CodeTextShape: zero digits print as one digit.
- Totp.CounterForCode: decoding the secret and computing HMAC-SHA-1 are one function from counters to digests.
- Lower-casing is exact for what can become ASCII letters; other letters map to themselves.
- `update_session`, `update_login_flow`: no service calls them.
- `verify_totp` and `issue_session` on their own: in runs they are parts of step-ups and logins.
- The development vault is a map of the storage class; encrypted vaults are not modelled.
- `list_users`, `list_sessions_for_user` and audit listing: filters and sorting only.
- Display names, avatars, session context hashes and creation and linking times of records other than sessions: no call decides on them.
- The return-path policy is a yes-or-no input of the calls that apply it.
- Email, metric and audit delivery: best effort, without effect on the modelled state.
- The SQLite, Postgres and Redis adapters and the async service; the guarded statements of the adapters are why one storage method is one step.
- Passkeys, OIDC claim checks, CSRF, PKCE, HTTP adapters and the demo's web layer.
- Interleaving inside one storage method, and rounding of floating-point clocks.

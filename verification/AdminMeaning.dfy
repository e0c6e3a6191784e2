/** Exactly when each admin call succeeds: for whom, with which permission, on whom. What it then
    does to the records is part of what every call does to users and sessions. */
module AdminMeaning {
  import opened Prelude
  import opened Text
  import opened Permissions
  import opened AuthModels
  import opened AuthStore
  import opened AuthCalls
  import opened AuthRuns
  import opened AuthInvariants
  import opened AuthGuarantees
  import F = Footprints
  import SessionRecords
  import UserRecords

  /** The permission each call asks for. */
  function Asked(call: AdminCall): string {
    match call
    case SetRole(_, _, _) => "users:write"
    case Ban(_, _) => "users:ban"
    case Unban(_, _) => "users:ban"
    case Disable(_, _) => "users:write"
    case Enable(_, _) => "users:write"
    case SetUserPassword(_, _, _) => "users:write"
    case RevokeAsAdmin(_, _) => "sessions:revoke"
  }

  predicate High(role: Role) {
    role == Owner || role == Admin
  }

  ghost predicate AnotherHigh(s: Store, user: UserId) {
    exists other :: other in s.users && other != user && s.users[other].status == Active && High(s.users[other].role)
  }

  /** What the call demands of its target. An owner or admin can be demoted, banned or disabled
      only while another one is active, and nobody bans or disables themselves. */
  ghost predicate TargetAllowed(s: Store, call: AdminCall, actor: UserId) {
    match call
    case SetRole(_, user, role) =>
      user in s.users && (High(s.users[user].role) && !High(role) ==> AnotherHigh(s, user))
    case Ban(_, user) => user in s.users && user != actor && (High(s.users[user].role) ==> AnotherHigh(s, user))
    case Disable(_, user) => user in s.users && user != actor && (High(s.users[user].role) ==> AnotherHigh(s, user))
    case Unban(_, user) => user in s.users
    case Enable(_, user) => user in s.users
    case SetUserPassword(_, user, password) => user in s.users && |password| >= 8
    case RevokeAsAdmin(_, _) => true
  }

  /** The session `id` is usable for the call and its target is allowed. */
  ghost predicate MayAdminister(cfg: Config, s: Store, call: AdminCall, id: SessionId, now: Time) {
    UsableSession(cfg, s, id, HashOf(call.actor), Asked(call), now) && TargetAllowed(s, call, s.sessions[id].userId)
  }

  lemma AnotherMeaning(cfg: Config, s: Store, user: UserId)
    requires forall id :: id in s.users ==> s.users[id].id == id
    ensures AnotherPrivileged(s, user) <==> AnotherHigh(s, user)
  {
    if AnotherPrivileged(s, user) {
      var id :| id in s.users && s.users[id].id != user && s.users[id].status == Active && Privileged(s.users[id].role);
      assert High(s.users[id].role);
    }
    if AnotherHigh(s, user) {
      var id :| id in s.users && id != user && s.users[id].status == Active && High(s.users[id].role);
      assert Privileged(s.users[id].role);
    }
  }

  lemma SameAnother(s: Store, s': Store, user: UserId)
    requires s'.users == s.users
    ensures AnotherHigh(s', user) <==> AnotherHigh(s, user)
  {
  }

  /** An admin call succeeds exactly when its token is usable for the permission it asks for and
      its target is allowed. */
  lemma AdminCallMeaning(cfg: Config, s: Store, call: AdminCall, env: Env)
    requires Inv(cfg, s)
    ensures AdminStep(cfg, s, call, env).1.Ok? <==> exists id :: MayAdminister(cfg, s, call, id, env.now)
  {
    hide Inv, UsableSession, VerifySession, UpdateRole, Suspend, Reinstate, AdminSetPassword, AdminRevokeSession,
      TargetAllowed;
    SessionRecords.VerifiedAs(cfg, s, call.actor, Asked(call), env.now);
    var p := VerifySession(cfg, s, call.actor, Asked(call), env.now).1;
    AfterVerification(cfg, s, call, env);
    if id :| UsableSession(cfg, s, id, HashOf(call.actor), Asked(call), env.now) {
      UsableIsKnown(cfg, s, id, HashOf(call.actor), Asked(call), env.now);
      UserRecords.StoredIds(cfg, s);
      forall other | UsableSession(cfg, s, other, HashOf(call.actor), Asked(call), env.now)
        ensures other in s.sessions && s.sessions[other].userId == p.value.user.id
      {
        UsableIsKnown(cfg, s, other, HashOf(call.actor), Asked(call), env.now);
      }
      if TargetAllowed(s, call, p.value.user.id) {
        assert MayAdminister(cfg, s, call, id, env.now);
      }
    }
  }

  lemma UsableIsKnown(cfg: Config, s: Store, id: SessionId, h: Hash, permission: string, now: Time)
    requires UsableSession(cfg, s, id, h, permission, now)
    ensures id in s.sessions && s.sessions[id].userId in s.users
  {
    hide MayUse;
  }

  lemma AfterVerification(cfg: Config, s: Store, call: AdminCall, env: Env)
    requires Inv(cfg, s)
    ensures var p := VerifySession(cfg, s, call.actor, Asked(call), env.now).1;
      AdminStep(cfg, s, call, env).1.Ok? <==> p.Ok? && TargetAllowed(s, call, p.value.user.id)
  {
    hide Inv, VerifySession, SetPassword, RevokeForUser, RevokeSession, UpdateUser, AnotherPrivileged, AnotherHigh;
    UserRecords.StoredIds(cfg, s);
    F.VerifyLeaves(cfg, s, call.actor, Asked(call), env.now);
    var s1 := VerifySession(cfg, s, call.actor, Asked(call), env.now).0;
    assert USERS_WRITE == "users:write" && USERS_BAN == "users:ban" && SESSIONS_REVOKE == "sessions:revoke";
    if call.RevokeAsAdmin? {
    } else if call.SetUserPassword? {
      UserRecords.PasswordSetMeaning(cfg, s1, call.user, call.password, Some(false), None, env);
    } else if call.user in s1.users {
      AnotherMeaning(cfg, s1, call.user);
      SameAnother(s, s1, call.user);
      var u := s1.users[call.user];
      if call.SetRole? {
        UserRecords.UpdateSucceeds(s1, u.(role := call.role, updatedAt := env.now));
      } else {
        UserRecords.UpdateSucceeds(s1, u.(status := Banned, updatedAt := env.now));
        UserRecords.UpdateSucceeds(s1, u.(status := Disabled, updatedAt := env.now));
        UserRecords.UpdateSucceeds(s1, u.(status := Active, updatedAt := env.now));
      }
    }
  }

  lemma AskedParses(call: AdminCall)
    ensures Parse(Asked(call)).Some? && Parse(Asked(call)).value.action != "read"
  {
    hide Parse;
    WriteParses();
    BanParses();
    RevokeParses();
  }

  lemma WriteParses()
    ensures Parse("users:write") == Some(Statement("users", "write", None))
  {
    hide Parse;
    PrintableRoundTrip(Statement("users", "write", None));
    assert Value(Statement("users", "write", None)) == "users:write";
  }

  lemma BanParses()
    ensures Parse("users:ban") == Some(Statement("users", "ban", None))
  {
    hide Parse;
    PrintableRoundTrip(Statement("users", "ban", None));
    assert Value(Statement("users", "ban", None)) == "users:ban";
  }

  lemma RevokeParses()
    ensures Parse("sessions:revoke") == Some(Statement("sessions", "revoke", None))
  {
    hide Parse;
    PrintableRoundTrip(Statement("sessions", "revoke", None));
    assert Value(Statement("sessions", "revoke", None)) == "sessions:revoke";
  }

  predicate HasAuthority(cfg: Config, u: User) {
    && u.status == Active
    && if cfg.profile == SingleOwner then
         cfg.ownerEmail == "" || u.email == "" || Lower(u.email) == Lower(cfg.ownerEmail)
       else High(u.role)
  }

  /** Only an active owner or admin, or the single owner under the configured address, ever
      succeeds with an admin call. */
  lemma AdminsAreHigh(cfg: Config, s: Store, call: AdminCall, env: Env)
    requires Inv(cfg, s) && AdminStep(cfg, s, call, env).1.Ok?
    ensures exists id ::
      MayAdminister(cfg, s, call, id, env.now) && HasAuthority(cfg, s.users[s.sessions[id].userId])
  {
    hide Inv, AdminStep, Parse, TargetAllowed;
    AdminCallMeaning(cfg, s, call, env);
    AskedParses(call);
    var id :| MayAdminister(cfg, s, call, id, env.now);
  }
}

/** Ownership-aware resource authorization (src/coreline_auth/authorization.py). */
module Authorization {
  import opened Prelude
  import opened Text
  import opened Permissions

  /** `actor_status` is absent, a `UserStatus` value, or free text compared case-insensitively. */
  datatype ActorStatus = Absent | Status(text: string) | FreeText(text: string)

  datatype Context = Context(actor: Option<string>, role: Option<Role>, status: ActorStatus, owner: Option<string>)

  datatype Decision = Decision(allowed: bool, required: string, reason: Reason, matched: Option<string>,
                               scope: Option<string>)

  datatype Reason = Allowed | ActorNotActive | MissingPermission

  datatype Failure = ValueError

  predicate ActorActive(ctx: Context) {
    match ctx.status
    case Absent => true
    case Status(text) => text == "active"
    case FreeText(text) => Lower(text) == "active"
  }

  predicate OwnsResource(ctx: Context) {
    ctx.actor.Some? && ctx.owner.Some? && ctx.actor == ctx.owner
  }

  /** `_required_statement`: either one permission text, or a resource and action with an
      optional scope. */
  function RequiredStatement(required: Option<string>, resource: string, action: string, scope: Option<string>)
    : Result<Statement, Failure>
  {
    if required.Some? then
      if scope.Some? then Err(ValueError)
      else match Parse(required.value)
        case None => Err(ValueError)
        case Some(st) => Ok(st)
    else if resource == "" || action == "" then Err(ValueError)
    else Ok(Statement(resource, action, scope))
  }

  function Dedup(s: seq<string>): seq<string> {
    if s == [] then []
    else
      var init := Dedup(s[..|s| - 1]);
      if s[|s| - 1] in init then init else init + [s[|s| - 1]]
  }

  /** `_candidate_requirements`. */
  function Candidates(st: Statement, owns: bool): seq<string> {
    var plain := Value(Statement(st.resource, st.action, None));
    var own := Value(Statement(st.resource, st.action, Some(OWN_SCOPE)));
    var any := Value(Statement(st.resource, st.action, Some(ANY_SCOPE)));
    Dedup(
      if st.scope == Some(ANY_SCOPE) then [any, plain]
      else if st.scope == Some(OWN_SCOPE) then if owns then [own, any, plain] else [any, plain]
      else if owns then [plain, own, any] else [plain, any])
  }

  /** `_matched_permission`: the first grant that covers the requirement. */
  function MatchedPermission(grants: seq<string>, required: string): (matched: Option<string>)
    ensures matched.Some? ==> matched.value in grants && Covers(matched.value, required)
    ensures matched == None ==> !Allows(grants, required)
  {
    if grants == [] then None
    else if Covers(grants[0], required) then Some(grants[0])
    else MatchedPermission(grants[1..], required)
  }

  /** The search over candidates; parsing the winning candidate may raise. */
  function Search(grants: seq<string>, candidates: seq<string>, required: string): Result<Decision, Failure> {
    if candidates == [] then Ok(Decision(false, required, MissingPermission, None, None))
    else match MatchedPermission(grants, candidates[0])
      case Some(grant) =>
        (match Parse(candidates[0])
         case None => Err(ValueError)
         case Some(st) => Ok(Decision(true, required, Allowed, Some(grant), st.scope)))
      case None => Search(grants, candidates[1..], required)
  }

  /** The grants in force: role defaults stand in only for an empty list. */
  function EffectiveGrants(profile: Profile, ownerEmail: string, grants: seq<string>, ctx: Context): seq<string> {
    if grants == [] && ctx.role.Some? then PermissionsFor(profile, ownerEmail, ctx.role.value, "") else grants
  }

  /** `ResourceAuthorizer.can` on an already built statement. */
  function Decide(profile: Profile, ownerEmail: string, grants: seq<string>, st: Statement, ctx: Context)
    : Result<Decision, Failure>
  {
    if !ActorActive(ctx) then Ok(Decision(false, Value(st), ActorNotActive, None, None))
    else Search(EffectiveGrants(profile, ownerEmail, grants, ctx), Candidates(st, OwnsResource(ctx)), Value(st))
  }

  /** `ResourceAuthorizer.can`. */
  function Can(profile: Profile, ownerEmail: string, grants: seq<string>, required: Option<string>,
               resource: string, action: string, scope: Option<string>, ctx: Context): Result<Decision, Failure>
  {
    match RequiredStatement(required, resource, action, scope)
    case Err(e) => Err(e)
    case Ok(st) => Decide(profile, ownerEmail, grants, st, ctx)
  }

  // ----- The closed form -----

  /** No colon in the resource or action. */
  predicate Colonless(st: Statement) {
    ':' !in st.resource && ':' !in st.action
  }

  /** Every target read from a permission text is colonless. */
  lemma ParsedTargetIsColonless(text: string)
    requires Parse(text).Some?
    ensures Colonless(Parse(text).value)
  {
    ParsedShape(text);
  }

  /** `grant` reaches the resource and action. */
  predicate Reaches(grant: string, resource: string, action: string) {
    && Parse(grant).Some?
    && (Parse(grant).value.resource == ALL_PERMISSIONS || Parse(grant).value.resource == resource)
    && (Parse(grant).value.action == ALL_PERMISSIONS || Parse(grant).value.action == action)
  }

  predicate WideOn(grant: string, resource: string, action: string) {
    && Reaches(grant, resource, action)
    && var scope := Parse(grant).value.scope;
    scope == None || scope == Some(ANY_SCOPE) || scope == Some(ALL_PERMISSIONS)
  }

  /** A grant wide enough for the target. Printing and reading back drops outer whitespace, so
      the trimmed action counts as well as the action itself. */
  predicate WideGrant(grant: string, st: Statement) {
    WideOn(grant, StripLeft(st.resource), StripRight(st.action)) || WideOn(grant, StripLeft(st.resource), st.action)
  }

  predicate OwnGrant(grant: string, st: Statement) {
    Reaches(grant, StripLeft(st.resource), st.action) && Parse(grant).value.scope == Some(OWN_SCOPE)
  }

  /** What the search is meant to decide, without candidates. */
  predicate Permitted(grants: seq<string>, st: Statement, owns: bool) {
    || SomeWide(grants, st)
    || (owns && st.scope != Some(ANY_SCOPE) && SomeOwn(grants, st))
  }

  predicate SomeWide(grants: seq<string>, st: Statement) {
    exists i :: 0 <= i < |grants| && WideGrant(grants[i], st)
  }

  predicate SomeOwn(grants: seq<string>, st: Statement) {
    exists i :: 0 <= i < |grants| && OwnGrant(grants[i], st)
  }

  function PlainText(st: Statement): string { Value(Statement(st.resource, st.action, None)) }
  function OwnText(st: Statement): string { Value(Statement(st.resource, st.action, Some(OWN_SCOPE))) }
  function AnyText(st: Statement): string { Value(Statement(st.resource, st.action, Some(ANY_SCOPE))) }

  predicate SomeCandidateAllowed(grants: seq<string>, candidates: seq<string>) {
    exists j :: 0 <= j < |candidates| && Allows(grants, candidates[j])
  }

  lemma {:induction false} DedupKeeps(s: seq<string>)
    ensures forall x :: x in Dedup(s) <==> x in s
  {
    if s != [] {
      DedupKeeps(s[..|s| - 1]);
      assert s == s[..|s| - 1] + [s[|s| - 1]];
    }
  }

  /** The decision names a grant in force and the candidate it covers. */
  predicate Justified(d: Decision, grants: seq<string>, candidates: seq<string>) {
    && d.matched.Some? && d.matched.value in grants
    && exists j :: 0 <= j < |candidates| && Covers(d.matched.value, candidates[j])
         && Some(d.scope) == ScopeOf(candidates[j])
  }

  function ScopeOf(text: string): Option<Option<string>> {
    match Parse(text) case None => None case Some(st) => Some(st.scope)
  }

  /** The search allows exactly when some candidate is allowed, and says which grant did it. */
  lemma {:induction false} SearchMeaning(grants: seq<string>, candidates: seq<string>, required: string)
    requires forall j :: 0 <= j < |candidates| ==> Parse(candidates[j]).Some?
    ensures Search(grants, candidates, required).Ok?
    ensures var d := Search(grants, candidates, required).value;
      && d.required == required
      && (d.allowed <==> SomeCandidateAllowed(grants, candidates))
      && (d.allowed ==> Justified(d, grants, candidates))
      && d.reason != ActorNotActive
  {
    hide Covers, Parse;
    if candidates != [] {
      var m := MatchedPermission(grants, candidates[0]);
      if m == None {
        SearchMeaning(grants, candidates[1..], required);
        assert candidates == [candidates[0]] + candidates[1..];
        assert SomeCandidateAllowed(grants, candidates) <==> SomeCandidateAllowed(grants, candidates[1..]) by {
          if SomeCandidateAllowed(grants, candidates) {
            var j :| 0 <= j < |candidates| && Allows(grants, candidates[j]);
            assert Allows(grants, candidates[1..][j - 1]);
          }
        }
      } else {
        assert Allows(grants, candidates[0]) by {
          var i :| 0 <= i < |grants| && grants[i] == m.value;
        }
      }
    }
  }

  // ----- What printed candidates read back as -----

  lemma {:induction false} StripLeftStops(a: string, rest: string)
    ensures StripLeft(a + ":" + rest) == StripLeft(a) + ":" + rest
  {
    var s := a + ":" + rest;
    if a != "" && IsSpace(a[0]) {
      assert s[1..] == a[1..] + ":" + rest;
      StripLeftStops(a[1..], rest);
    }
  }

  lemma {:induction false} StripRightStops(front: string, b: string)
    ensures StripRight(front + ":" + b) == front + ":" + StripRight(b)
  {
    var s := front + ":" + b;
    if b != "" && IsSpace(b[|b| - 1]) {
      assert s[..|s| - 1] == front + ":" + b[..|b| - 1];
      StripRightStops(front, b[..|b| - 1]);
    }
  }

  lemma {:induction false} StripPartsOf(s: string)
    ensures forall c :: c in StripLeft(s) ==> c in s
    ensures forall c :: c in StripRight(s) ==> c in s
  {
    if s != "" {
      StripPartsOf(s[1..]);
      StripPartsOf(s[..|s| - 1]);
    }
  }

  lemma PlainReadsBack(st: Statement)
    requires Colonless(st)
    ensures Parse(PlainText(st)) == Some(Statement(StripLeft(st.resource), StripRight(st.action), None))
  {
    if st.resource == ALL_PERMISSIONS && st.action == ALL_PERMISSIONS {
      assert Strip(ALL_PERMISSIONS) == ALL_PERMISSIONS;
    } else {
      var r, a := StripLeft(st.resource), StripRight(st.action);
      StripLeftStops(st.resource, st.action);
      StripRightStops(r, st.action);
      StripPartsOf(st.resource);
      StripPartsOf(st.action);
      SplitTwo(r, a);
      assert (r + ":" + a)[|r|] == ':';
    }
  }

  lemma ScopedText(r: string, a: string, scope: string)
    requires ':' !in scope && scope != "" && !IsSpace(scope[|scope| - 1])
    ensures Strip(r + ":" + a + ":" + scope) == StripLeft(r) + ":" + a + ":" + scope
  {
    hide IsSpace;
    var rest := a + ":" + scope;
    assert r + ":" + a + ":" + scope == r + ":" + rest;
    StripLeftStops(r, rest);
    var front := StripLeft(r) + ":" + a;
    assert StripLeft(r) + ":" + rest == front + ":" + scope;
    StripRightStops(front, scope);
    assert StripRight(scope) == scope;
  }

  lemma ScopedReadsBack(st: Statement, scope: string)
    requires Colonless(st) && ':' !in scope && scope != "" && !IsSpace(scope[|scope| - 1])
    ensures Parse(Value(Statement(st.resource, st.action, Some(scope))))
      == Some(Statement(StripLeft(st.resource), st.action, Some(scope)))
  {
    hide Strip, Split, IsSpace, StripLeft;
    var r := StripLeft(st.resource);
    ScopedText(st.resource, st.action, scope);
    StripPartsOf(st.resource);
    SplitThree(r, st.action, scope);
    assert |r + ":" + st.action + ":" + scope| >= 3;
  }

  /** Which grants cover each kind of candidate. */
  lemma CandidateCovered(grant: string, st: Statement)
    requires Colonless(st)
    ensures Covers(grant, PlainText(st)) <==> WideOn(grant, StripLeft(st.resource), StripRight(st.action))
    ensures Covers(grant, AnyText(st)) <==> WideOn(grant, StripLeft(st.resource), st.action)
    ensures Covers(grant, OwnText(st)) <==> WideOn(grant, StripLeft(st.resource), st.action) || OwnGrant(grant, st)
    ensures Parse(PlainText(st)).Some? && Parse(AnyText(st)).Some? && Parse(OwnText(st)).Some?
  {
    hide Value, Parse, Covers, StripLeft, StripRight, Colonless;
    PlainReadsBack(st);
    ScopedReadsBack(st, OWN_SCOPE);
    ScopedReadsBack(st, ANY_SCOPE);
    CoversByStatement(grant, PlainText(st));
    CoversByStatement(grant, OwnText(st));
    CoversByStatement(grant, AnyText(st));
    Unparsed(grant);
  }

  /** `*` parses, so an unparsable grant is not it. */
  lemma Unparsed(grant: string)
    ensures Parse(grant) == None ==> grant != ALL_PERMISSIONS
  {
    assert Strip(ALL_PERMISSIONS) == ALL_PERMISSIONS;
  }

  /** Which texts the candidates are. */
  lemma CandidatesAre(st: Statement, owns: bool)
    ensures forall c :: c in Candidates(st, owns) <==>
      || c == PlainText(st)
      || c == AnyText(st)
      || (c == OwnText(st) && owns && st.scope != Some(ANY_SCOPE))
  {
    hide Dedup, Value;
    DedupKeeps([AnyText(st), PlainText(st)]);
    DedupKeeps([OwnText(st), AnyText(st), PlainText(st)]);
    DedupKeeps([PlainText(st), OwnText(st), AnyText(st)]);
    DedupKeeps([PlainText(st), AnyText(st)]);
  }

  predicate SomeWideOn(grants: seq<string>, resource: string, action: string) {
    exists i :: 0 <= i < |grants| && WideOn(grants[i], resource, action)
  }

  lemma AllowsMeaning(grants: seq<string>, st: Statement)
    requires Colonless(st)
    ensures Allows(grants, PlainText(st)) <==> SomeWideOn(grants, StripLeft(st.resource), StripRight(st.action))
    ensures Allows(grants, AnyText(st)) <==> SomeWideOn(grants, StripLeft(st.resource), st.action)
    ensures Allows(grants, OwnText(st))
      <==> SomeWideOn(grants, StripLeft(st.resource), st.action) || SomeOwn(grants, st)
  {
    hide Covers, WideOn, OwnGrant, Value, StripLeft, StripRight, PlainText, AnyText, OwnText;
    forall i | 0 <= i < |grants|
      ensures Covers(grants[i], PlainText(st)) <==> WideOn(grants[i], StripLeft(st.resource), StripRight(st.action))
      ensures Covers(grants[i], AnyText(st)) <==> WideOn(grants[i], StripLeft(st.resource), st.action)
      ensures Covers(grants[i], OwnText(st))
        <==> WideOn(grants[i], StripLeft(st.resource), st.action) || OwnGrant(grants[i], st)
    {
      CandidateCovered(grants[i], st);
    }
  }

  lemma WideIsEither(grants: seq<string>, st: Statement)
    ensures SomeWide(grants, st) <==>
      SomeWideOn(grants, StripLeft(st.resource), StripRight(st.action))
        || SomeWideOn(grants, StripLeft(st.resource), st.action)
  {
    hide WideOn, StripLeft, StripRight;
    if i :| 0 <= i < |grants| && WideOn(grants[i], StripLeft(st.resource), StripRight(st.action)) {
      assert WideGrant(grants[i], st);
    }
    if i :| 0 <= i < |grants| && WideOn(grants[i], StripLeft(st.resource), st.action) {
      assert WideGrant(grants[i], st);
    }
  }

  lemma CandidatesMeaning(grants: seq<string>, st: Statement, owns: bool)
    requires Colonless(st)
    ensures SomeCandidateAllowed(grants, Candidates(st, owns)) <==> Permitted(grants, st, owns)
    ensures forall c :: c in Candidates(st, owns) ==> Parse(c).Some?
  {
    hide Candidates, Allows, Parse, Value, SomeWide, SomeWideOn, SomeOwn, StripLeft, StripRight, PlainText, OwnText,
      AnyText, Covers, OwnGrant, WideOn;
    CandidatesAre(st, owns);
    CandidateCovered("", st);
    AllowsMeaning(grants, st);
    WideIsEither(grants, st);
    var cs := Candidates(st, owns);
    if SomeCandidateAllowed(grants, cs) {
      var j :| 0 <= j < |cs| && Allows(grants, cs[j]);
      assert cs[j] in cs;
    }
    if Allows(grants, PlainText(st)) {
      assert PlainText(st) in cs;
    }
    if Allows(grants, AnyText(st)) {
      assert AnyText(st) in cs;
    }
    if owns && st.scope != Some(ANY_SCOPE) && Allows(grants, OwnText(st)) {
      assert OwnText(st) in cs;
    }
  }

  /** A justified decision rests on a grant of the right kind. */
  lemma JustifiedReaches(d: Decision, grants: seq<string>, st: Statement, owns: bool)
    requires Colonless(st) && Justified(d, grants, Candidates(st, owns))
    ensures WideGrant(d.matched.value, st) || OwnGrant(d.matched.value, st)
  {
    hide Candidates, Parse, Covers, WideOn, OwnGrant, Value, StripLeft, StripRight, PlainText, OwnText, AnyText;
    var cs := Candidates(st, owns);
    var grant := d.matched.value;
    var j :| 0 <= j < |cs| && Covers(grant, cs[j]);
    CandidateCovered(grant, st);
    CandidatesAre(st, owns);
    assert cs[j] in cs;
  }

  /** Closed form of the authorizer for every colonless target and every scope: allowed exactly
      when the actor is active and some effective grant is wide enough, or is an `own` grant for
      the actor's own resource where `any` was not demanded. The decision names a grant that is
      in force. */
  lemma DecideClosedForm(profile: Profile, ownerEmail: string, grants: seq<string>, st: Statement, ctx: Context)
    requires Colonless(st)
    ensures Decide(profile, ownerEmail, grants, st, ctx).Ok?
    ensures var d := Decide(profile, ownerEmail, grants, st, ctx).value;
      var effective := EffectiveGrants(profile, ownerEmail, grants, ctx);
      && (d.allowed <==> ActorActive(ctx) && Permitted(effective, st, OwnsResource(ctx)))
      && (d.allowed ==> d.matched.Some? && d.matched.value in effective)
      && (d.allowed ==> WideGrant(d.matched.value, st) || OwnGrant(d.matched.value, st))
      && (d.reason == ActorNotActive <==> !ActorActive(ctx))
  {
    hide Search, Permitted, WideGrant, OwnGrant;
    if ActorActive(ctx) {
      var effective := EffectiveGrants(profile, ownerEmail, grants, ctx);
      SearchOverCandidates(effective, st, OwnsResource(ctx));
    }
  }

  lemma SearchOverCandidates(grants: seq<string>, st: Statement, owns: bool)
    requires Colonless(st)
    ensures Search(grants, Candidates(st, owns), Value(st)).Ok?
    ensures var d := Search(grants, Candidates(st, owns), Value(st)).value;
      && (d.allowed <==> Permitted(grants, st, owns))
      && (d.allowed ==> d.matched.Some? && d.matched.value in grants)
      && (d.allowed ==> WideGrant(d.matched.value, st) || OwnGrant(d.matched.value, st))
      && d.reason != ActorNotActive
  {
    hide Search, Candidates, Parse, Value, Permitted, WideGrant, OwnGrant, Colonless;
    var cs := Candidates(st, owns);
    CandidatesMeaning(grants, st, owns);
    assert forall j :: 0 <= j < |cs| ==> cs[j] in cs;
    SearchMeaning(grants, cs, Value(st));
    var d := Search(grants, cs, Value(st)).value;
    if d.allowed {
      JustifiedReaches(d, grants, st, owns);
    }
  }

  // ----- Targets with a colon -----

  lemma {:induction false} SplitCounts(s: string)
    ensures |Split(s, ':')| == multiset(s)[':'] + 1
  {
    if s != "" {
      SplitCounts(s[1..]);
      assert s == [s[0]] + s[1..];
    }
  }

  lemma {:induction false} StripKeepsColons(s: string)
    ensures multiset(StripLeft(s))[':'] == multiset(s)[':'] && multiset(StripRight(s))[':'] == multiset(s)[':']
  {
    if s != "" {
      StripKeepsColons(s[1..]);
      StripKeepsColons(s[..|s| - 1]);
      assert s == [s[0]] + s[1..] && s == s[..|s| - 1] + [s[|s| - 1]];
    }
  }

  lemma ThreeColonsDoNotParse(text: string)
    requires multiset(text)[':'] >= 3
    ensures Parse(text) == None
  {
    StripKeepsColons(text);
    StripKeepsColons(StripLeft(text));
    SplitCounts(Strip(text));
    assert multiset(ALL_PERMISSIONS)[':'] == 0;
  }

  /** With a colon in the target the scoped candidates cannot be read back. */
  lemma ScopedDoNotParse(st: Statement)
    requires !Colonless(st)
    ensures Parse(OwnText(st)) == None && Parse(AnyText(st)) == None
  {
    forall scope | scope == OWN_SCOPE || scope == ANY_SCOPE
      ensures Parse(Value(Statement(st.resource, st.action, Some(scope)))) == None
    {
      var text := st.resource + ":" + st.action + ":" + scope;
      assert multiset(text)[':']
          == multiset(st.resource)[':'] + 1 + multiset(st.action)[':'] + 1 + multiset(scope)[':'];
      assert ':' in st.resource ==> multiset(st.resource)[':'] >= 1;
      assert ':' in st.action ==> multiset(st.action)[':'] >= 1;
      ThreeColonsDoNotParse(text);
    }
  }

  /** An unparsable candidate is covered by `*` and by its own text only. */
  predicate Names(grants: seq<string>, text: string) {
    ALL_PERMISSIONS in grants || text in grants
  }

  lemma AllowsUnparsable(grants: seq<string>, text: string)
    requires Parse(text) == None
    ensures Allows(grants, text) <==> Names(grants, text)
  {
    hide Covers, Parse;
    forall i | 0 <= i < |grants|
      ensures Covers(grants[i], text) <==> grants[i] == ALL_PERMISSIONS || grants[i] == text
    {
      CoversByStatement(grants[i], text);
    }
  }

  /** The scoped candidates come first when the requirement is scoped `any` or `own`. */
  predicate ScopedFirst(st: Statement) {
    st.scope == Some(ANY_SCOPE) || st.scope == Some(OWN_SCOPE)
  }

  /** Some scoped candidate the search tries is covered. */
  predicate ScopedNamed(grants: seq<string>, st: Statement, owns: bool) {
    Names(grants, AnyText(st)) || (owns && st.scope != Some(ANY_SCOPE) && Names(grants, OwnText(st)))
  }

  /** When the search raises on a target with a colon: the first covered candidate is one that
      cannot be read back. */
  predicate ColonRaises(grants: seq<string>, st: Statement, owns: bool) {
    || (ScopedNamed(grants, st, owns) && (ScopedFirst(st) || !Allows(grants, PlainText(st))))
    || (Allows(grants, PlainText(st)) && Parse(PlainText(st)) == None)
  }

  /** When it allows: the unscoped candidate is covered, can be read back, and comes first or is
      the only one covered. */
  predicate ColonPermits(grants: seq<string>, st: Statement, owns: bool) {
    Allows(grants, PlainText(st)) && Parse(PlainText(st)).Some? && !(ScopedFirst(st) && ScopedNamed(grants, st, owns))
  }

  lemma CandidateLists(st: Statement, owns: bool)
    ensures Candidates(st, owns) ==
      if st.scope == Some(ANY_SCOPE) then [AnyText(st), PlainText(st)]
      else if st.scope == Some(OWN_SCOPE) then
        if owns then [OwnText(st), AnyText(st), PlainText(st)] else [AnyText(st), PlainText(st)]
      else if owns then [PlainText(st), OwnText(st), AnyText(st)] else [PlainText(st), AnyText(st)]
  {
    var p, o, a := PlainText(st), OwnText(st), AnyText(st);
    assert |o| == |a| == |st.resource| + |st.action| + 5 && |p| < |o|;
    assert o[|o| - 1] == 'n' && a[|a| - 1] == 'y';
    hide Value, PlainText, OwnText, AnyText;
    DedupTwo(a, p);
    DedupTwo(p, a);
    DedupThree(o, a, p);
    DedupThree(p, o, a);
  }

  lemma DedupTwo(x: string, y: string)
    requires x != y
    ensures Dedup([x, y]) == [x, y]
  {
    assert [x][..0] == [];
    assert Dedup([x]) == [x];
    assert [x, y][..1] == [x];
  }

  lemma DedupThree(x: string, y: string, z: string)
    requires x != y && x != z && y != z
    ensures Dedup([x, y, z]) == [x, y, z]
  {
    DedupTwo(x, y);
    assert [x, y, z][..2] == [x, y];
  }

  lemma MatchedMeaning(grants: seq<string>, required: string)
    ensures MatchedPermission(grants, required).Some? <==> Allows(grants, required)
  {
    hide Covers;
    var m := MatchedPermission(grants, required);
    if m.Some? {
      var i :| 0 <= i < |grants| && grants[i] == m.value;
    }
  }

  lemma SearchOne(grants: seq<string>, x: string, required: string)
    ensures var r := Search(grants, [x], required);
      && (r.Err? <==> Allows(grants, x) && Parse(x) == None)
      && (r.Ok? ==> (r.value.allowed <==> Allows(grants, x)))
  {
    hide Parse, Allows, MatchedPermission;
    MatchedMeaning(grants, x);
    assert [x][1..] == [];
  }

  /** The search on two candidates, and on three. */
  lemma SearchTwo(grants: seq<string>, x: string, y: string, required: string)
    ensures var r := Search(grants, [x, y], required);
      && (r.Err? <==> if Allows(grants, x) then Parse(x) == None else Allows(grants, y) && Parse(y) == None)
      && (r.Ok? ==> (r.value.allowed <==> Allows(grants, x) || Allows(grants, y)))
  {
    hide Parse, Allows, MatchedPermission;
    MatchedMeaning(grants, x);
    SearchOne(grants, y, required);
    assert [x, y][1..] == [y];
  }

  lemma SearchThree(grants: seq<string>, x: string, y: string, z: string, required: string)
    ensures var r := Search(grants, [x, y, z], required);
      && (r.Err? <==>
            if Allows(grants, x) then Parse(x) == None
            else if Allows(grants, y) then Parse(y) == None
            else Allows(grants, z) && Parse(z) == None)
      && (r.Ok? ==> (r.value.allowed <==> Allows(grants, x) || Allows(grants, y) || Allows(grants, z)))
  {
    hide Parse, Allows, MatchedPermission;
    MatchedMeaning(grants, x);
    SearchTwo(grants, y, z, required);
    assert [x, y, z][1..] == [y, z];
  }

  lemma SearchWithColon(grants: seq<string>, st: Statement, owns: bool)
    requires !Colonless(st)
    ensures var r := Search(grants, Candidates(st, owns), Value(st));
      && (r.Err? <==> ColonRaises(grants, st, owns))
      && (r.Ok? ==> (r.value.allowed <==> ColonPermits(grants, st, owns)))
  {
    hide Search, Candidates, Parse, Allows, Value, Names, PlainText, OwnText, AnyText, Colonless;
    var p, o, a := PlainText(st), OwnText(st), AnyText(st);
    ScopedDoNotParse(st);
    AllowsUnparsable(grants, o);
    AllowsUnparsable(grants, a);
    CandidateLists(st, owns);
    SearchTwo(grants, a, p, Value(st));
    SearchTwo(grants, p, a, Value(st));
    SearchThree(grants, o, a, p, Value(st));
    SearchThree(grants, p, o, a, Value(st));
  }

  /** What an active actor may do, for every target. */
  predicate PermittedOn(grants: seq<string>, st: Statement, owns: bool) {
    if Colonless(st) then Permitted(grants, st, owns) else ColonPermits(grants, st, owns)
  }

  /** `can` on any arguments: when it raises, and otherwise when it allows. It raises on bad
      arguments, and on a target with a colon, which only separate resource and action arguments
      can have, when the first candidate covered cannot be read back. */
  lemma CanClosedForm(profile: Profile, ownerEmail: string, grants: seq<string>, required: Option<string>,
                      resource: string, action: string,
                      scope: Option<string>, ctx: Context)
    ensures var r := Can(profile, ownerEmail, grants, required, resource, action, scope, ctx);
      var target := RequiredStatement(required, resource, action, scope);
      var effective := EffectiveGrants(profile, ownerEmail, grants, ctx);
      && (r.Err? <==> (
            || target.Err?
            || (ActorActive(ctx) && !Colonless(target.value)
                && ColonRaises(effective, target.value, OwnsResource(ctx)))))
      && (r.Ok? ==> (r.value.allowed <==> ActorActive(ctx) && PermittedOn(effective, target.value, OwnsResource(ctx))))
      && (target.Ok? && required.Some? ==> Colonless(target.value))
  {
    hide Search, Candidates, Parse, Colonless, Permitted, ColonRaises, ColonPermits;
    if required.Some? && Parse(required.value).Some? {
      ParsedTargetIsColonless(required.value);
    }
    var target := RequiredStatement(required, resource, action, scope);
    if target.Ok? {
      DecideMeaning(profile, ownerEmail, grants, target.value, ctx);
    }
  }

  lemma DecideMeaning(profile: Profile, ownerEmail: string, grants: seq<string>, st: Statement, ctx: Context)
    ensures var r := Decide(profile, ownerEmail, grants, st, ctx);
      var effective := EffectiveGrants(profile, ownerEmail, grants, ctx);
      && (r.Err? <==> ActorActive(ctx) && !Colonless(st) && ColonRaises(effective, st, OwnsResource(ctx)))
      && (r.Ok? ==> (r.value.allowed <==> ActorActive(ctx) && PermittedOn(effective, st, OwnsResource(ctx))))
  {
    hide Search, Candidates, Colonless, Permitted, ColonRaises, ColonPermits;
    if Colonless(st) {
      DecideClosedForm(profile, ownerEmail, grants, st, ctx);
    } else {
      SearchWithColon(EffectiveGrants(profile, ownerEmail, grants, ctx), st, OwnsResource(ctx));
    }
  }

  lemma PermitsDoesNotRaise(grants: seq<string>, st: Statement, owns: bool)
    ensures !(ColonPermits(grants, st, owns) && ColonRaises(grants, st, owns))
  {
  }

  /** Access is granted exactly to an active actor who is permitted. */
  lemma GrantedMeaning(profile: Profile, ownerEmail: string, grants: seq<string>, st: Statement, ctx: Context)
    ensures Granted(profile, ownerEmail, grants, st, ctx)
      <==> ActorActive(ctx) && PermittedOn(EffectiveGrants(profile, ownerEmail, grants, ctx), st, OwnsResource(ctx))
  {
    hide Decide, Permitted, ColonPermits, ColonRaises, Colonless;
    DecideMeaning(profile, ownerEmail, grants, st, ctx);
    PermitsDoesNotRaise(EffectiveGrants(profile, ownerEmail, grants, ctx), st, OwnsResource(ctx));
  }

  /** An absent status counts as active; a text only in the letters of "active", in any capitals. */
  predicate Active(ctx: Context) {
    match ctx.status
    case Absent => true
    case Status(text) => text == "active"
    case FreeText(text) => CapitalsOf(text, "active")
  }

  /** The explicit grants, or without any what the role has by default. */
  function InForce(profile: Profile, grants: seq<string>, ctx: Context): seq<string> {
    if grants != [] || ctx.role == None then grants
    else if profile == SingleOwner then if ctx.role == Some(Owner) then ["*"] else []
    else
      match ctx.role.value
      case Owner => ["*"]
      case Admin => ["*"]
      case Viewer => ["profile:read", "health:read", "dashboard:read", "services:read", "toolbox:read", "clients:read",
                      "settings:read", "logs:read"]
      case User => ["profile:read", "dashboard:read"]
  }

  lemma ContextMeaning(profile: Profile, ownerEmail: string, grants: seq<string>, ctx: Context)
    ensures ActorActive(ctx) <==> Active(ctx)
    ensures EffectiveGrants(profile, ownerEmail, grants, ctx) == InForce(profile, grants, ctx)
  {
    hide CapitalsOf;
    if ctx.status.FreeText? {
      LowersToWord(ctx.status.text, "active");
    }
  }

  /** Access, from the context and the grants alone: granted exactly to an active actor who is
      permitted by the grants in force, as the owner of a resource with the actor's own id. */
  lemma AccessMeaning(profile: Profile, ownerEmail: string, grants: seq<string>, st: Statement, ctx: Context)
    ensures Granted(profile, ownerEmail, grants, st, ctx) <==>
      Active(ctx) && PermittedOn(InForce(profile, grants, ctx), st, ctx.actor.Some? && ctx.owner == ctx.actor)
  {
    hide Granted, PermittedOn, InForce, EffectiveGrants, ActorActive, Active;
    ContextMeaning(profile, ownerEmail, grants, ctx);
    GrantedMeaning(profile, ownerEmail, grants, st, ctx);
  }

  /** What is demanded: a permission text alone, or a resource and an action that are not empty,
      with the scope given. */
  lemma TargetMeaning(required: Option<string>, resource: string, action: string, scope: Option<string>)
    ensures var target := RequiredStatement(required, resource, action, scope);
      && (target.Ok? <==> if required.Some? then scope == None && Parse(required.value).Some?
                          else resource != "" && action != "")
      && (target.Ok? && required.Some? ==> Some(target.value) == Parse(required.value))
      && (target.Ok? && required == None ==>
            target.value.resource == resource && target.value.action == action && target.value.scope == scope)
  {
    hide Parse;
  }

  lemma SpacedText()
    ensures Parse("doc:edit :own") == Some(Statement("doc", "edit ", Some("own")))
  {
    hide Parse;
    var spaced := Statement("doc", "edit ", Some("own"));
    PrintableRoundTrip(spaced);
    assert Value(spaced) == "doc:edit :own";
  }

  lemma PlainGrantText()
    ensures Parse("doc:edit") == Some(Statement("doc", "edit", None))
  {
    hide Parse;
    var plain := Statement("doc", "edit", None);
    PrintableRoundTrip(plain);
    assert Value(plain) == "doc:edit";
  }

  lemma TrimmedParts()
    ensures StripLeft("doc") == "doc" && StripRight("edit ") == "edit"
  {
    assert "edit "[..4] == "edit";
    assert StripRight("edit") == "edit";
  }

  /** A text whose parsed action ends in a space is decided by the trimmed action too: the text
      "doc:edit :own" is allowed by the grant "doc:edit", owner or not. */
  lemma TrimmedActionCounts(profile: Profile, ownerEmail: string, ctx: Context)
    requires ActorActive(ctx)
    ensures var r := Can(profile, ownerEmail, ["doc:edit"], Some("doc:edit :own"), "", "", None, ctx);
      r.Ok? && r.value.allowed
  {
    hide Parse, Decide, StripLeft, StripRight, Colonless;
    SpacedText();
    PlainGrantText();
    TrimmedParts();
    ParsedTargetIsColonless("doc:edit :own");
    var st := Statement("doc", "edit ", Some("own"));
    assert WideGrant(["doc:edit"][0], st);
    DecideClosedForm(profile, ownerEmail, ["doc:edit"], st, ctx);
  }

  predicate Granted(profile: Profile, ownerEmail: string, grants: seq<string>, st: Statement, ctx: Context) {
    Decide(profile, ownerEmail, grants, st, ctx).Ok? && Decide(profile, ownerEmail, grants, st, ctx).value.allowed
  }

  /** Becoming the owner of the resource never loses access, but for one case: a target with a
      colon, demanded as `own`, whose own-scoped text is itself a grant; reading it back raises. */
  lemma OwnershipIsMonotone(profile: Profile, ownerEmail: string, grants: seq<string>, st: Statement, ctx: Context)
    requires ctx.actor.Some?
    ensures var effective := EffectiveGrants(profile, ownerEmail, grants, ctx);
      var unreadable := !Colonless(st) && st.scope == Some(OWN_SCOPE) && OwnText(st) in effective;
      Granted(profile, ownerEmail, grants, st, ctx) ==>
        (Granted(profile, ownerEmail, grants, st, ctx.(owner := ctx.actor)) <==> !unreadable)
  {
    hide Granted, Colonless, SomeWide, SomeOwn, Allows, Parse, OwnText, AnyText, PlainText;
    GrantedMeaning(profile, ownerEmail, grants, st, ctx);
    GrantedMeaning(profile, ownerEmail, grants, st, ctx.(owner := ctx.actor));
  }

  /** Grants that are all `own`-scoped never reach a resource the actor does not own, unless the
      unscoped text of the target, which then has a colon, reads back as an own-scoped one. */
  lemma OwnGrantsStayHome(profile: Profile, ownerEmail: string, grants: seq<string>, st: Statement, ctx: Context)
    requires grants != [] && !OwnsResource(ctx)
    requires forall i :: 0 <= i < |grants| ==> Parse(grants[i]).Some? && Parse(grants[i]).value.scope == Some(OWN_SCOPE)
    ensures Granted(profile, ownerEmail, grants, st, ctx) <==> ActorActive(ctx) && ReadsAsOwn(grants, st)
    ensures ReadsAsOwn(grants, st) ==> !Colonless(st)
  {
    hide Granted, Colonless, ColonPermits, Parse, ReadsAsOwn;
    GrantedMeaning(profile, ownerEmail, grants, st, ctx);
    if Colonless(st) {
      PlainReadsBack(st);
      NotReadAsOwn(grants, st);
    } else {
      OwnGrantsOnColon(grants, st);
    }
  }

  /** The unscoped text of the target reads back own-scoped, for something a grant reaches. */
  predicate ReadsAsOwn(grants: seq<string>, st: Statement) {
    var read := Parse(PlainText(st));
    && read.Some? && read.value.scope == Some(OWN_SCOPE)
    && exists i :: 0 <= i < |grants| && Reaches(grants[i], read.value.resource, read.value.action)
  }

  lemma NotReadAsOwn(grants: seq<string>, st: Statement)
    requires Parse(PlainText(st)).Some? ==> Parse(PlainText(st)).value.scope == None
    ensures !ReadsAsOwn(grants, st)
  {
    hide Parse;
  }

  lemma OwnGrantsOnColon(grants: seq<string>, st: Statement)
    requires !Colonless(st)
    requires forall i :: 0 <= i < |grants| ==> Parse(grants[i]).Some? && Parse(grants[i]).value.scope == Some(OWN_SCOPE)
    ensures ColonPermits(grants, st, false) <==> ReadsAsOwn(grants, st)
  {
    hide Covers, Parse, Colonless, PlainText, AnyText, OwnText;
    ScopedDoNotParse(st);
    AllParses();
    assert !Names(grants, AnyText(st));
    forall i | 0 <= i < |grants|
      ensures Parse(PlainText(st)).Some? ==>
        (Covers(grants[i], PlainText(st)) <==> StatementCovers(Parse(grants[i]).value, Parse(PlainText(st)).value))
    {
      CoversByStatement(grants[i], PlainText(st));
    }
    if ReadsAsOwn(grants, st) {
      var read := Parse(PlainText(st)).value;
      var i :| 0 <= i < |grants| && Reaches(grants[i], read.resource, read.action);
      assert Covers(grants[i], PlainText(st));
    }
  }

  // ----- The exceptions are real -----

  /** The texts of a target with the resource "a:b" and the action "c". */
  lemma ColonTexts(scope: Option<string>)
    ensures var st := Statement("a:b", "c", scope);
      && !Colonless(st) && PlainText(st) == "a:b:c" && OwnText(st) == "a:b:c:own" && AnyText(st) == "a:b:c:any"
    ensures Parse("a:b:c") == Some(Statement("a", "b", Some("c"))) && Parse("a:b") == Some(Statement("a", "b", None))
    ensures Covers("a:b", "a:b:c")
  {
    hide Parse, Covers;
    assert "a:b"[1] == ':';
    PrintableRoundTrip(Statement("a", "b", Some("c")));
    PrintableRoundTrip(Statement("a", "b", None));
    assert Value(Statement("a", "b", Some("c"))) == "a:b:c" && Value(Statement("a", "b", None)) == "a:b";
    CoversByStatement("a:b", "a:b:c");
  }

  /** Losing access by becoming the owner: the grant "a:b" reaches the target "a:b" and "c" of
      others, and for the owner the search stops at the grant "a:b:c:own" and raises. */
  lemma OwnershipCanLose(profile: Profile, ownerEmail: string, ctx: Context)
    requires ActorActive(ctx)
    ensures var r := Can(profile, ownerEmail, ["a:b", "a:b:c:own"], None, "a:b", "c", Some(OWN_SCOPE), ctx);
      if OwnsResource(ctx) then r.Err? else r.Ok? && r.value.allowed
  {
    hide Parse, Covers, Colonless, Decide, PlainText, OwnText, AnyText;
    var grants, st := ["a:b", "a:b:c:own"], Statement("a:b", "c", Some(OWN_SCOPE));
    ColonTexts(st.scope);
    assert Covers(grants[0], PlainText(st)) && grants[1] == OwnText(st);
    CanClosedForm(profile, ownerEmail, grants, None, "a:b", "c", Some(OWN_SCOPE), ctx);
  }

  /** Own-scoped grants reaching another's resource: "a:b:own" covers the resource "a:b" with the
      action "own", whose unscoped text it is. */
  lemma OwnGrantsCanStray(profile: Profile, ownerEmail: string, ctx: Context)
    requires ActorActive(ctx) && !OwnsResource(ctx)
    ensures var r := Can(profile, ownerEmail, ["a:b:own"], None, "a:b", "own", None, ctx);
      r.Ok? && r.value.allowed
  {
    hide Parse, Covers, Colonless, Decide;
    var grants, st := ["a:b:own"], Statement("a:b", "own", None);
    var own := Statement("a", "b", Some(OWN_SCOPE));
    PrintableRoundTrip(own);
    assert Value(own) == "a:b:own" == PlainText(st);
    assert Reaches(grants[0], "a", "b");
    assert ReadsAsOwn(grants, st);
    OwnGrantsStayHome(profile, ownerEmail, grants, st, ctx);
  }

  /** Losing access by a first explicit grant: an admin may do anything by default, and nothing
      but read documents once granted that. */
  lemma FirstGrantCanLose(ownerEmail: string, ctx: Context)
    requires ActorActive(ctx) && ctx.role == Some(Admin)
    ensures var r := Can(Rbac, ownerEmail, [], Some("doc:edit"), "", "", None, ctx);
      r.Ok? && r.value.allowed
    ensures var r := Can(Rbac, ownerEmail, ["doc:read"], Some("doc:edit"), "", "", None, ctx);
      r.Ok? && !r.value.allowed
  {
    hide Parse, Covers, Decide, StripLeft, StripRight;
    var st := Statement("doc", "edit", None);
    PlainGrantText();
    ReadGrantText();
    EditParts();
    AllParses();
    ParsedTargetIsColonless("doc:edit");
    assert WideGrant([ALL_PERMISSIONS][0], st);
    DecideClosedForm(Rbac, ownerEmail, [], st, ctx);
    DecideClosedForm(Rbac, ownerEmail, ["doc:read"], st, ctx);
  }

  lemma ReadGrantText()
    ensures Parse("doc:read") == Some(Statement("doc", "read", None))
  {
    hide Parse;
    var plain := Statement("doc", "read", None);
    PrintableRoundTrip(plain);
    assert Value(plain) == "doc:read";
  }

  lemma EditParts()
    ensures StripLeft("doc") == "doc" && StripRight("edit") == "edit"
  {
  }

  /** Losing access by a wider grant: the grant "a:b" reaches the target "a:b" and "c", and with
      `*` beside it the search stops at the scoped text, which it cannot read back. */
  lemma WiderGrantCanLose(profile: Profile, ownerEmail: string, ctx: Context)
    requires ActorActive(ctx)
    ensures var r := Can(profile, ownerEmail, ["a:b"], None, "a:b", "c", Some(ANY_SCOPE), ctx);
      r.Ok? && r.value.allowed
    ensures Can(profile, ownerEmail, ["a:b", ALL_PERMISSIONS], None, "a:b", "c", Some(ANY_SCOPE), ctx).Err?
  {
    hide Parse, Covers, Colonless, Decide, PlainText, OwnText, AnyText;
    var st := Statement("a:b", "c", Some(ANY_SCOPE));
    ColonTexts(st.scope);
    assert Covers(["a:b"][0], PlainText(st));
    assert ["a:b", ALL_PERMISSIONS][1] == ALL_PERMISSIONS;
    CanClosedForm(profile, ownerEmail, ["a:b"], None, "a:b", "c", Some(ANY_SCOPE), ctx);
    CanClosedForm(profile, ownerEmail, ["a:b", ALL_PERMISSIONS], None, "a:b", "c", Some(ANY_SCOPE), ctx);
  }

  /** A further grant that makes the search stop at a candidate it cannot read back. */
  predicate Blocks(extra: string, st: Statement, owns: bool) {
    && !Colonless(st) && ScopedFirst(st)
    && (|| extra == ALL_PERMISSIONS || extra == AnyText(st)
        || (owns && st.scope == Some(OWN_SCOPE) && extra == OwnText(st)))
  }

  /** Adding a grant loses access exactly in two cases: the first explicit grant replaces role
      defaults that allowed the request and does not allow it itself, or, for a target with a
      colon, the new grant blocks the search. */
  lemma AddingGrants(profile: Profile, ownerEmail: string, grants: seq<string>, extra: string, st: Statement,
                     ctx: Context)
    requires Granted(profile, ownerEmail, grants, st, ctx)
    ensures Granted(profile, ownerEmail, grants + [extra], st, ctx)
       <==> if grants == [] && ctx.role.Some? then PermittedOn([extra], st, OwnsResource(ctx))
            else !Blocks(extra, st, OwnsResource(ctx))
  {
    hide Granted, PermittedOn;
    GrantedMeaning(profile, ownerEmail, grants, st, ctx);
    GrantedMeaning(profile, ownerEmail, grants + [extra], st, ctx);
    if grants == [] {
      assert grants + [extra] == [extra];
      NothingPermitted(st, OwnsResource(ctx));
    } else {
      AddingPermits(grants, extra, st, OwnsResource(ctx));
    }
  }

  lemma NothingPermitted(st: Statement, owns: bool)
    ensures !PermittedOn([], st, owns)
  {
  }

  lemma AddingPermits(grants: seq<string>, extra: string, st: Statement, owns: bool)
    requires PermittedOn(grants, st, owns)
    ensures PermittedOn(grants + [extra], st, owns) <==> !Blocks(extra, st, owns)
  {
    hide Covers, Parse, WideGrant, OwnGrant, PlainText, OwnText, AnyText, Colonless;
    var wider := grants + [extra];
    forall i | 0 <= i < |grants| ensures wider[i] == grants[i] {
    }
    if Allows(grants, PlainText(st)) {
      var i :| 0 <= i < |grants| && Covers(grants[i], PlainText(st));
      assert Covers(wider[i], PlainText(st));
    }
    if SomeWide(grants, st) {
      var i :| 0 <= i < |grants| && WideGrant(grants[i], st);
      assert WideGrant(wider[i], st);
    }
    if SomeOwn(grants, st) {
      var i :| 0 <= i < |grants| && OwnGrant(grants[i], st);
      assert OwnGrant(wider[i], st);
    }
  }
}

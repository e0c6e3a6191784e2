/** Permission statements, the covering relation between them, and the role policy
    (src/coreline_auth/permissions.py). */
module Permissions {
  import opened Prelude
  import opened Text

  const ALL_PERMISSIONS := "*"
  const ANY_SCOPE := "any"
  const OWN_SCOPE := "own"
  const READ_ONLY_PERMISSIONS := [
    "profile:read", "health:read", "dashboard:read", "services:read",
    "toolbox:read", "clients:read", "settings:read", "logs:read"]
  const USER_PERMISSIONS := ["profile:read", "dashboard:read"]

  datatype Role = Owner | Admin | Viewer | User

  datatype Profile = SingleOwner | AdminViewer | Rbac

  datatype Statement = Statement(resource: string, action: string, scope: Option<string>)

  /** `PermissionStatement.parse`; `None` stands for the ValueError. */
  function Parse(text: string): Option<Statement> {
    var value := Strip(text);
    if value == ALL_PERMISSIONS then Some(Statement(ALL_PERMISSIONS, ALL_PERMISSIONS, None))
    else
      var parts := Split(value, ':');
      if |parts| == 2 then Some(Statement(parts[0], parts[1], None))
      else if |parts| == 3 then Some(Statement(parts[0], parts[1], Some(parts[2])))
      else None
  }

  /** `PermissionStatement.value`; an empty scope prints like an absent one. */
  function Value(st: Statement): string {
    if st.resource == ALL_PERMISSIONS && st.action == ALL_PERMISSIONS && st.scope == None then ALL_PERMISSIONS
    else if st.scope.Some? && st.scope.value != "" then st.resource + ":" + st.action + ":" + st.scope.value
    else st.resource + ":" + st.action
  }

  /** The statements a caller can print and read back. */
  predicate Printable(st: Statement) {
    && ':' !in st.resource && ':' !in st.action
    && (st.resource != "" ==> !IsSpace(st.resource[0]))
    && match st.scope
       case None => st.action != "" ==> !IsSpace(st.action[|st.action| - 1])
       case Some(scope) => ':' !in scope && scope != "" && !IsSpace(scope[|scope| - 1])
  }

  lemma SplitTwo(a: string, b: string)
    requires ':' !in a && ':' !in b
    ensures Split(a + ":" + b, ':') == [a, b]
  {
    SplitFree(b, ':');
    SplitFirst(a, b, ':');
    assert a + ":" + b == a + [':'] + b;
  }

  lemma SplitThree(a: string, b: string, c: string)
    requires ':' !in a && ':' !in b && ':' !in c
    ensures Split(a + ":" + b + ":" + c, ':') == [a, b, c]
  {
    SplitTwo(b, c);
    SplitFirst(a, b + ":" + c, ':');
    assert a + ":" + b + ":" + c == a + [':'] + (b + ":" + c);
  }

  lemma JoinTwo(a: string, b: string)
    ensures Join([a, b], ':') == a + ":" + b
  {
    assert [a, b][1..] == [b];
  }

  lemma JoinThree(a: string, b: string, c: string)
    ensures Join([a, b, c], ':') == a + ":" + b + ":" + c
  {
    JoinTwo(b, c);
    assert [a, b, c][1..] == [b, c];
    assert a + [':'] + (b + ":" + c) == a + ":" + b + ":" + c;
  }

  /** What a successful parse returns: colon-free parts without outer whitespace. */
  lemma ParsedShape(text: string)
    requires Parse(text).Some?
    ensures var st := Parse(text).value;
      && ':' !in st.resource && ':' !in st.action
      && (st.scope.Some? ==> ':' !in st.scope.value)
      && (st.resource != "" ==> !IsSpace(st.resource[0]))
      && (st.scope == None && st.action != "" ==> !IsSpace(st.action[|st.action| - 1]))
      && (st.scope.Some? && st.scope.value != "" ==> !IsSpace(st.scope.value[|st.scope.value| - 1]))
    ensures var st := Parse(text).value;
      || (Strip(text) == ALL_PERMISSIONS && st == Statement(ALL_PERMISSIONS, ALL_PERMISSIONS, None))
      || (st.scope == None && Strip(text) == st.resource + ":" + st.action)
      || (st.scope.Some? && Strip(text) == st.resource + ":" + st.action + ":" + st.scope.value)
  {
    var v := Strip(text);
    StripTrims(text);
    if v != ALL_PERMISSIONS {
      SplitParts(v, ':');
      var parts := Split(v, ':');
      if |parts| == 2 {
        assert parts == [parts[0], parts[1]];
        JoinTwo(parts[0], parts[1]);
        assert parts[0] != "" ==> v[0] == parts[0][0];
        assert parts[1] != "" ==> v[|v| - 1] == parts[1][|parts[1]| - 1];
      } else {
        assert parts == [parts[0], parts[1], parts[2]];
        JoinThree(parts[0], parts[1], parts[2]);
        assert parts[0] != "" ==> v[0] == parts[0][0];
        assert parts[2] != "" ==> v[|v| - 1] == parts[2][|parts[2]| - 1];
      }
    }
  }

  lemma PrintableRoundTrip(st: Statement)
    requires Printable(st)
    ensures Parse(Value(st)) == Some(st)
  {
    var v := Value(st);
    assert Trimmed(v) by {
      if v != ALL_PERMISSIONS {
        assert st.resource == "" ==> v[0] == ':';
        assert st.resource != "" ==> v[0] == st.resource[0];
        var last := if st.scope.Some? then st.scope.value else st.action;
        assert v[|v| - 1] == if last == "" then ':' else last[|last| - 1];
      }
    }
    StripOfTrimmed(v);
    if v != ALL_PERMISSIONS {
      if st.scope.Some? {
        SplitThree(st.resource, st.action, st.scope.value);
      } else {
        SplitTwo(st.resource, st.action);
      }
    }
  }

  /** Printing then parsing gives the statement back exactly for printable statements. */
  lemma ParseOfValue(st: Statement)
    ensures Parse(Value(st)) == Some(st) <==> Printable(st)
  {
    if Printable(st) {
      PrintableRoundTrip(st);
    }
    if Parse(Value(st)) == Some(st) {
      ParsedShape(Value(st));
      StripTrims(Value(st));
    }
  }

  /** Parsing then printing gives the text back exactly for trimmed texts other than `*:*`
      that do not end in an empty scope. */
  lemma ValueOfParse(text: string)
    requires Parse(text).Some?
    ensures Value(Parse(text).value) == text
       <==> Strip(text) == text && text != "*:*" && Parse(text).value.scope != Some("")
  {
    ParsedShape(text);
    var st := Parse(text).value;
    if Value(st) == text {
      assert Parse(Value(st)) == Some(st);
      ParseOfValue(st);
    }
    if Strip(text) == text && text != "*:*" && st.scope != Some("") {
      if st.resource == ALL_PERMISSIONS && st.action == ALL_PERMISSIONS && st.scope == None {
        assert text == "*" || text == "*" + ":" + "*";
      }
    }
  }

  /** `_permission_matches`. */
  predicate Covers(granted: string, required: string) {
    if granted == ALL_PERMISSIONS || granted == required then true
    else
      var g := Parse(granted);
      var r := Parse(required);
      if g == None || r == None then false
      else if g.value.resource != ALL_PERMISSIONS && g.value.resource != r.value.resource then false
      else if g.value.action != ALL_PERMISSIONS && g.value.action != r.value.action then false
      else if g.value.scope == None || g.value.scope == Some(ALL_PERMISSIONS) then true
      else if g.value.scope == r.value.scope then true
      else if g.value.scope == Some(ANY_SCOPE) && (r.value.scope == None || r.value.scope == Some(OWN_SCOPE)) then true
      else false
  }

  /** The order on scopes: unscoped and `*` grants are widest, `any` also covers unscoped and
      `own` requirements, every other scope covers only itself. */
  predicate ScopeCovers(g: Option<string>, r: Option<string>) {
    || g == None || g == Some(ALL_PERMISSIONS) || g == r
    || (g == Some(ANY_SCOPE) && (r == None || r == Some(OWN_SCOPE)))
  }

  predicate StatementCovers(g: Statement, r: Statement) {
    && (g.resource == ALL_PERMISSIONS || g.resource == r.resource)
    && (g.action == ALL_PERMISSIONS || g.action == r.action)
    && ScopeCovers(g.scope, r.scope)
  }

  /** On texts that parse, the string comparison shortcuts add nothing to the comparison of
      statements. A text that does not parse is covered by `*` and by itself only, and
      covers only itself. */
  lemma CoversByStatement(granted: string, required: string)
    ensures Parse(granted).Some? && Parse(required).Some? ==>
      (Covers(granted, required) <==> StatementCovers(Parse(granted).value, Parse(required).value))
    ensures Parse(granted) == None || Parse(required) == None ==>
      (Covers(granted, required) <==> granted == ALL_PERMISSIONS || granted == required)
  {
    assert Strip(ALL_PERMISSIONS) == ALL_PERMISSIONS;
    assert Parse(ALL_PERMISSIONS) == Some(Statement(ALL_PERMISSIONS, ALL_PERMISSIONS, None));
  }

  /** Scopes for which covering composes. */
  predicate PlainScope(scope: Option<string>) {
    scope == None || scope == Some(OWN_SCOPE) || scope == Some(ANY_SCOPE)
  }

  /** An `any` grant covers an unscoped one, which covers every scope, while `any` does not cover
      scopes other than none, `own` and `any`. */
  predicate ScopeGap(a: string, b: string, c: string) {
    && Parse(a).Some? && Parse(b).Some? && Parse(c).Some?
    && Parse(a).value.scope == Some(ANY_SCOPE) && Parse(b).value.scope == None && !PlainScope(Parse(c).value.scope)
  }

  /** The text `*` covers texts that do not parse, while grants as wide but written otherwise do
      not. */
  predicate TextGap(a: string, b: string, c: string) {
    a != ALL_PERMISSIONS && b == ALL_PERMISSIONS && Parse(c) == None
  }

  /** Covering is reflexive, and composes for all texts but in these two cases. */
  lemma CoveringComposes(a: string, b: string, c: string)
    requires Covers(a, b) && Covers(b, c)
    ensures Covers(a, a)
    ensures Covers(a, c) <==> !ScopeGap(a, b, c) && !TextGap(a, b, c)
  {
    hide Covers, Parse;
    AllParses();
    CoversItself(a);
    CoversByStatement(a, b);
    CoversByStatement(b, c);
    CoversByStatement(a, c);
  }

  lemma AllParses()
    ensures Parse(ALL_PERMISSIONS) == Some(Statement(ALL_PERMISSIONS, ALL_PERMISSIONS, None))
  {
    assert Strip(ALL_PERMISSIONS) == ALL_PERMISSIONS;
  }

  lemma CoversItself(a: string)
    ensures Covers(a, a)
  {
  }

  /** The gap between texts is real for exactly the texts that do not parse. */
  lemma UnparsedGap(c: string)
    ensures Covers("*:*", ALL_PERMISSIONS) && Covers(ALL_PERMISSIONS, c) && (Covers("*:*", c) <==> Parse(c).Some?)
  {
    AllParses();
    SpelledOutParses();
    hide Parse;
    CoversByStatement("*:*", ALL_PERMISSIONS);
    CoversByStatement("*:*", c);
  }

  lemma SpelledOutParses()
    ensures Parse("*:*") == Some(Statement(ALL_PERMISSIONS, ALL_PERMISSIONS, None))
  {
    StripOfTrimmed("*:*");
    SplitTwo("*", "*");
    assert "*" + ":" + "*" == "*:*";
  }

  /** The gap between scopes is real for every resource and action, and for exactly the scopes other
      than none, `own` and `any`. */
  lemma CoveringGap(resource: string, action: string, scope: string)
    requires Printable(Statement(resource, action, None)) && Printable(Statement(resource, action, Some(scope)))
    ensures var wide := Value(Statement(resource, action, Some(ANY_SCOPE)));
      var middle := Value(Statement(resource, action, None));
      var narrow := Value(Statement(resource, action, Some(scope)));
      Covers(wide, middle) && Covers(middle, narrow) && (Covers(wide, narrow) <==> PlainScope(Some(scope)))
  {
    hide Covers, Parse, Value;
    var wide := Statement(resource, action, Some(ANY_SCOPE));
    var middle := Statement(resource, action, None);
    var narrow := Statement(resource, action, Some(scope));
    PrintableRoundTrip(wide);
    PrintableRoundTrip(middle);
    PrintableRoundTrip(narrow);
    CoversByStatement(Value(wide), Value(middle));
    CoversByStatement(Value(middle), Value(narrow));
    CoversByStatement(Value(wide), Value(narrow));
  }

  /** `PolicyEngine.allows`. */
  predicate Allows(permissions: seq<string>, required: string) {
    exists i :: 0 <= i < |permissions| && Covers(permissions[i], required)
  }

  /** `PolicyEngine.permissions_for`; `None` and the empty string are both "no email". */
  function PermissionsFor(profile: Profile, ownerEmail: string, role: Role, email: string): seq<string> {
    match profile
    case SingleOwner =>
      if ownerEmail != "" && email != "" && Lower(email) != Lower(ownerEmail) then []
      else if role == Owner then [ALL_PERMISSIONS] else []
    case AdminViewer => RolePermissions(role)
    case Rbac => RolePermissions(role)
  }

  function RolePermissions(role: Role): seq<string> {
    match role
    case Owner => [ALL_PERMISSIONS]
    case Admin => [ALL_PERMISSIONS]
    case Viewer => READ_ONLY_PERMISSIONS
    case User => USER_PERMISSIONS
  }

  // ----- The policy, role by role -----

  /** The grant is `*`, is the text itself, or covers it as a statement. */
  predicate Suffices(granted: string, required: string) {
    || granted == "*" || granted == required
    || (Parse(granted).Some? && Parse(required).Some?
        && StatementCovers(Parse(granted).value, Parse(required).value))
  }

  lemma CoversSuffices(granted: string, required: string)
    ensures Covers(granted, required) <==> Suffices(granted, required)
  {
    hide Parse, Covers, StatementCovers;
    CoversByStatement(granted, required);
    CoversAnything(required);
    CoversItself(required);
  }

  lemma AllowsMeaning(permissions: seq<string>, required: string)
    ensures Allows(permissions, required) <==>
      exists i :: 0 <= i < |permissions| && Suffices(permissions[i], required)
  {
    hide Covers, Suffices;
    forall i | 0 <= i < |permissions| ensures Covers(permissions[i], required) <==> Suffices(permissions[i], required) {
      CoversSuffices(permissions[i], required);
    }
  }

  lemma CoversAnything(required: string)
    ensures Covers("*", required)
  {
  }

  /** The permission is to read one of these resources, in any scope or none. */
  predicate Reads(required: string, resources: set<string>) {
    Parse(required).Some? && Parse(required).value.action == "read" && Parse(required).value.resource in resources
  }

  lemma ReadGrant(resource: string)
    requires ':' !in resource && (resource != "" ==> !IsSpace(resource[0]))
    ensures Parse(resource + ":read") == Some(Statement(resource, "read", None))
  {
    hide Parse;
    assert "read"[3] == 'd' && !IsSpace('d');
    PrintableRoundTrip(Statement(resource, "read", None));
    assert Value(Statement(resource, "read", None)) == resource + ":read";
  }

  lemma CoversReading(resource: string, required: string)
    requires ':' !in resource && (resource != "" ==> !IsSpace(resource[0])) && resource != "*"
    ensures Covers(resource + ":read", required) <==> Reads(required, {resource})
  {
    hide Parse;
    ReadGrant(resource);
    CoversByStatement(resource + ":read", required);
    assert |resource + ":read"| > 1;
  }

  /** A list of read grants allows reading what it names and nothing else. */
  lemma AllowsReading(resources: seq<string>, grants: seq<string>, required: string)
    requires |grants| == |resources|
    requires forall i :: 0 <= i < |resources| ==> grants[i] == resources[i] + ":read"
    requires forall i :: 0 <= i < |resources| ==> ':' !in resources[i] && resources[i] != "" && resources[i] != "*"
    requires forall i :: 0 <= i < |resources| ==> !IsSpace(resources[i][0])
    ensures Allows(grants, required) <==> Reads(required, set r | r in resources)
  {
    hide Parse, Covers;
    forall i | 0 <= i < |grants| ensures Covers(grants[i], required) <==> Reads(required, {resources[i]}) {
      CoversReading(resources[i], required);
    }
    if Reads(required, set r | r in resources) {
      var i :| 0 <= i < |resources| && resources[i] == Parse(required).value.resource;
      assert Covers(grants[i], required);
    }
  }

  const VIEWED := ["profile", "health", "dashboard", "services", "toolbox", "clients", "settings", "logs"]

  lemma ViewersRead(required: string)
    ensures Allows(READ_ONLY_PERMISSIONS, required) <==>
      Reads(required, {"profile", "health", "dashboard", "services", "toolbox", "clients", "settings", "logs"})
  {
    hide Parse, Covers, Reads, Allows;
    AllowsReading(VIEWED, READ_ONLY_PERMISSIONS, required);
    assert (set r | r in VIEWED)
      == {"profile", "health", "dashboard", "services", "toolbox", "clients", "settings", "logs"};
  }

  lemma UsersRead(required: string)
    ensures Allows(USER_PERMISSIONS, required) <==> Reads(required, {"profile", "dashboard"})
  {
    hide Parse, Covers, Reads, Allows;
    AllowsReading(["profile", "dashboard"], USER_PERMISSIONS, required);
    assert (set r | r in ["profile", "dashboard"]) == {"profile", "dashboard"};
  }

  /** What each role may do outside the single-owner profile: owners and admins anything, viewers
      and users the reading listed here. */
  lemma RolesAllow(profile: Profile, ownerEmail: string, role: Role, email: string, required: string)
    requires profile != SingleOwner
    ensures Allows(PermissionsFor(profile, ownerEmail, role, email), required) <==>
      match role
      case Owner => true
      case Admin => true
      case Viewer =>
        Reads(required, {"profile", "health", "dashboard", "services", "toolbox", "clients", "settings", "logs"})
      case User => Reads(required, {"profile", "dashboard"})
  {
    hide Covers, Reads;
    CoversAnything(required);
    assert Covers(["*"][0], required);
    ViewersRead(required);
    UsersRead(required);
  }

  /** In the single-owner profile the owner may do anything, under the configured address up to
      case when there is one, and nobody else may do anything. */
  lemma SingleOwnerAllows(ownerEmail: string, role: Role, email: string, required: string)
    ensures Allows(PermissionsFor(SingleOwner, ownerEmail, role, email), required) <==>
      role == Owner && (ownerEmail == "" || email == "" || Lower(email) == Lower(ownerEmail))
  {
    CoversAnything(required);
    assert Covers(["*"][0], required);
  }
}

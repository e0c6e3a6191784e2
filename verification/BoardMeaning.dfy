/** Who may do what on the board: exactly when each writing call succeeds and what it then stores,
    how permission texts cover each other, and what the default roles may do. */
module BoardMeaning {
  import opened Prelude
  import opened Text
  import opened BoardState
  import opened BoardService

  // ----- Texts and parts -----

  /** A permission in parts; without a scope it has two. */
  datatype Parts = Parts(resource: string, action: string, scope: Option<string>)

  function TextOf(p: Parts): string {
    if p.scope.Some? then p.resource + ":" + p.action + ":" + p.scope.value else p.resource + ":" + p.action
  }

  predicate NoColon(word: string) {
    ':' !in word
  }

  predicate Colonless(p: Parts) {
    NoColon(p.resource) && NoColon(p.action) && (p.scope.Some? ==> NoColon(p.scope.value))
  }

  /** Resource and action agree or are granted as `*`, and the scopes agree or `any` is granted
      for `own`; scoped and unscoped permissions do not mix. */
  predicate PartsCover(g: Parts, r: Parts) {
    && (g.resource == "*" || g.resource == r.resource)
    && (g.action == "*" || g.action == r.action)
    && (g.scope == r.scope || (g.scope == Some("any") && r.scope == Some("own")))
  }

  lemma SplitParts(p: Parts)
    requires Colonless(p)
    ensures Split(TextOf(p), ':')
         == if p.scope.Some? then [p.resource, p.action, p.scope.value] else [p.resource, p.action]
  {
    if p.scope.Some? {
      SplitFree(p.scope.value, ':');
      SplitFirst(p.action, p.scope.value, ':');
      SplitFirst(p.resource, p.action + ":" + p.scope.value, ':');
      assert TextOf(p) == p.resource + [':'] + (p.action + ":" + p.scope.value);
    } else {
      SplitFree(p.action, ':');
      SplitFirst(p.resource, p.action, ':');
      assert TextOf(p) == p.resource + [':'] + p.action;
    }
  }

  /** A text of two or three parts covers another exactly when its parts do; `*` covers every text. */
  lemma MatchesMeaning(g: Parts, r: Parts, text: string)
    requires Colonless(g) && Colonless(r)
    ensures Matches(TextOf(g), TextOf(r)) <==> PartsCover(g, r)
    ensures Matches("*", text)
  {
    hide Split;
    SplitParts(g);
    SplitParts(r);
    assert TextOf(g)[|g.resource|] == ':';
  }

  // ----- The default roles -----

  const READ_PARTS := Parts("board", "read", None)

  /** The permissions of the board. */
  const VOCABULARY := [
    READ_PARTS, Parts("post", "create", None), Parts("comment", "create", None),
    Parts("post", "update", Some("own")), Parts("post", "delete", Some("own")),
    Parts("comment", "update", Some("own")), Parts("comment", "delete", Some("own")),
    Parts("post", "update", Some("any")), Parts("post", "delete", Some("any")),
    Parts("comment", "update", Some("any")), Parts("comment", "delete", Some("any"))]

  /** What a default role may do: viewers read; users also post and comment; authors also change
      and delete what is theirs; moderators read, comment, and change and delete what is
      anyone's, but do not post; owners and admins may do anything. */
  predicate RoleMay(role: string, p: Parts) {
    || role == "owner" || role == "admin"
    || (role in {"viewer", "user", "author", "moderator"} && p == READ_PARTS)
    || (role in {"user", "author"} && p == Parts("post", "create", None))
    || (role in {"user", "author", "moderator"} && p == Parts("comment", "create", None))
    || (role == "author" && p.scope == Some("own"))
    || (role == "moderator" && (p.scope == Some("own") || p.scope == Some("any")))
  }

  /** The parts of the texts a default role is granted. */
  function Granted(role: string): seq<Parts> {
    if role == "viewer" then [READ_PARTS]
    else if role == "user" then [READ_PARTS, Parts("post", "create", None), Parts("comment", "create", None)]
    else if role == "author" then
      [READ_PARTS, Parts("post", "create", None), Parts("comment", "create", None),
       Parts("post", "update", Some("own")), Parts("post", "delete", Some("own")),
       Parts("comment", "update", Some("own")), Parts("comment", "delete", Some("own"))]
    else if role == "moderator" then
      [READ_PARTS, Parts("post", "update", Some("any")), Parts("post", "delete", Some("any")),
       Parts("comment", "create", None), Parts("comment", "update", Some("any")),
       Parts("comment", "delete", Some("any"))]
    else []
  }

  lemma Texts()
    ensures READ == TextOf(READ_PARTS)
    ensures POST_CREATE == TextOf(Parts("post", "create", None))
    ensures COMMENT_CREATE == TextOf(Parts("comment", "create", None))
    ensures POST_UPDATE_OWN == TextOf(Parts("post", "update", Some("own")))
    ensures POST_UPDATE_ANY == TextOf(Parts("post", "update", Some("any")))
    ensures POST_DELETE_OWN == TextOf(Parts("post", "delete", Some("own")))
    ensures POST_DELETE_ANY == TextOf(Parts("post", "delete", Some("any")))
    ensures COMMENT_UPDATE_OWN == TextOf(Parts("comment", "update", Some("own")))
    ensures COMMENT_UPDATE_ANY == TextOf(Parts("comment", "update", Some("any")))
    ensures COMMENT_DELETE_OWN == TextOf(Parts("comment", "delete", Some("own")))
    ensures COMMENT_DELETE_ANY == TextOf(Parts("comment", "delete", Some("any")))
  {
    hide TextOf;
    PlainTexts();
    PostTexts();
    PostDeletionTexts();
    CommentTexts();
    CommentDeletionTexts();
  }

  lemma PlainTexts()
    ensures READ == TextOf(READ_PARTS)
    ensures POST_CREATE == TextOf(Parts("post", "create", None))
    ensures COMMENT_CREATE == TextOf(Parts("comment", "create", None))
  {
  }

  lemma PostTexts()
    ensures POST_UPDATE_OWN == TextOf(Parts("post", "update", Some("own")))
    ensures POST_UPDATE_ANY == TextOf(Parts("post", "update", Some("any")))
  {
  }

  lemma PostDeletionTexts()
    ensures POST_DELETE_OWN == TextOf(Parts("post", "delete", Some("own")))
    ensures POST_DELETE_ANY == TextOf(Parts("post", "delete", Some("any")))
  {
  }

  lemma CommentTexts()
    ensures COMMENT_UPDATE_OWN == TextOf(Parts("comment", "update", Some("own")))
    ensures COMMENT_UPDATE_ANY == TextOf(Parts("comment", "update", Some("any")))
  {
  }

  lemma CommentDeletionTexts()
    ensures COMMENT_DELETE_OWN == TextOf(Parts("comment", "delete", Some("own")))
    ensures COMMENT_DELETE_ANY == TextOf(Parts("comment", "delete", Some("any")))
  {
  }

  lemma GrantedTexts(role: string)
    requires role in {"viewer", "user", "author", "moderator"}
    ensures role in DEFAULT_ROLES && |DEFAULT_ROLES[role]| == |Granted(role)|
    ensures forall i :: 0 <= i < |Granted(role)| ==>
      DEFAULT_ROLES[role][i] == TextOf(Granted(role)[i]) && Granted(role)[i] in VOCABULARY
  {
    hide TextOf;
    Texts();
  }

  lemma VocabularyIsColonless(p: Parts)
    requires p in VOCABULARY
    ensures Colonless(p)
  {
    hide NoColon;
    Words();
  }

  lemma Words()
    ensures NoColon("board") && NoColon("post") && NoColon("comment") && NoColon("read") && NoColon("create")
    ensures NoColon("update") && NoColon("delete") && NoColon("own") && NoColon("any")
  {
  }

  /** The default table allows exactly that. */
  lemma DefaultRolesMeaning(role: string, p: Parts)
    requires p in VOCABULARY
    ensures role in DEFAULT_ROLES <==> role in {"owner", "admin", "moderator", "author", "user", "viewer"}
    ensures role in DEFAULT_ROLES ==> (Allows(DEFAULT_ROLES[role], TextOf(p)) <==> RoleMay(role, p))
  {
    hide Matches, TextOf, Colonless;
    VocabularyIsColonless(p);
    MatchesMeaning(p, p, TextOf(p));
    if role == "owner" || role == "admin" {
      assert Matches(DEFAULT_ROLES[role][0], TextOf(p));
    } else if role in {"viewer", "user", "author", "moderator"} {
      GrantedTexts(role);
      var grants, parts := DEFAULT_ROLES[role], Granted(role);
      forall i | 0 <= i < |parts| ensures Matches(grants[i], TextOf(p)) <==> PartsCover(parts[i], p) {
        VocabularyIsColonless(parts[i]);
        MatchesMeaning(parts[i], p, "");
      }
      GrantedCover(role, p);
      if i :| 0 <= i < |parts| && PartsCover(parts[i], p) {
        assert Matches(grants[i], TextOf(p));
      }
    }
  }

  lemma GrantedCover(role: string, p: Parts)
    requires p in VOCABULARY && role in {"viewer", "user", "author", "moderator"}
    ensures (exists i :: 0 <= i < |Granted(role)| && PartsCover(Granted(role)[i], p)) <==> RoleMay(role, p)
  {
    if RoleMay(role, p) {
      if p in Granted(role) {
        var i :| 0 <= i < |Granted(role)| && Granted(role)[i] == p;
        assert PartsCover(Granted(role)[i], p);
      } else {
        var any := p.(scope := Some("any"));
        assert any in Granted(role);
        var i :| 0 <= i < |Granted(role)| && Granted(role)[i] == any;
        assert PartsCover(Granted(role)[i], p);
      }
    }
  }

  // ----- Calls -----

  /** The permissions an actor holds: explicit ones, else those of the role in the table given,
      or in the default one. */
  function Held(roles: map<string, seq<string>>, actor: Actor): seq<string> {
    if actor.permissions != [] then actor.permissions
    else if roles == map[] then if actor.role in DEFAULT_ROLES then DEFAULT_ROLES[actor.role] else []
    else if actor.role in roles then roles[actor.role] else []
  }

  /** An identified, active actor holds a permission that covers the one asked for. */
  predicate Able(roles: map<string, seq<string>>, actor: Actor, permission: string) {
    actor.id != "" && CapitalsOf(actor.status, "active") && Allows(Held(roles, actor), permission)
  }

  predicate Manages(roles: map<string, seq<string>>, actor: Actor, author: string, own: string, any: string) {
    Able(roles, actor, any) || (actor.id == author && Able(roles, actor, own))
  }

  /** Not empty and not too long once stripped. */
  predicate Fits(text: string, most: nat) {
    1 <= |Strip(text)| <= most
  }

  /** The call succeeds. */
  predicate May(roles: map<string, seq<string>>, b: Board, call: Call) {
    match call
    case CreatePost(actor, title, body, id) =>
      Able(roles, actor, "post:create") && Fits(title, 200) && Fits(body, 20000) && id !in b.posts
    case UpdatePost(actor, post, title, body) =>
      && post in b.posts && Manages(roles, actor, b.posts[post].author, "post:update:own", "post:update:any")
      && (title.Some? ==> Fits(title.value, 200)) && (body.Some? ==> Fits(body.value, 20000))
    case DeletePost(actor, post) =>
      post in b.posts && Manages(roles, actor, b.posts[post].author, "post:delete:own", "post:delete:any")
    case CreateComment(actor, post, body, id) =>
      Able(roles, actor, "comment:create") && post in b.posts && Fits(body, 10000) && id !in b.comments
    case UpdateComment(actor, comment, body) =>
      && comment in b.comments
      && Manages(roles, actor, b.comments[comment].author, "comment:update:own", "comment:update:any")
      && Fits(body, 10000)
    case DeleteComment(actor, comment) =>
      && comment in b.comments
      && Manages(roles, actor, b.comments[comment].author, "comment:delete:own", "comment:delete:any")
  }

  function Or(text: Option<string>, kept: string): string {
    if text.Some? then Strip(text.value) else kept
  }

  /** The posts and comments after a successful call. */
  predicate Done(b: Board, call: Call, now: Time, b': Board) {
    match call
    case CreatePost(actor, title, body, id) =>
      && b'.posts == b.posts[id := Post(id, actor.id, Strip(title), Strip(body), now, now)]
      && b'.comments == b.comments
    case UpdatePost(_, post, title, body) =>
      && post in b.posts && b'.comments == b.comments
      && var p := b.posts[post];
         b'.posts == b.posts[post := Post(post, p.author, Or(title, p.title), Or(body, p.body), p.createdAt, now)]
    case DeletePost(_, post) =>
      && b'.posts == b.posts - {post}
      && b'.comments == map c | c in b.comments && b.comments[c].postId != post :: b.comments[c]
    case CreateComment(actor, post, body, id) =>
      b'.posts == b.posts && b'.comments == b.comments[id := Comment(id, post, actor.id, Strip(body), now, now)]
    case UpdateComment(_, comment, body) =>
      && comment in b.comments && b'.posts == b.posts
      && var c := b.comments[comment];
         b'.comments == b.comments[comment := Comment(comment, c.postId, c.author, Strip(body), c.createdAt, now)]
    case DeleteComment(_, comment) => b'.posts == b.posts && b'.comments == b.comments - {comment}
  }

  lemma AbleMeaning(roles: map<string, seq<string>>, actor: Actor, permission: string)
    ensures Authorize(roles, actor, permission) == None <==> Able(roles, actor, permission)
  {
    hide Allows, CapitalsOf;
    LowersToWord(actor.status, "active");
  }

  lemma ManagesMeaning(roles: map<string, seq<string>>, actor: Actor, own: string, any: string, author: string)
    ensures AuthorizeOwned(roles, actor, own, any, author) == None <==> Manages(roles, actor, author, own, any)
  {
    hide Allows, CapitalsOf;
    LowersToWord(actor.status, "active");
  }

  lemma CleanMeaning(text: string, most: nat)
    ensures Clean(text, most) == if Fits(text, most) then Ok(Strip(text)) else Err(Invalid)
  {
    hide Strip;
  }

  /** Exactly when a writing call succeeds, and what it then leaves; a refused one changes nothing. */
  lemma CallMeaning(roles: map<string, seq<string>>, b: Board, call: Call, now: Time)
    requires Indexed(b)
    ensures var (b', r) := Step(roles, b, call, now);
      && (r.Ok? <==> May(roles, b, call))
      && (r.Ok? ==> Done(b, call, now, b'))
      && (r.Err? ==> b' == b)
  {
    match call
    case CreatePost(_, _, _, _) => CreatePostMeaning(roles, b, call, now);
    case UpdatePost(_, _, _, _) => UpdatePostMeaning(roles, b, call, now);
    case DeletePost(_, _) => DeletesMeaning(roles, b, call, now);
    case CreateComment(_, _, _, _) => CommentsMeaning(roles, b, call, now);
    case UpdateComment(_, _, _) => CommentsMeaning(roles, b, call, now);
    case DeleteComment(_, _) => DeletesMeaning(roles, b, call, now);
  }

  lemma CreatePostMeaning(roles: map<string, seq<string>>, b: Board, call: Call, now: Time)
    requires Indexed(b) && call.CreatePost?
    ensures var (b', r) := Step(roles, b, call, now);
      (r.Ok? <==> May(roles, b, call)) && (r.Ok? ==> Done(b, call, now, b')) && (r.Err? ==> b' == b)
  {
    hide Authorize, Able, Clean, Fits, Strip, Indexed;
    AbleMeaning(roles, call.actor, POST_CREATE);
    CleanMeaning(call.title, 200);
    CleanMeaning(call.body, 20000);
  }

  lemma UpdatePostMeaning(roles: map<string, seq<string>>, b: Board, call: Call, now: Time)
    requires Indexed(b) && call.UpdatePost?
    ensures var (b', r) := Step(roles, b, call, now);
      (r.Ok? <==> May(roles, b, call)) && (r.Ok? ==> Done(b, call, now, b')) && (r.Err? ==> b' == b)
  {
    hide AuthorizeOwned, Manages, Clean, Fits, Strip;
    if call.post in b.posts {
      ManagesMeaning(roles, call.actor, POST_UPDATE_OWN, POST_UPDATE_ANY, b.posts[call.post].author);
      if call.newTitle.Some? {
        CleanMeaning(call.newTitle.value, 200);
      }
      if call.newBody.Some? {
        CleanMeaning(call.newBody.value, 20000);
      }
    }
  }

  lemma CommentsMeaning(roles: map<string, seq<string>>, b: Board, call: Call, now: Time)
    requires Indexed(b) && (call.CreateComment? || call.UpdateComment?)
    ensures var (b', r) := Step(roles, b, call, now);
      (r.Ok? <==> May(roles, b, call)) && (r.Ok? ==> Done(b, call, now, b')) && (r.Err? ==> b' == b)
  {
    hide Authorize, Able, AuthorizeOwned, Manages, Clean, Fits, Strip;
    CleanMeaning(call.body, 10000);
    if call.CreateComment? {
      AbleMeaning(roles, call.actor, COMMENT_CREATE);
    } else if call.comment in b.comments {
      ManagesMeaning(roles, call.actor, COMMENT_UPDATE_OWN, COMMENT_UPDATE_ANY, b.comments[call.comment].author);
    }
  }

  lemma DeletesMeaning(roles: map<string, seq<string>>, b: Board, call: Call, now: Time)
    requires Indexed(b) && (call.DeletePost? || call.DeleteComment?)
    ensures var (b', r) := Step(roles, b, call, now);
      (r.Ok? <==> May(roles, b, call)) && (r.Ok? ==> Done(b, call, now, b')) && (r.Err? ==> b' == b)
  {
    hide AuthorizeOwned, Manages;
    if call.DeletePost? && call.post in b.posts {
      ManagesMeaning(roles, call.actor, POST_DELETE_OWN, POST_DELETE_ANY, b.posts[call.post].author);
      DeletePostCascades(b, call.post);
    } else if call.DeleteComment? && call.comment in b.comments {
      ManagesMeaning(roles, call.actor, COMMENT_DELETE_OWN, COMMENT_DELETE_ANY, b.comments[call.comment].author);
    }
  }

  /** Reading a post's comments needs the permission to read, for everyone. */
  lemma ReadMeaning(roles: map<string, seq<string>>, actor: Actor)
    ensures Authorize(roles, actor, READ) == None <==> Able(roles, actor, "board:read")
  {
    hide Able, Authorize;
    AbleMeaning(roles, actor, READ);
  }
}

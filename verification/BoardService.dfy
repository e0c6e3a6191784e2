/** The board service, its permission vocabulary and its runs
    (demos/board_rbac/service.py, demos/board_rbac/permissions.py). */
module BoardService {
  import opened Prelude
  import opened Text
  import opened BoardState
  import BoardStorage

  const READ := "board:read"
  const POST_CREATE := "post:create"
  const POST_UPDATE_OWN := "post:update:own"
  const POST_UPDATE_ANY := "post:update:any"
  const POST_DELETE_OWN := "post:delete:own"
  const POST_DELETE_ANY := "post:delete:any"
  const COMMENT_CREATE := "comment:create"
  const COMMENT_UPDATE_OWN := "comment:update:own"
  const COMMENT_UPDATE_ANY := "comment:update:any"
  const COMMENT_DELETE_OWN := "comment:delete:own"
  const COMMENT_DELETE_ANY := "comment:delete:any"

  const USER_GRANTS := [READ, POST_CREATE, COMMENT_CREATE]
  const AUTHOR_GRANTS := USER_GRANTS + [POST_UPDATE_OWN, POST_DELETE_OWN, COMMENT_UPDATE_OWN, COMMENT_DELETE_OWN]
  const MODERATOR_GRANTS :=
    [READ, POST_UPDATE_ANY, POST_DELETE_ANY, COMMENT_CREATE, COMMENT_UPDATE_ANY, COMMENT_DELETE_ANY]

  const DEFAULT_ROLES := map[
    "owner" := ["*"], "admin" := ["*"], "moderator" := MODERATOR_GRANTS,
    "author" := AUTHOR_GRANTS, "user" := USER_GRANTS, "viewer" := [READ]]

  datatype Actor = Actor(id: string, role: string, status: string, permissions: seq<string>)

  /** `permission_matches`. */
  predicate Matches(granted: string, required: string) {
    if granted == "*" || granted == required then true
    else
      var g := Split(granted, ':');
      var r := Split(required, ':');
      if |g| != |r| || |g| < 2 then false
      else if g[0] != "*" && g[0] != r[0] then false
      else if g[1] != "*" && g[1] != r[1] then false
      else if |r| == 2 then true
      else g[2] == r[2] || (g[2] == "any" && r[2] == "own")
  }

  /** `permissions_for`: explicit permissions replace the role's; an empty table means the default. */
  function GrantsOf(roles: map<string, seq<string>>, actor: Actor): seq<string> {
    if actor.permissions != [] then actor.permissions
    else
      var table := if roles == map[] then DEFAULT_ROLES else roles;
      if actor.role in table then table[actor.role] else []
  }

  predicate Allows(grants: seq<string>, required: string) {
    exists i :: 0 <= i < |grants| && Matches(grants[i], required)
  }

  /** `_actor_permissions`: an actor without id is not authenticated, an inactive one not allowed. */
  function ActorGrants(roles: map<string, seq<string>>, actor: Actor): Result<seq<string>, Failure> {
    if actor.id == "" then Err(NotAuthenticated)
    else if Lower(actor.status) != "active" then Err(NotAuthorized)
    else Ok(GrantsOf(roles, actor))
  }

  /** `_authorize`; `None` lets the call through. */
  function Authorize(roles: map<string, seq<string>>, actor: Actor, permission: string): Option<Failure> {
    match ActorGrants(roles, actor)
    case Err(e) => Some(e)
    case Ok(grants) => if Allows(grants, permission) then None else Some(NotAuthorized)
  }

  /** `_authorize_owned`. */
  function AuthorizeOwned(roles: map<string, seq<string>>, actor: Actor, own: string, any: string, owner: string)
    : Option<Failure>
  {
    match ActorGrants(roles, actor)
    case Err(e) => Some(e)
    case Ok(grants) =>
      if actor.id == owner && Allows(grants, own) then None
      else if Allows(grants, any) then None
      else Some(NotAuthorized)
  }

  /** `_clean_required`. */
  function Clean(text: string, most: nat): Result<string, Failure> {
    var cleaned := Strip(text);
    if cleaned == "" || |cleaned| > most then Err(Invalid) else Ok(cleaned)
  }

  function CleanOr(text: Option<string>, most: nat, kept: string): Result<string, Failure> {
    match text case None => Ok(kept) case Some(t) => Clean(t, most)
  }

  /** The writing calls of the service; new ids are inputs. */
  datatype Call =
    | CreatePost(actor: Actor, title: string, body: string, id: Id)
    | UpdatePost(actor: Actor, post: Id, newTitle: Option<string>, newBody: Option<string>)
    | DeletePost(actor: Actor, post: Id)
    | CreateComment(actor: Actor, post: Id, body: string, id: Id)
    | UpdateComment(actor: Actor, comment: Id, body: string)
    | DeleteComment(actor: Actor, comment: Id)

  type Outcome = Result<(), Failure>

  function Drop<T>(r: (Board, Result<T, Failure>)): (Board, Outcome) {
    (r.0, match r.1 case Ok(_) => Ok(()) case Err(e) => Err(e))
  }

  /** One service call at time `now`. */
  function Step(roles: map<string, seq<string>>, b: Board, call: Call, now: Time): (Board, Outcome) {
    match call
    case CreatePost(actor, title, body, id) =>
      (match Authorize(roles, actor, POST_CREATE)
       case Some(e) => (b, Err(e))
       case None =>
         var t := Clean(title, 200);
         if t.Err? then (b, Err(t.error))
         else
           var d := Clean(body, 20000);
           if d.Err? then (b, Err(d.error))
           else Drop(BoardState.CreatePost(b, Post(id, actor.id, t.value, d.value, now, now))))
    case UpdatePost(actor, id, title, body) =>
      if id !in b.posts then (b, Err(NotFound))
      else
        var post := b.posts[id];
        (match AuthorizeOwned(roles, actor, POST_UPDATE_OWN, POST_UPDATE_ANY, post.author)
         case Some(e) => (b, Err(e))
         case None =>
           var t := CleanOr(title, 200, post.title);
           if t.Err? then (b, Err(t.error))
           else
             var d := CleanOr(body, 20000, post.body);
             if d.Err? then (b, Err(d.error))
             else Drop(BoardState.UpdatePost(b, post.(title := t.value, body := d.value), now)))
    case DeletePost(actor, id) =>
      if id !in b.posts then (b, Err(NotFound))
      else
        (match AuthorizeOwned(roles, actor, POST_DELETE_OWN, POST_DELETE_ANY, b.posts[id].author)
         case Some(e) => (b, Err(e))
         case None => BoardState.DeletePost(b, id))
    case CreateComment(actor, post, body, id) =>
      (match Authorize(roles, actor, COMMENT_CREATE)
       case Some(e) => (b, Err(e))
       case None =>
         if post !in b.posts then (b, Err(NotFound))
         else
           var d := Clean(body, 10000);
           if d.Err? then (b, Err(d.error))
           else Drop(BoardState.CreateComment(b, Comment(id, post, actor.id, d.value, now, now))))
    case UpdateComment(actor, id, body) =>
      if id !in b.comments then (b, Err(NotFound))
      else
        var comment := b.comments[id];
        (match AuthorizeOwned(roles, actor, COMMENT_UPDATE_OWN, COMMENT_UPDATE_ANY, comment.author)
         case Some(e) => (b, Err(e))
         case None =>
           var d := Clean(body, 10000);
           if d.Err? then (b, Err(d.error))
           else Drop(BoardState.UpdateComment(b, comment.(body := d.value), now)))
    case DeleteComment(actor, id) =>
      if id !in b.comments then (b, Err(NotFound))
      else
        (match AuthorizeOwned(roles, actor, COMMENT_DELETE_OWN, COMMENT_DELETE_ANY, b.comments[id].author)
         case Some(e) => (b, Err(e))
         case None => BoardState.DeleteComment(b, id))
  }

  /** `BoardService`. */
  class Service {
    const storage: BoardStorage.MemoryBoardStorage
    const roles: map<string, seq<string>>

    constructor (storage: BoardStorage.MemoryBoardStorage, roles: map<string, seq<string>>)
      ensures this.storage == storage && this.roles == roles
    {
      this.storage, this.roles := storage, roles;
    }

    method CreatePost(actor: Actor, title: string, body: string, id: Id, now: Time) returns (r: Result<Post, Failure>)
      requires storage.Valid()
      modifies storage
      ensures storage.Valid()
      ensures (storage.Contents(), Drop((EMPTY, r)).1)
        == Step(roles, old(storage.Contents()), Call.CreatePost(actor, title, body, id), now)
    {
      var denied := Authorize(roles, actor, POST_CREATE);
      if denied.Some? { return Err(denied.value); }
      var t := Clean(title, 200);
      if t.Err? { return Err(t.error); }
      var d := Clean(body, 20000);
      if d.Err? { return Err(d.error); }
      r := storage.CreatePost(Post(id, actor.id, t.value, d.value, now, now));
    }

    method UpdatePost(actor: Actor, id: Id, title: Option<string>, body: Option<string>, now: Time)
      returns (r: Result<Post, Failure>)
      requires storage.Valid()
      modifies storage
      ensures storage.Valid()
      ensures (storage.Contents(), Drop((EMPTY, r)).1)
        == Step(roles, old(storage.Contents()), Call.UpdatePost(actor, id, title, body), now)
    {
      if id !in storage.posts { return Err(NotFound); }
      var post := storage.posts[id];
      var denied := AuthorizeOwned(roles, actor, POST_UPDATE_OWN, POST_UPDATE_ANY, post.author);
      if denied.Some? { return Err(denied.value); }
      var t := CleanOr(title, 200, post.title);
      if t.Err? { return Err(t.error); }
      var d := CleanOr(body, 20000, post.body);
      if d.Err? { return Err(d.error); }
      r := storage.UpdatePost(post.(title := t.value, body := d.value), now);
    }

    method DeletePost(actor: Actor, id: Id, now: Time) returns (r: Outcome)
      requires storage.Valid()
      modifies storage
      ensures storage.Valid()
      ensures (storage.Contents(), r) == Step(roles, old(storage.Contents()), Call.DeletePost(actor, id), now)
    {
      if id !in storage.posts { return Err(NotFound); }
      var denied := AuthorizeOwned(roles, actor, POST_DELETE_OWN, POST_DELETE_ANY, storage.posts[id].author);
      if denied.Some? { return Err(denied.value); }
      r := storage.DeletePost(id);
    }

    method CreateComment(actor: Actor, post: Id, body: string, id: Id, now: Time) returns (r: Result<Comment, Failure>)
      requires storage.Valid()
      modifies storage
      ensures storage.Valid()
      ensures (storage.Contents(), Drop((EMPTY, r)).1)
        == Step(roles, old(storage.Contents()), Call.CreateComment(actor, post, body, id), now)
    {
      var denied := Authorize(roles, actor, COMMENT_CREATE);
      if denied.Some? { return Err(denied.value); }
      if post !in storage.posts { return Err(NotFound); }
      var d := Clean(body, 10000);
      if d.Err? { return Err(d.error); }
      r := storage.CreateComment(Comment(id, post, actor.id, d.value, now, now));
    }

    method UpdateComment(actor: Actor, id: Id, body: string, now: Time) returns (r: Result<Comment, Failure>)
      requires storage.Valid()
      modifies storage
      ensures storage.Valid()
      ensures (storage.Contents(), Drop((EMPTY, r)).1)
        == Step(roles, old(storage.Contents()), Call.UpdateComment(actor, id, body), now)
    {
      if id !in storage.comments { return Err(NotFound); }
      var comment := storage.comments[id];
      var denied := AuthorizeOwned(roles, actor, COMMENT_UPDATE_OWN, COMMENT_UPDATE_ANY, comment.author);
      if denied.Some? { return Err(denied.value); }
      var d := Clean(body, 10000);
      if d.Err? { return Err(d.error); }
      r := storage.UpdateComment(comment.(body := d.value), now);
    }

    method DeleteComment(actor: Actor, id: Id, now: Time) returns (r: Outcome)
      requires storage.Valid()
      modifies storage
      ensures storage.Valid()
      ensures (storage.Contents(), r) == Step(roles, old(storage.Contents()), Call.DeleteComment(actor, id), now)
    {
      if id !in storage.comments { return Err(NotFound); }
      var denied := AuthorizeOwned(roles, actor, COMMENT_DELETE_OWN, COMMENT_DELETE_ANY, storage.comments[id].author);
      if denied.Some? { return Err(denied.value); }
      r := storage.DeleteComment(id);
    }

    /** `list_comments`: readers only. */
    method ListComments(actor: Actor, post: Id) returns (r: Result<seq<Comment>, Failure>)
      requires storage.Valid()
      ensures r.Ok? <==> Authorize(roles, actor, READ) == None && post in storage.posts
      ensures r.Ok? ==> Listing(r.value, OnPost(storage.Contents(), post))
    {
      var denied := Authorize(roles, actor, READ);
      if denied.Some? { return Err(denied.value); }
      r := storage.ListComments(post);
    }
  }

  // ----- Runs -----

  datatype Timed = Timed(call: Call, now: Time)

  function Run(roles: map<string, seq<string>>, calls: seq<Timed>): Board {
    if calls == [] then EMPTY
    else Step(roles, Run(roles, calls[..|calls| - 1]), calls[|calls| - 1].call, calls[|calls| - 1].now).0
  }

  lemma StepKeepsIndex(roles: map<string, seq<string>>, b: Board, call: Call, now: Time)
    requires Indexed(b)
    ensures Indexed(Step(roles, b, call, now).0)
  {
    hide Authorize, AuthorizeOwned, Clean, CleanOr, Indexed;
    match call
    case CreatePost(actor, title, body, id) =>
      var t, d := Clean(title, 200), Clean(body, 20000);
      if t.Ok? && d.Ok? {
        PostWritesKeepIndex(b, Post(id, actor.id, t.value, d.value, now, now), now);
      }
    case UpdatePost(actor, id, title, body) =>
      if id in b.posts {
        var t, d := CleanOr(title, 200, b.posts[id].title), CleanOr(body, 20000, b.posts[id].body);
        if t.Ok? && d.Ok? {
          PostWritesKeepIndex(b, b.posts[id].(title := t.value, body := d.value), now);
        }
      }
    case DeletePost(_, id) => DeletesKeepIndex(b, id);
    case CreateComment(actor, post, body, id) =>
      var d := Clean(body, 10000);
      if d.Ok? {
        CommentWritesKeepIndex(b, Comment(id, post, actor.id, d.value, now, now), now);
      }
    case UpdateComment(actor, id, body) =>
      var d := Clean(body, 10000);
      if id in b.comments && d.Ok? {
        CommentWritesKeepIndex(b, b.comments[id].(body := d.value), now);
      }
    case DeleteComment(_, id) => DeletesKeepIndex(b, id);
  }

  /** No call changes the author or creation time of a post or comment that stays. */
  lemma StepKeepsOrigins(roles: map<string, seq<string>>, b: Board, call: Call, now: Time)
    ensures SameOrigins(b, Step(roles, b, call, now).0)
  {
    assert SameOrigins(b, b);
    hide Authorize, AuthorizeOwned, Clean, CleanOr, SameOrigins;
    match call
    case CreatePost(actor, title, body, id) =>
      var t, d := Clean(title, 200), Clean(body, 20000);
      if t.Ok? && d.Ok? {
        PostWritesKeepOrigins(b, Post(id, actor.id, t.value, d.value, now, now), now);
      }
    case UpdatePost(actor, id, title, body) =>
      if id in b.posts {
        var t, d := CleanOr(title, 200, b.posts[id].title), CleanOr(body, 20000, b.posts[id].body);
        if t.Ok? && d.Ok? {
          PostWritesKeepOrigins(b, b.posts[id].(title := t.value, body := d.value), now);
        }
      }
    case DeletePost(_, id) => DeletesKeepOrigins(b, id);
    case CreateComment(actor, post, body, id) =>
      var d := Clean(body, 10000);
      if d.Ok? {
        CommentWritesKeepOrigins(b, Comment(id, post, actor.id, d.value, now, now), now);
      }
    case UpdateComment(actor, id, body) =>
      var d := Clean(body, 10000);
      if id in b.comments && d.Ok? {
        CommentWritesKeepOrigins(b, b.comments[id].(body := d.value), now);
      }
    case DeleteComment(_, id) => DeletesKeepOrigins(b, id);
  }

  /** In every reachable state the index lists exactly the stored comments of the stored posts. */
  lemma {:induction false} RunsKeepIndex(roles: map<string, seq<string>>, calls: seq<Timed>)
    ensures Indexed(Run(roles, calls))
  {
    if calls != [] {
      var init := calls[..|calls| - 1];
      RunsKeepIndex(roles, init);
      StepKeepsIndex(roles, Run(roles, init), calls[|calls| - 1].call, calls[|calls| - 1].now);
    }
  }

  /** Over any stretch of a run during which a post stays stored, its author and creation time stay. */
  lemma {:induction false} OriginsOverRuns(roles: map<string, seq<string>>, calls: seq<Timed>, k: nat, p: Id)
    requires k <= |calls|
    requires forall j :: k <= j <= |calls| ==> p in Run(roles, calls[..j]).posts
    ensures p in Run(roles, calls).posts
    ensures Run(roles, calls).posts[p].author == Run(roles, calls[..k]).posts[p].author
    ensures Run(roles, calls).posts[p].createdAt == Run(roles, calls[..k]).posts[p].createdAt
  {
    assert calls[..|calls|] == calls;
    if k < |calls| {
      var init := calls[..|calls| - 1];
      forall j | k <= j <= |init| ensures p in Run(roles, init[..j]).posts {
        assert init[..j] == calls[..j];
      }
      OriginsOverRuns(roles, init, k, p);
      assert init[..k] == calls[..k];
      StepKeepsOrigins(roles, Run(roles, init), calls[|calls| - 1].call, calls[|calls| - 1].now);
    }
  }

  /** The same for a comment, and its post. */
  lemma {:induction false} CommentOriginsOverRuns(roles: map<string, seq<string>>, calls: seq<Timed>, k: nat, c: Id)
    requires k <= |calls|
    requires forall j :: k <= j <= |calls| ==> c in Run(roles, calls[..j]).comments
    ensures c in Run(roles, calls).comments
    ensures var x, y := Run(roles, calls[..k]).comments[c], Run(roles, calls).comments[c];
      y.author == x.author && y.createdAt == x.createdAt && y.postId == x.postId
  {
    assert calls[..|calls|] == calls;
    if k < |calls| {
      var init := calls[..|calls| - 1];
      forall j | k <= j <= |init| ensures c in Run(roles, init[..j]).comments {
        assert init[..j] == calls[..j];
      }
      CommentOriginsOverRuns(roles, init, k, c);
      assert init[..k] == calls[..k];
      StepKeepsOrigins(roles, Run(roles, init), calls[|calls| - 1].call, calls[|calls| - 1].now);
    }
  }

  // ----- Provenance -----

  predicate ActiveWith(roles: map<string, seq<string>>, actor: Actor, permission: string) {
    ActorGrants(roles, actor).Ok? && Allows(ActorGrants(roles, actor).value, permission)
  }

  /** The actor may write for `author`: as the author with the own-scoped permission, or with the
      any-scope one. */
  predicate MayWrite(roles: map<string, seq<string>>, actor: Actor, author: string, own: string, any: string) {
    || (actor.id == author && ActiveWith(roles, actor, own))
    || ActiveWith(roles, actor, any)
  }

  predicate WritesTitle(roles: map<string, seq<string>>, call: Call, post: Post) {
    || (call.CreatePost? && call.id == post.id && Clean(call.title, 200) == Ok(post.title)
        && call.actor.id == post.author && ActiveWith(roles, call.actor, POST_CREATE))
    || (call.UpdatePost? && call.post == post.id && call.newTitle.Some?
        && Clean(call.newTitle.value, 200) == Ok(post.title)
        && MayWrite(roles, call.actor, post.author, POST_UPDATE_OWN, POST_UPDATE_ANY))
  }

  predicate WritesBody(roles: map<string, seq<string>>, call: Call, post: Post) {
    || (call.CreatePost? && call.id == post.id && Clean(call.body, 20000) == Ok(post.body)
        && call.actor.id == post.author && ActiveWith(roles, call.actor, POST_CREATE))
    || (call.UpdatePost? && call.post == post.id && call.newBody.Some?
        && Clean(call.newBody.value, 20000) == Ok(post.body)
        && MayWrite(roles, call.actor, post.author, POST_UPDATE_OWN, POST_UPDATE_ANY))
  }

  predicate WritesComment(roles: map<string, seq<string>>, call: Call, comment: Comment) {
    || (call.CreateComment? && call.id == comment.id && call.post == comment.postId
        && Clean(call.body, 10000) == Ok(comment.body)
        && call.actor.id == comment.author && ActiveWith(roles, call.actor, COMMENT_CREATE))
    || (call.UpdateComment? && call.comment == comment.id && Clean(call.body, 10000) == Ok(comment.body)
        && MayWrite(roles, call.actor, comment.author, COMMENT_UPDATE_OWN, COMMENT_UPDATE_ANY))
  }

  lemma AuthorizedIsActive(roles: map<string, seq<string>>, actor: Actor, permission: string)
    requires Authorize(roles, actor, permission) == None
    ensures ActiveWith(roles, actor, permission)
  {
  }

  lemma OwnerMayWrite(roles: map<string, seq<string>>, actor: Actor, own: string, any: string, owner: string)
    requires AuthorizeOwned(roles, actor, own, any, owner) == None
    ensures MayWrite(roles, actor, owner, own, any)
  {
    hide Allows, GrantsOf, Lower;
  }

  /** After a step a post has its old title or one the successful call wrote; likewise its text. */
  predicate PostWritten(roles: map<string, seq<string>>, b: Board, call: Call, wrote: bool, post: Post, p: Id) {
    && post.id == p
    && ((wrote && WritesTitle(roles, call, post)) || HasTitle(b, p, post.title, post.author))
    && ((wrote && WritesBody(roles, call, post)) || HasBody(b, p, post.body, post.author))
  }

  lemma OldPost(roles: map<string, seq<string>>, b: Board, call: Call, wrote: bool, p: Id)
    requires Indexed(b) && p in b.posts
    ensures PostWritten(roles, b, call, wrote, b.posts[p], p)
  {
    hide WritesTitle, WritesBody;
  }

  lemma StepWritesPost(roles: map<string, seq<string>>, b: Board, call: Call, now: Time, p: Id)
    requires Indexed(b)
    requires p in Step(roles, b, call, now).0.posts
    ensures PostWritten(roles, b, call, Step(roles, b, call, now).1.Ok?, Step(roles, b, call, now).0.posts[p], p)
  {
    hide Indexed, Clean, Authorize, AuthorizeOwned, ActiveWith;
    if p in b.posts {
      OldPost(roles, b, call, Step(roles, b, call, now).1.Ok?, p);
    }
    if call.CreatePost? && Authorize(roles, call.actor, POST_CREATE) == None {
      AuthorizedIsActive(roles, call.actor, POST_CREATE);
    } else if call.UpdatePost? && call.post in b.posts
      && AuthorizeOwned(roles, call.actor, POST_UPDATE_OWN, POST_UPDATE_ANY, b.posts[call.post].author) == None {
      OldPost(roles, b, call, true, call.post);
      OwnerMayWrite(roles, call.actor, POST_UPDATE_OWN, POST_UPDATE_ANY, b.posts[call.post].author);
    }
  }

  predicate CommentWrittenOrKept(roles: map<string, seq<string>>, b: Board, call: Call, wrote: bool, comment: Comment,
                                 c: Id)
  {
    && comment.id == c
    && ((wrote && WritesComment(roles, call, comment))
        || HasComment(b, c, comment.postId, comment.body, comment.author))
  }

  lemma OldComment(roles: map<string, seq<string>>, b: Board, call: Call, wrote: bool, c: Id)
    requires Indexed(b) && c in b.comments
    ensures CommentWrittenOrKept(roles, b, call, wrote, b.comments[c], c)
  {
    hide WritesComment;
  }

  lemma StepWritesComment(roles: map<string, seq<string>>, b: Board, call: Call, now: Time, c: Id)
    requires Indexed(b)
    requires c in Step(roles, b, call, now).0.comments
    ensures CommentWrittenOrKept(roles, b, call, Step(roles, b, call, now).1.Ok?,
                                 Step(roles, b, call, now).0.comments[c], c)
  {
    hide Indexed, Clean, Authorize, AuthorizeOwned, ActiveWith;
    if c in b.comments {
      OldComment(roles, b, call, Step(roles, b, call, now).1.Ok?, c);
    }
    if call.CreateComment? && Authorize(roles, call.actor, COMMENT_CREATE) == None {
      AuthorizedIsActive(roles, call.actor, COMMENT_CREATE);
    } else if call.UpdateComment? && call.comment in b.comments
      && AuthorizeOwned(roles, call.actor, COMMENT_UPDATE_OWN, COMMENT_UPDATE_ANY, b.comments[call.comment].author)
           == None {
      OldComment(roles, b, call, true, call.comment);
      OwnerMayWrite(roles, call.actor, COMMENT_UPDATE_OWN, COMMENT_UPDATE_ANY, b.comments[call.comment].author);
    }
  }

  /** Call `i` of the run was accepted. */
  predicate Accepted(roles: map<string, seq<string>>, calls: seq<Timed>, i: nat)
    requires i < |calls|
  {
    Step(roles, Run(roles, calls[..i]), calls[i].call, calls[i].now).1.Ok?
  }

  predicate HasTitle(b: Board, p: Id, title: string, author: string) {
    p in b.posts && b.posts[p].title == title && b.posts[p].author == author
  }

  predicate HasBody(b: Board, p: Id, body: string, author: string) {
    p in b.posts && b.posts[p].body == body && b.posts[p].author == author
  }

  predicate HasComment(b: Board, c: Id, post: Id, body: string, author: string) {
    c in b.comments && b.comments[c].postId == post && b.comments[c].body == body && b.comments[c].author == author
  }

  /** In every state since call `i` the post has been stored, with this title and author. */
  predicate TitleStands(roles: map<string, seq<string>>, calls: seq<Timed>, i: nat, post: Post) {
    forall j :: i < j <= |calls| ==> HasTitle(Run(roles, calls[..j]), post.id, post.title, post.author)
  }

  predicate BodyStands(roles: map<string, seq<string>>, calls: seq<Timed>, i: nat, post: Post) {
    forall j :: i < j <= |calls| ==> HasBody(Run(roles, calls[..j]), post.id, post.body, post.author)
  }

  predicate CommentStands(roles: map<string, seq<string>>, calls: seq<Timed>, i: nat, comment: Comment) {
    forall j :: i < j <= |calls| ==>
      HasComment(Run(roles, calls[..j]), comment.id, comment.postId, comment.body, comment.author)
  }

  /** Call `i` was accepted, wrote the title, and nothing has replaced it since. */
  predicate TitleFrom(roles: map<string, seq<string>>, calls: seq<Timed>, i: nat, post: Post) {
    && i < |calls| && Accepted(roles, calls, i) && WritesTitle(roles, calls[i].call, post)
    && TitleStands(roles, calls, i, post)
  }

  predicate BodyFrom(roles: map<string, seq<string>>, calls: seq<Timed>, i: nat, post: Post) {
    && i < |calls| && Accepted(roles, calls, i) && WritesBody(roles, calls[i].call, post)
    && BodyStands(roles, calls, i, post)
  }

  predicate CommentFrom(roles: map<string, seq<string>>, calls: seq<Timed>, i: nat, comment: Comment) {
    && i < |calls| && Accepted(roles, calls, i)
    && WritesComment(roles, calls[i].call, comment) && CommentStands(roles, calls, i, comment)
  }

  lemma SameTitleWritten(roles: map<string, seq<string>>, call: Call, was: Post, post: Post)
    requires was.id == post.id && was.author == post.author && was.title == post.title
    ensures WritesTitle(roles, call, was) == WritesTitle(roles, call, post)
  {
    hide Clean, ActiveWith, MayWrite;
  }

  lemma TitleStillStands(roles: map<string, seq<string>>, calls: seq<Timed>, i: nat, was: Post, post: Post)
    requires calls != [] && TitleFrom(roles, calls[..|calls| - 1], i, was)
    requires was.id == post.id && was.author == post.author && was.title == post.title
    requires HasTitle(Run(roles, calls), post.id, post.title, post.author)
    ensures TitleFrom(roles, calls, i, post)
  {
    hide Step, Run, HasTitle, WritesTitle;
    var init := calls[..|calls| - 1];
    assert init[..i] == calls[..i];
    forall j | i < j <= |calls| ensures HasTitle(Run(roles, calls[..j]), post.id, post.title, post.author) {
      if j == |calls| {
        assert calls[..j] == calls;
      } else {
        assert calls[..j] == init[..j];
      }
    }
    SameTitleWritten(roles, calls[i].call, was, post);
  }

  lemma SameBodyWritten(roles: map<string, seq<string>>, call: Call, was: Post, post: Post)
    requires was.id == post.id && was.author == post.author && was.body == post.body
    ensures WritesBody(roles, call, was) == WritesBody(roles, call, post)
  {
    hide Clean, ActiveWith, MayWrite;
  }

  lemma BodyStillStands(roles: map<string, seq<string>>, calls: seq<Timed>, i: nat, was: Post, post: Post)
    requires calls != [] && BodyFrom(roles, calls[..|calls| - 1], i, was)
    requires was.id == post.id && was.author == post.author && was.body == post.body
    requires HasBody(Run(roles, calls), post.id, post.body, post.author)
    ensures BodyFrom(roles, calls, i, post)
  {
    hide Step, Run, HasBody, WritesBody;
    var init := calls[..|calls| - 1];
    assert init[..i] == calls[..i];
    forall j | i < j <= |calls| ensures HasBody(Run(roles, calls[..j]), post.id, post.body, post.author) {
      if j == |calls| {
        assert calls[..j] == calls;
      } else {
        assert calls[..j] == init[..j];
      }
    }
    SameBodyWritten(roles, calls[i].call, was, post);
  }

  lemma SameCommentWritten(roles: map<string, seq<string>>, call: Call, was: Comment, comment: Comment)
    requires was.id == comment.id && was.author == comment.author && was.body == comment.body
    requires was.postId == comment.postId
    ensures WritesComment(roles, call, was) == WritesComment(roles, call, comment)
  {
    hide Clean, ActiveWith, MayWrite;
  }

  lemma CommentStillStands(roles: map<string, seq<string>>, calls: seq<Timed>, i: nat, was: Comment, comment: Comment)
    requires calls != [] && CommentFrom(roles, calls[..|calls| - 1], i, was)
    requires was.id == comment.id && was.author == comment.author && was.body == comment.body
    requires was.postId == comment.postId
    requires HasComment(Run(roles, calls), comment.id, comment.postId, comment.body, comment.author)
    ensures CommentFrom(roles, calls, i, comment)
  {
    hide Step, Run, HasComment, WritesComment;
    var init := calls[..|calls| - 1];
    assert init[..i] == calls[..i];
    forall j | i < j <= |calls|
      ensures HasComment(Run(roles, calls[..j]), comment.id, comment.postId, comment.body, comment.author)
    {
      if j == |calls| {
        assert calls[..j] == calls;
      } else {
        assert calls[..j] == init[..j];
      }
    }
    SameCommentWritten(roles, calls[i].call, was, comment);
  }

  lemma JustWritten(roles: map<string, seq<string>>, calls: seq<Timed>)
    requires calls != []
    ensures calls[..|calls|] == calls
    ensures Accepted(roles, calls, |calls| - 1)
      <==> Step(roles, Run(roles, calls[..|calls| - 1]), calls[|calls| - 1].call, calls[|calls| - 1].now).1.Ok?
  {
  }

  /** The title of a stored post was written by an accepted call of an active actor, allowed as
      the post's author or by an any-scope grant, and has stood since; so was its text. */
  lemma {:induction false} PostProvenance(roles: map<string, seq<string>>, calls: seq<Timed>, p: Id)
    requires p in Run(roles, calls).posts
    ensures exists i: nat :: TitleFrom(roles, calls, i, Run(roles, calls).posts[p])
    ensures exists i: nat :: BodyFrom(roles, calls, i, Run(roles, calls).posts[p])
  {
    hide Step, Clean, WritesTitle, WritesBody;
    var init := calls[..|calls| - 1];
    var last := calls[|calls| - 1];
    var b := Run(roles, init);
    var post := Run(roles, calls).posts[p];
    var wrote := Accepted(roles, calls, |init|);
    RunsKeepIndex(roles, init);
    StepWritesPost(roles, b, last.call, last.now, p);
    JustWritten(roles, calls);
    if p in b.posts {
      PostProvenance(roles, init, p);
    }
    if wrote && WritesTitle(roles, last.call, post) {
      assert TitleFrom(roles, calls, |init|, post);
    } else {
      var i: nat :| TitleFrom(roles, init, i, b.posts[p]);
      TitleStillStands(roles, calls, i, b.posts[p], post);
    }
    if wrote && WritesBody(roles, last.call, post) {
      assert BodyFrom(roles, calls, |init|, post);
    } else {
      var i: nat :| BodyFrom(roles, init, i, b.posts[p]);
      BodyStillStands(roles, calls, i, b.posts[p], post);
    }
  }

  /** The same for every stored comment. */
  lemma {:induction false} CommentProvenance(roles: map<string, seq<string>>, calls: seq<Timed>, c: Id)
    requires c in Run(roles, calls).comments
    ensures exists i: nat :: CommentFrom(roles, calls, i, Run(roles, calls).comments[c])
  {
    hide Step, Clean, WritesComment;
    var init := calls[..|calls| - 1];
    var last := calls[|calls| - 1];
    var b := Run(roles, init);
    var comment := Run(roles, calls).comments[c];
    RunsKeepIndex(roles, init);
    StepWritesComment(roles, b, last.call, last.now, c);
    JustWritten(roles, calls);
    if Accepted(roles, calls, |init|) && WritesComment(roles, last.call, comment) {
      assert CommentFrom(roles, calls, |init|, comment);
    } else {
      CommentProvenance(roles, init, c);
      var i: nat :| CommentFrom(roles, init, i, b.comments[c]);
      CommentStillStands(roles, calls, i, b.comments[c], comment);
    }
  }
}

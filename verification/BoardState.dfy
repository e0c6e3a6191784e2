/** What each operation of the board storage does to its contents, and the properties of the
    comment index (demos/board_rbac/storage.py). */
module BoardState {
  import opened Prelude

  /** Post and comment ids; only equality and their total order matter. */
  type Id = nat

  type Time = int

  datatype Post = Post(id: Id, author: string, title: string, body: string, createdAt: Time, updatedAt: Time)

  datatype Comment = Comment(id: Id, postId: Id, author: string, body: string, createdAt: Time, updatedAt: Time)

  datatype Failure = NotFound | Invalid | NotAuthenticated | NotAuthorized

  datatype Board = Board(posts: map<Id, Post>, comments: map<Id, Comment>, idsByPost: map<Id, set<Id>>)

  const EMPTY := Board(map[], map[], map[])

  function CreatePost(b: Board, post: Post): (Board, Result<Post, Failure>) {
    if post.id in b.posts then (b, Err(Invalid))
    else
      var ids := if post.id in b.idsByPost then b.idsByPost else b.idsByPost[post.id := {}];
      (b.(posts := b.posts[post.id := post], idsByPost := ids), Ok(post))
  }

  function UpdatePost(b: Board, post: Post, now: Time): (Board, Result<Post, Failure>) {
    if post.id !in b.posts then (b, Err(NotFound))
    else if post.author != b.posts[post.id].author then (b, Err(Invalid))
    else
      var saved := post.(createdAt := b.posts[post.id].createdAt, updatedAt := now);
      (b.(posts := b.posts[saved.id := saved]), Ok(saved))
  }

  function DeletePost(b: Board, id: Id): (Board, Result<(), Failure>) {
    if id !in b.posts then (b, Err(NotFound))
    else
      var gone := if id in b.idsByPost then b.idsByPost[id] else {};
      (Board(b.posts - {id}, b.comments - gone, b.idsByPost - {id}), Ok(()))
  }

  function CreateComment(b: Board, comment: Comment): (Board, Result<Comment, Failure>) {
    if comment.id in b.comments then (b, Err(Invalid))
    else if comment.postId !in b.posts then (b, Err(NotFound))
    else
      var ids := if comment.postId in b.idsByPost then b.idsByPost[comment.postId] else {};
      (b.(comments := b.comments[comment.id := comment],
          idsByPost := b.idsByPost[comment.postId := ids + {comment.id}]), Ok(comment))
  }

  function UpdateComment(b: Board, comment: Comment, now: Time): (Board, Result<Comment, Failure>) {
    if comment.id !in b.comments then (b, Err(NotFound))
    else if comment.postId != b.comments[comment.id].postId then (b, Err(Invalid))
    else if comment.author != b.comments[comment.id].author then (b, Err(Invalid))
    else
      var saved := comment.(createdAt := b.comments[comment.id].createdAt, updatedAt := now);
      (b.(comments := b.comments[saved.id := saved]), Ok(saved))
  }

  function DeleteComment(b: Board, id: Id): (Board, Result<(), Failure>) {
    if id !in b.comments then (b, Err(NotFound))
    else
      var p := b.comments[id].postId;
      var ids := if p in b.idsByPost then b.idsByPost[p := b.idsByPost[p] - {id}] else b.idsByPost;
      (b.(comments := b.comments - {id}, idsByPost := ids), Ok(()))
  }

  // ----- The index -----

  /** The index lists, for exactly the stored posts, exactly the stored comments on them. */
  ghost predicate Indexed(b: Board) {
    && b.idsByPost.Keys == b.posts.Keys
    && (forall p :: p in b.posts ==> b.posts[p].id == p)
    && (forall c :: c in b.comments ==> b.comments[c].id == c && b.comments[c].postId in b.posts)
    && (forall p, c :: p in b.posts ==> (c in b.idsByPost[p] <==> c in b.comments && b.comments[c].postId == p))
  }

  lemma PostWritesKeepIndex(b: Board, post: Post, now: Time)
    requires Indexed(b)
    ensures Indexed(CreatePost(b, post).0) && Indexed(UpdatePost(b, post, now).0)
  {
  }

  lemma CommentWritesKeepIndex(b: Board, comment: Comment, now: Time)
    requires Indexed(b)
    ensures Indexed(CreateComment(b, comment).0) && Indexed(UpdateComment(b, comment, now).0)
  {
  }

  lemma DeletesKeepIndex(b: Board, id: Id)
    requires Indexed(b)
    ensures Indexed(DeletePost(b, id).0) && Indexed(DeleteComment(b, id).0)
  {
  }

  /** Deleting a post removes exactly the post and the comments on it, as filtering would. */
  lemma DeletePostCascades(b: Board, id: Id)
    requires Indexed(b) && id in b.posts
    ensures var after := DeletePost(b, id).0;
      && after.posts == (map p | p in b.posts && p != id :: b.posts[p])
      && after.comments == (map c | c in b.comments && b.comments[c].postId != id :: b.comments[c])
  {
  }

  /** Authors, creation times and the post of a comment never change while an id lives. */
  predicate SameOrigins(before: Board, after: Board) {
    && (forall p :: p in before.posts && p in after.posts ==>
          after.posts[p].author == before.posts[p].author && after.posts[p].createdAt == before.posts[p].createdAt)
    && (forall c :: c in before.comments && c in after.comments ==>
          && after.comments[c].author == before.comments[c].author
          && after.comments[c].createdAt == before.comments[c].createdAt
          && after.comments[c].postId == before.comments[c].postId)
  }

  lemma PostWritesKeepOrigins(b: Board, post: Post, now: Time)
    ensures SameOrigins(b, CreatePost(b, post).0) && SameOrigins(b, UpdatePost(b, post, now).0)
  {
  }

  lemma CommentWritesKeepOrigins(b: Board, comment: Comment, now: Time)
    ensures SameOrigins(b, CreateComment(b, comment).0) && SameOrigins(b, UpdateComment(b, comment, now).0)
  {
  }

  lemma DeletesKeepOrigins(b: Board, id: Id)
    ensures SameOrigins(b, DeletePost(b, id).0) && SameOrigins(b, DeleteComment(b, id).0)
  {
  }

  // ----- Listing -----

  predicate Earlier(a: Comment, b: Comment) {
    a.createdAt < b.createdAt || (a.createdAt == b.createdAt && a.id < b.id)
  }

  predicate Ascending(s: seq<Comment>) {
    forall i, j :: 0 <= i < j < |s| ==> Earlier(s[i], s[j])
  }

  function OnPost(b: Board, post: Id): set<Comment> {
    set c | c in b.comments && b.comments[c].postId == post :: b.comments[c]
  }

  /** The comments on a post in ascending order, each once. */
  ghost predicate Listing(s: seq<Comment>, all: set<Comment>) {
    Ascending(s) && forall c :: c in all <==> c in s
  }

  /** Filter-then-sort has one answer, so the order in which a set is walked does not show. */
  lemma {:induction false} ListingIsUnique(s: seq<Comment>, t: seq<Comment>, all: set<Comment>)
    requires Listing(s, all) && Listing(t, all)
    ensures s == t
  {
    if s != [] {
      DropFirst(s, all);
    }
    if t != [] {
      DropFirst(t, all);
    }
    if s != [] && t != [] {
      assert s[0] == t[0];
      ListingIsUnique(s[1..], t[1..], all - {s[0]});
      assert s == [s[0]] + s[1..] && t == [t[0]] + t[1..];
    }
  }

  lemma DropFirst(s: seq<Comment>, all: set<Comment>)
    requires Listing(s, all) && s != []
    ensures Listing(s[1..], all - {s[0]}) && s[0] in all
  {
    assert s == [s[0]] + s[1..];
  }

  function InsertSorted(s: seq<Comment>, c: Comment): seq<Comment> {
    if s == [] || Earlier(c, s[0]) then [c] + s else [s[0]] + InsertSorted(s[1..], c)
  }

  lemma {:induction false} InsertIsListing(s: seq<Comment>, c: Comment, all: set<Comment>)
    requires Listing(s, all) && forall d :: d in all ==> d.id != c.id
    ensures Listing(InsertSorted(s, c), all + {c})
  {
    if s != [] && !Earlier(c, s[0]) {
      DropFirst(s, all);
      InsertIsListing(s[1..], c, all - {s[0]});
      var rest := InsertSorted(s[1..], c);
      assert Earlier(s[0], c);
      forall i | 0 <= i < |rest| ensures Earlier(s[0], rest[i]) {
        assert rest[i] in rest;
        assert rest[i] != c ==> rest[i] in s[1..];
      }
      assert [s[0]] + rest == InsertSorted(s, c);
      assert all + {c} == {s[0]} + (all - {s[0]} + {c});
    } else if s != [] {
      assert InsertSorted(s, c) == [c] + s;
    }
  }
}

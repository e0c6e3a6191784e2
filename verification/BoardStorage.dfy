/** The in-memory board storage (demos/board_rbac/storage.py). */
module BoardStorage {
  import opened Prelude
  import opened BoardState

  /** `MemoryBoardStorage`. */
  class MemoryBoardStorage {
    var posts: map<Id, Post>
    var comments: map<Id, Comment>
    var idsByPost: map<Id, set<Id>>

    ghost function Contents(): Board
      reads this
    {
      Board(posts, comments, idsByPost)
    }

    ghost predicate Valid()
      reads this
    {
      Indexed(Contents())
    }

    constructor ()
      ensures Contents() == EMPTY && Valid()
    {
      posts, comments, idsByPost := map[], map[], map[];
    }

    method CreatePost(post: Post) returns (r: Result<Post, Failure>)
      requires Valid()
      modifies this
      ensures Valid() && (Contents(), r) == BoardState.CreatePost(old(Contents()), post)
    {
      PostWritesKeepIndex(Contents(), post, 0);
      if post.id in posts {
        return Err(Invalid);
      }
      posts := posts[post.id := post];
      if post.id !in idsByPost {
        idsByPost := idsByPost[post.id := {}];
      }
      return Ok(post);
    }

    method UpdatePost(post: Post, now: Time) returns (r: Result<Post, Failure>)
      requires Valid()
      modifies this
      ensures Valid() && (Contents(), r) == BoardState.UpdatePost(old(Contents()), post, now)
    {
      PostWritesKeepIndex(Contents(), post, now);
      if post.id !in posts {
        return Err(NotFound);
      }
      var existing := posts[post.id];
      if post.author != existing.author {
        return Err(Invalid);
      }
      var saved := post.(createdAt := existing.createdAt, updatedAt := now);
      posts := posts[saved.id := saved];
      return Ok(saved);
    }

    method DeletePost(id: Id) returns (r: Result<(), Failure>)
      requires Valid()
      modifies this
      ensures Valid() && (Contents(), r) == BoardState.DeletePost(old(Contents()), id)
    {
      DeletesKeepIndex(Contents(), id);
      if id !in posts {
        return Err(NotFound);
      }
      posts := posts - {id};
      var gone := if id in idsByPost then idsByPost[id] else {};
      idsByPost := idsByPost - {id};
      var todo := gone;
      ghost var before := comments;
      while todo != {}
        invariant todo <= gone && comments.Keys == before.Keys - (gone - todo)
        invariant forall c :: c in comments ==> comments[c] == before[c]
        invariant posts == old(posts) - {id} && idsByPost == old(idsByPost) - {id}
      {
        var c :| c in todo;
        comments := comments - {c};
        todo := todo - {c};
      }
      assert comments == before - gone;
      return Ok(());
    }

    method CreateComment(comment: Comment) returns (r: Result<Comment, Failure>)
      requires Valid()
      modifies this
      ensures Valid() && (Contents(), r) == BoardState.CreateComment(old(Contents()), comment)
    {
      CommentWritesKeepIndex(Contents(), comment, 0);
      if comment.id in comments {
        return Err(Invalid);
      }
      if comment.postId !in posts {
        return Err(NotFound);
      }
      comments := comments[comment.id := comment];
      var ids := if comment.postId in idsByPost then idsByPost[comment.postId] else {};
      idsByPost := idsByPost[comment.postId := ids + {comment.id}];
      return Ok(comment);
    }

    method ListComments(post: Id) returns (r: Result<seq<Comment>, Failure>)
      requires Valid()
      ensures r.Err? <==> post !in posts
      ensures r.Err? ==> r.error == NotFound
      ensures r.Ok? ==> Listing(r.value, OnPost(Contents(), post))
    {
      if post !in posts {
        return Err(NotFound);
      }
      var ids := if post in idsByPost then idsByPost[post] else {};
      var sorted: seq<Comment> := [];
      var todo := ids;
      ghost var done: set<Comment> := {};
      while todo != {}
        invariant todo <= ids
        invariant done == set c | c in ids - todo && c in comments :: comments[c]
        invariant Listing(sorted, done)
      {
        var c :| c in todo;
        if c in comments {
          assert forall d :: d in done ==> d.id != comments[c].id;
          InsertIsListing(sorted, comments[c], done);
          sorted := InsertSorted(sorted, comments[c]);
          done := done + {comments[c]};
        }
        todo := todo - {c};
      }
      assert done == OnPost(Contents(), post);
      return Ok(sorted);
    }

    method UpdateComment(comment: Comment, now: Time) returns (r: Result<Comment, Failure>)
      requires Valid()
      modifies this
      ensures Valid() && (Contents(), r) == BoardState.UpdateComment(old(Contents()), comment, now)
    {
      CommentWritesKeepIndex(Contents(), comment, now);
      if comment.id !in comments {
        return Err(NotFound);
      }
      var existing := comments[comment.id];
      if comment.postId != existing.postId {
        return Err(Invalid);
      }
      if comment.author != existing.author {
        return Err(Invalid);
      }
      var saved := comment.(createdAt := existing.createdAt, updatedAt := now);
      comments := comments[saved.id := saved];
      return Ok(saved);
    }

    method DeleteComment(id: Id) returns (r: Result<(), Failure>)
      requires Valid()
      modifies this
      ensures Valid() && (Contents(), r) == BoardState.DeleteComment(old(Contents()), id)
    {
      DeletesKeepIndex(Contents(), id);
      if id !in comments {
        return Err(NotFound);
      }
      var comment := comments[id];
      comments := comments - {id};
      if comment.postId in idsByPost {
        idsByPost := idsByPost[comment.postId := idsByPost[comment.postId] - {id}];
      }
      return Ok(());
    }
  }
}

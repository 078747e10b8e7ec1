/**
 * The engagement services as one mutable store: each method runs the
 * service's guards on the current tables and, when they pass, moves the
 * tables to the state its transition function describes. Every method
 * keeps `DbOk`.
 */
module SocialStore {

  import opened Outcomes
  import opened Tables
  import opened SocialDb
  import Likes
  import Comments
  import Posts
  import Follows
  import Marks

  class Store {
    var users: map<Id, User>
    var posts: map<Id, Post>
    var likes: map<Id, Like>
    var comments: map<Id, Comment>
    var follows: map<Id, Follow>
    var ledger: map<Id, UserPoint>
    var saves: map<Id, Mark>
    var hides: map<Id, Mark>
    var reports: map<Id, Report>
    var nextId: Id

    /** The tables as one value. */
    function State(): Db
      reads this
    {
      Db(users, posts, likes, comments, follows, ledger, saves, hides, reports, nextId)
    }

    ghost predicate Valid()
      reads this
    {
      DbOk(State())
    }

    /** A store holding the given users and nothing else. */
    constructor (users: map<Id, User>)
      ensures Valid()
      ensures State() == Db(users, map[], map[], map[], map[], map[], map[], map[], map[], 0)
    {
      this.users := users;
      posts, likes, comments, follows, ledger := map[], map[], map[], map[], map[];
      saves, hides, reports, nextId := map[], map[], map[], 0;
    }

    /** The write every successful operation ends with: all tables at once, as one transaction. */
    method Commit(db: Db)
      requires DbOk(db)
      modifies this
      ensures State() == db && Valid()
    {
      users, posts, likes, comments, follows := db.users, db.posts, db.likes, db.comments, db.follows;
      ledger, saves, hides, reports, nextId := db.ledger, db.saves, db.hides, db.reports, db.nextId;
    }

    // -------------------------------------------------------------------------
    // Likes

    /** createLike: returns the like's id. */
    method CreateLike(u: Id, p: Id, t: PostType, now: int) returns (r: Outcome<Id>)
      requires Valid()
      modifies this
      ensures Valid()
      ensures var db := old(State()); var e := Likes.LikeCheck(db, u, p, t);
        if e.Some? then r == e.value && State() == db
        else r == Ok(db.nextId) && State() == Likes.Liked(db, u, p, t, now)
    {
      var db := State();
      var e := Likes.LikeCheck(db, u, p, t);
      if e.Some? {
        return e.value;
      }
      Likes.LikeKeepsOk(db, u, p, t, now);
      r := Ok(db.nextId);
      Commit(Likes.Liked(db, u, p, t, now));
    }

    /** unlike: returns the post's id. */
    method Unlike(u: Id, p: Id, t: PostType) returns (r: Outcome<Id>)
      requires Valid()
      modifies this
      ensures Valid()
      ensures var db := old(State()); var e := Likes.UnlikeCheck(db, u, p, t);
        if e.Some? then r == e.value && State() == db
        else r == Ok(p) && State() == Likes.Unliked(db, u, p, t)
    {
      var db := State();
      var e := Likes.UnlikeCheck(db, u, p, t);
      if e.Some? {
        return e.value;
      }
      Likes.UnlikeKeepsOk(db, u, p, t);
      r := Ok(p);
      Commit(Likes.Unliked(db, u, p, t));
    }

    // -------------------------------------------------------------------------
    // Comments

    /** createComment: returns the comment's id. */
    method CreateComment(u: Id, dto: Comments.CreateCommentDto, now: int) returns (r: Outcome<Id>)
      requires Valid()
      modifies this
      ensures Valid()
      ensures var db := old(State()); var e := Comments.CreateCheck(db, u, dto);
        if e.Some? then r == e.value && State() == db
        else r == Ok(db.nextId) && State() == Comments.Commented(db, u, dto, now)
    {
      var db := State();
      var e := Comments.CreateCheck(db, u, dto);
      if e.Some? {
        return e.value;
      }
      Comments.CreateKeepsOk(db, u, dto, now);
      r := Ok(db.nextId);
      Commit(Comments.Commented(db, u, dto, now));
    }

    /** updateComment: returns the comment's id. */
    method UpdateComment(u: Id, k: Id, content: string) returns (r: Outcome<Id>)
      requires Valid()
      modifies this
      ensures Valid()
      ensures var db := old(State()); var e := Comments.UpdateCheck(db, u, k, content);
        if e.Some? then r == e.value && State() == db
        else r == Ok(k) && State() == Comments.Updated(db, k, content)
    {
      var db := State();
      var e := Comments.UpdateCheck(db, u, k, content);
      if e.Some? {
        return e.value;
      }
      Comments.UpdateKeepsOk(db, k, content);
      r := Ok(k);
      Commit(Comments.Updated(db, k, content));
    }

    /** deleteComment. */
    method DeleteComment(u: Id, k: Id) returns (r: Outcome<string>)
      requires Valid()
      modifies this
      ensures Valid()
      ensures var db := old(State()); var e := Comments.DeleteCheck(db, u, k);
        if e.Some? then r == e.value && State() == db
        else r == Ok(Comments.DeletedMessage) && State() == Comments.Deleted(db, k)
    {
      var db := State();
      var e := Comments.DeleteCheck(db, u, k);
      if e.Some? {
        return e.value;
      }
      Comments.DeleteKeepsOk(db, k);
      r := Ok(Comments.DeletedMessage);
      Commit(Comments.Deleted(db, k));
    }

    // -------------------------------------------------------------------------
    // Posts

    /** createPost. */
    method CreatePost(u: Id, dto: Posts.CreatePostDto, now: int) returns (r: Outcome<Posts.CreatePostResult>)
      requires Valid()
      modifies this
      ensures Valid()
      ensures var db := old(State()); var e := Posts.CreateCheck(db, u, dto);
        if e.Some? then r == e.value.PropagateFailure() && State() == db
        else r == Ok(Posts.CreateResult(db, u, dto)) && State() == Posts.Created(db, u, dto, now)
      ensures r.Ok? ==> r.value.userTotalPoints == users[u].totalPoints
    {
      var db := State();
      var e := Posts.CreateCheck(db, u, dto);
      if e.Some? {
        return e.value.PropagateFailure();
      }
      Posts.CreateKeepsOk(db, u, dto, now);
      r := Ok(Posts.CreateResult(db, u, dto));
      Commit(Posts.Created(db, u, dto, now));
    }

    /** updatePost: returns the updated row. */
    method UpdatePost(u: Id, k: Id, dto: Posts.UpdatePostDto) returns (r: Outcome<Post>)
      requires Valid()
      modifies this
      ensures Valid()
      ensures var db := old(State()); var e := Posts.UpdateCheck(db, u, k, dto);
        if e.Some? then r == e.value && State() == db
        else r == Ok(Posts.Apply(db.posts[k], dto)) && State() == Posts.Updated(db, k, dto)
    {
      var db := State();
      var e := Posts.UpdateCheck(db, u, k, dto);
      if e.Some? {
        return e.value;
      }
      Posts.UpdateKeepsOk(db, k, dto);
      r := Ok(Posts.Apply(db.posts[k], dto));
      Commit(Posts.Updated(db, k, dto));
    }

    /** deletePost: returns the deleted post's id. */
    method DeletePost(u: Id, k: Id) returns (r: Outcome<Id>)
      requires Valid()
      modifies this
      ensures Valid()
      ensures var db := old(State()); var e := Posts.DeleteCheck(db, u, k);
        if e.Some? then r == e.value && State() == db
        else r == Ok(k) && State() == Posts.Deleted(db, k)
    {
      var db := State();
      var e := Posts.DeleteCheck(db, u, k);
      if e.Some? {
        return e.value;
      }
      Posts.DeleteKeepsOk(db, k);
      r := Ok(k);
      Commit(Posts.Deleted(db, k));
    }

    // -------------------------------------------------------------------------
    // Follows

    /** followUser: returns the follow's id. */
    method FollowUser(f: Id, t: Id, now: int) returns (r: Outcome<Id>)
      requires Valid()
      modifies this
      ensures Valid()
      ensures var db := old(State()); var e := Follows.FollowCheck(db, f, t);
        if e.Some? then r == e.value && State() == db
        else r == Ok(db.nextId) && State() == Follows.Followed(db, f, t, now)
    {
      var db := State();
      var e := Follows.FollowCheck(db, f, t);
      if e.Some? {
        return e.value;
      }
      Follows.FollowKeepsOk(db, f, t, now);
      r := Ok(db.nextId);
      Commit(Follows.Followed(db, f, t, now));
    }

    /** unfollowUser. */
    method UnfollowUser(f: Id, t: Id) returns (r: Outcome<bool>)
      requires Valid()
      modifies this
      ensures Valid()
      ensures var db := old(State()); var e := Follows.UnfollowCheck(db, f, t);
        if e.Some? then r == e.value && State() == db
        else r == Ok(true) && State() == Follows.Unfollowed(db, f, t)
    {
      var db := State();
      var e := Follows.UnfollowCheck(db, f, t);
      if e.Some? {
        return e.value;
      }
      Follows.UnfollowKeepsOk(db, f, t);
      r := Ok(true);
      Commit(Follows.Unfollowed(db, f, t));
    }

    // -------------------------------------------------------------------------
    // Saved and hidden posts, reports

    /** savePost / hidePost: returns the row's id. */
    method MarkPost(kind: Marks.MarkKind, u: Id, p: Id, now: int) returns (r: Outcome<Id>)
      requires Valid()
      modifies this
      ensures Valid()
      ensures var db := old(State()); var e := Marks.MarkCheck(db, kind, u, p);
        if e.Some? then r == e.value && State() == db
        else r == Ok(db.nextId) && State() == Marks.Marked(db, kind, u, p, now)
    {
      var db := State();
      var e := Marks.MarkCheck(db, kind, u, p);
      if e.Some? {
        return e.value;
      }
      Marks.MarkKeepsOk(db, kind, u, p, now);
      r := Ok(db.nextId);
      Commit(Marks.Marked(db, kind, u, p, now));
    }

    /** unsavePost / unhidePost. */
    method UnmarkPost(kind: Marks.MarkKind, u: Id, p: Id) returns (r: Outcome<bool>)
      requires Valid()
      modifies this
      ensures Valid()
      ensures var db := old(State()); var e := Marks.UnmarkCheck(db, kind, u, p);
        if e.Some? then r == e.value && State() == db
        else r == Ok(true) && State() == Marks.Unmarked(db, kind, u, p)
    {
      var db := State();
      var e := Marks.UnmarkCheck(db, kind, u, p);
      if e.Some? {
        return e.value;
      }
      Marks.UnmarkKeepsOk(db, kind, u, p);
      r := Ok(true);
      Commit(Marks.Unmarked(db, kind, u, p));
    }

    /** createReport: returns the report's id. */
    method CreateReport(u: Id, dto: Marks.ReportDto, now: int) returns (r: Outcome<Id>)
      requires Valid()
      modifies this
      ensures Valid()
      ensures var db := old(State()); var e := Marks.ReportCheck(db, u, dto);
        if e.Some? then r == e.value && State() == db
        else r == Ok(db.nextId) && State() == Marks.Reported(db, u, dto, now)
    {
      var db := State();
      var e := Marks.ReportCheck(db, u, dto);
      if e.Some? {
        return e.value;
      }
      Marks.ReportKeepsOk(db, u, dto, now);
      r := Ok(db.nextId);
      Commit(Marks.Reported(db, u, dto, now));
    }

    /** removeReport. */
    method RemoveReport(u: Id, target: Id, targetType: string) returns (r: Outcome<bool>)
      requires Valid()
      modifies this
      ensures Valid()
      ensures var db := old(State()); var e := Marks.RemoveCheck(db, u, target, targetType);
        if e.Some? then r == e.value && State() == db
        else r == Ok(true) && State() == Marks.Removed(db, u, target, targetType)
    {
      var db := State();
      var e := Marks.RemoveCheck(db, u, target, targetType);
      if e.Some? {
        return e.value;
      }
      Marks.RemoveKeepsOk(db, u, target, targetType);
      r := Ok(true);
      Commit(Marks.Removed(db, u, target, targetType));
    }
  }
}

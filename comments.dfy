/**
 * Comments: a comment (or a reply to a comment of the same post) credits
 * the post's author one point and one comment; an edit stores the trimmed
 * text; a delete takes the comment and the post's counter back but leaves
 * the author's points alone.
 */
module Comments {

  import opened Outcomes
  import opened Tables
  import opened SocialDb
  import Text
  import Listing
  import Paging

  const CommentRewardPoints: int := 1

  datatype CreateCommentDto = CreateCommentDto(postId: Id, postType: PostType, content: string, parentId: Option<Id>)

  /** The guards of createComment, in the order it runs them. */
  function CreateCheck(db: Db, u: Id, dto: CreateCommentDto): (err: Option<Outcome<Id>>)
    ensures err.Some? ==> err.value.IsFailure()
    ensures err.None? <==> (u in db.users && dto.postId in db.posts
      && (dto.parentId.Some? ==> dto.parentId.value in db.comments && db.comments[dto.parentId.value].postId == dto.postId))
    ensures u !in db.users ==> err == Some(NotFound("User not found"))
    ensures u in db.users && dto.postId !in db.posts ==> err == Some(NotFound("Post not found"))
    ensures (u in db.users && dto.postId in db.posts && dto.parentId.Some? && dto.parentId.value !in db.comments)
      ==> err == Some(NotFound("Parent comment not found"))
    ensures (u in db.users && dto.postId in db.posts && dto.parentId.Some? && dto.parentId.value in db.comments
      && db.comments[dto.parentId.value].postId != dto.postId)
      ==> err == Some(BadRequest("Parent comment does not belong to this post"))
  {
    if u !in db.users then Some(NotFound("User not found"))
    else if dto.postId !in db.posts then Some(NotFound("Post not found"))
    else if dto.parentId.Some? && dto.parentId.value !in db.comments then Some(NotFound("Parent comment not found"))
    else if dto.parentId.Some? && db.comments[dto.parentId.value].postId != dto.postId then
      Some(BadRequest("Parent comment does not belong to this post"))
    else None
  }

  /**
   * The tables after createComment: the comment (id `nextId`), `post.comment`
   * up by one, a ledger row (id `nextId + 1`) for the post's author, and the
   * author's `totalPoints` and `commentCount` up by one.
   */
  function Commented(db: Db, u: Id, dto: CreateCommentDto, now: int): Db
    requires dto.postId in db.posts && db.posts[dto.postId].userId in db.users
  {
    var n := db.nextId;
    var p := dto.postId;
    var author := db.posts[p].userId;
    db.(comments := db.comments[n := Comment(u, p, dto.postType, dto.content, dto.parentId, now)],
        posts := db.posts[p := db.posts[p].(comment := db.posts[p].comment + 1)],
        ledger := db.ledger[n + 1 := UserPoint(author, Some(p), ForComment(n), CommentRewardPoints)],
        users := db.users[author := db.users[author].(totalPoints := db.users[author].totalPoints + CommentRewardPoints,
                                                      commentCount := db.users[author].commentCount + 1)],
        nextId := n + 2)
  }

  /** updateComment's guards: blank text first, before the comment is looked up. */
  function UpdateCheck(db: Db, u: Id, k: Id, content: string): (err: Option<Outcome<Id>>)
    ensures err.Some? ==> err.value.IsFailure()
    ensures err.None? <==> (!Text.IsBlank(content) && k in db.comments && db.comments[k].userId == u)
    ensures Text.IsBlank(content) ==> err == Some(BadRequest("Content is required"))
    ensures !Text.IsBlank(content) && k !in db.comments ==> err == Some(NotFound("Comment not found"))
    ensures (!Text.IsBlank(content) && k in db.comments && db.comments[k].userId != u)
      ==> err == Some(Forbidden("You are not allowed to update this comment"))
  {
    if Text.IsBlank(content) then Some(BadRequest("Content is required"))
    else if k !in db.comments then Some(NotFound("Comment not found"))
    else if db.comments[k].userId != u then Some(Forbidden("You are not allowed to update this comment"))
    else None
  }

  /** The tables after updateComment: only the comment's text, now trimmed. */
  function Updated(db: Db, k: Id, content: string): Db
    requires k in db.comments
  {
    db.(comments := db.comments[k := db.comments[k].(content := Text.Trim(content))])
  }

  /**
   * deleteComment's guards. The delete and the counter update run as one
   * batch; when the post is gone the update fails and the batch is rolled
   * back, which surfaces as an internal error.
   */
  function DeleteCheck(db: Db, u: Id, k: Id): (err: Option<Outcome<string>>)
    ensures err.Some? ==> err.value.IsFailure()
    ensures err.None? <==> (k in db.comments && db.comments[k].userId == u && db.comments[k].postId in db.posts)
    ensures k !in db.comments ==> err == Some(NotFound("Comment not found"))
    ensures (k in db.comments && db.comments[k].userId != u)
      ==> err == Some(Forbidden("You do not have permission to delete this comment"))
  {
    if k !in db.comments then Some(NotFound("Comment not found"))
    else if db.comments[k].userId != u then Some(Forbidden("You do not have permission to delete this comment"))
    else if db.comments[k].postId !in db.posts then Some(Internal("Record to update not found"))
    else None
  }

  const DeletedMessage := "Comment deleted successfully"

  /** The tables after deleteComment: the comment gone and `post.comment` down by one. */
  function Deleted(db: Db, k: Id): Db
    requires k in db.comments && db.comments[k].postId in db.posts
  {
    var p := db.comments[k].postId;
    db.(comments := db.comments - {k},
        posts := db.posts[p := db.posts[p].(comment := db.posts[p].comment - 1)])
  }

  // ---------------------------------------------------------------------------
  // The invariant is kept

  lemma CreateShape(db: Db, u: Id, dto: CreateCommentDto, now: int)
    requires ShapeOk(db) && dto.postId in db.posts
    ensures ShapeOk(Commented(db, u, dto, now))
  {
  }

  lemma CreateCounters(db: Db, u: Id, dto: CreateCommentDto, now: int)
    requires CountersOk(db.posts, db.likes, db.comments) && Bounded(db.comments, db.nextId)
    requires dto.postId in db.posts && db.posts[dto.postId].userId in db.users
    ensures var db' := Commented(db, u, dto, now); CountersOk(db'.posts, db'.likes, db'.comments)
  {
    CommentAdded(db.posts, db.likes, db.comments, db.nextId, Comment(u, dto.postId, dto.postType, dto.content, dto.parentId, now));
  }

  lemma CreateKeepsOk(db: Db, u: Id, dto: CreateCommentDto, now: int)
    requires DbOk(db) && dto.postId in db.posts
    ensures DbOk(Commented(db, u, dto, now))
  {
    CreateShape(db, u, dto, now);
    CreateCounters(db, u, dto, now);
  }

  lemma UpdateKeepsOk(db: Db, k: Id, content: string)
    requires DbOk(db) && k in db.comments
    ensures DbOk(Updated(db, k, content))
  {
    CommentEdited(db.posts, db.likes, db.comments, k, Text.Trim(content));
  }

  lemma DeleteCounters(db: Db, k: Id)
    requires CountersOk(db.posts, db.likes, db.comments) && k in db.comments && db.comments[k].postId in db.posts
    ensures var db' := Deleted(db, k); CountersOk(db'.posts, db'.likes, db'.comments)
  {
    CommentRemoved(db.posts, db.likes, db.comments, k);
  }

  lemma DeleteShape(db: Db, k: Id)
    requires ShapeOk(db) && RefsOk(db) && k in db.comments && db.comments[k].postId in db.posts
    ensures ShapeOk(Deleted(db, k)) && RefsOk(Deleted(db, k))
  {
  }

  lemma DeleteKeepsOk(db: Db, k: Id)
    requires DbOk(db) && k in db.comments && db.comments[k].postId in db.posts
    ensures DbOk(Deleted(db, k))
  {
    DeleteShape(db, k);
    DeleteCounters(db, k);
  }

  // ---------------------------------------------------------------------------
  // Points, edits and deletes

  /** A comment credits exactly one point to the post's author, in the user row and in the ledger alike. */
  lemma CreateCredits(db: Db, u: Id, dto: CreateCommentDto, now: int)
    requires Bounded(db.ledger, db.nextId) && dto.postId in db.posts && db.posts[dto.postId].userId in db.users
    ensures var db' := Commented(db, u, dto, now);
      Credited(db, db', db.posts[dto.postId].userId, CommentRewardPoints) && LedgerTracks(db, db')
  {
    var db' := Commented(db, u, dto, now);
    var n := db.nextId;
    var author := db.posts[dto.postId].userId;
    forall w ensures Points(db'.ledger, db'.nextId, w) == Points(db.ledger, n, w) + (if w == author then 1 else 0) {
      PointsBeyond(db.ledger, n, n + 1, w);
      Append(db.ledger, n + 1, db'.ledger[n + 1], w);
    }
    TracksByCredit(db, db', author, CommentRewardPoints);
  }

  /**
   * An edit stores text that is neither blank nor padded, so repeating the
   * edit with the stored text changes nothing.
   */
  lemma UpdateStoresTrimmed(db: Db, u: Id, k: Id, content: string)
    requires UpdateCheck(db, u, k, content).None?
    ensures var db' := Updated(db, k, content);
      var stored := db'.comments[k].content;
      stored == Text.Trim(content) && !Text.IsBlank(stored)
      && UpdateCheck(db', u, k, stored).None? && Updated(db', k, stored) == db'
  {
    Text.TrimIdempotent(content);
  }

  /**
   * Creating a comment and deleting it gives back the comment table and
   * the post's counter, but the author keeps the point, the comment count
   * and the ledger row.
   */
  lemma CreateThenDelete(db: Db, u: Id, dto: CreateCommentDto, now: int)
    requires Bounded(db.comments, db.nextId) && dto.postId in db.posts && db.posts[dto.postId].userId in db.users
    ensures var db' := Commented(db, u, dto, now);
      DeleteCheck(db', u, db.nextId).None?
      && var db'' := Deleted(db', db.nextId);
      db''.comments == db.comments && db''.posts == db.posts
      && db''.users == db'.users && db''.ledger == db'.ledger
      && db''.users[db.posts[dto.postId].userId].totalPoints
         == db.users[db.posts[dto.postId].userId].totalPoints + CommentRewardPoints
  {
    var db' := Commented(db, u, dto, now);
    assert (db.comments[db.nextId := db'.comments[db.nextId]]) - {db.nextId} == db.comments;
  }

  // ---------------------------------------------------------------------------
  // Queries

  /** The query string of both listings; the DTO allows pages from 1 and at most 50 rows. */
  datatype CommentsQuery = CommentsQuery(page: Option<nat>, limit: Option<nat>, sort: Option<string>, parentId: Option<Id>)

  predicate QueryOk(q: CommentsQuery)
  {
    (q.page.Some? ==> q.page.value >= 1) && (q.limit.Some? ==> 1 <= q.limit.value <= 50)
  }

  function PageOf(q: CommentsQuery): nat { q.page.GetOr(1) }
  function LimitOf(q: CommentsQuery): nat { q.limit.GetOr(10) }

  /** `sort ?? 'new'`: only `'old'` lists oldest first. */
  function NewestFirst(q: CommentsQuery): bool { q.sort != Some("old") }

  /** getPostComments' `where`: a given parent's replies, else the top-level comments only. */
  function OnPost(p: Id, parentId: Option<Id>): Comment -> bool
  {
    (c: Comment) => c.postId == p && c.parentId == parentId
  }

  /** getUserComments' `where`: the parent filter applies only when given. */
  function ByUser(u: Id, parentId: Option<Id>): Comment -> bool
  {
    (c: Comment) => c.userId == u && (parentId.None? || c.parentId == parentId)
  }

  /** `orderBy: { createdAt }` reads a comment's creation time. */
  function CommentDate(c: Comment): int { c.createdAt }

  /** Every comment matching `where`, in the query's date order: the rows `skip` and `take` cut a page from. */
  function CommentsByDate(db: Db, where: Comment -> bool, q: CommentsQuery): seq<Id>
  {
    Listing.ByDate(db.comments, db.nextId, where, CommentDate, NewestFirst(q))
  }

  /** getPostComments. */
  function PostComments(db: Db, p: Id, q: CommentsQuery): (r: Outcome<Listing.Paged>)
    requires QueryOk(q)
    ensures p !in db.posts <==> r == NotFound("Post not found")
    ensures r.Ok? ==> r.value == Listing.Paginate(CommentsByDate(db, OnPost(p, q.parentId), q), PageOf(q), LimitOf(q))
    ensures r.Ok? ==> r.value.meta.page == PageOf(q) && r.value.meta.limit == LimitOf(q)
    ensures r.Ok? ==> r.value.meta.totalPages == Paging.CeilDiv(r.value.meta.total, LimitOf(q))
    ensures r.Ok? ==> |r.value.items| <= LimitOf(q)
    ensures r.Ok? ==> forall k :: 0 <= k < |r.value.items| ==>
      (r.value.items[k] in db.comments && db.comments[r.value.items[k]].postId == p
       && db.comments[r.value.items[k]].parentId == q.parentId)
    ensures r.Ok? ==> forall a, b :: 0 <= a < b < |r.value.items| ==>
      Listing.InDateOrder(db.comments[r.value.items[a]].createdAt, db.comments[r.value.items[b]].createdAt, NewestFirst(q))
  {
    if p !in db.posts then NotFound("Post not found")
    else Ok(Listing.PageByDate(db.comments, db.nextId, OnPost(p, q.parentId), CommentDate,
                               NewestFirst(q), PageOf(q), LimitOf(q)))
  }

  /** getUserComments. */
  function UserComments(db: Db, u: Id, q: CommentsQuery): (r: Outcome<Listing.Paged>)
    requires QueryOk(q)
    ensures u !in db.users <==> r == NotFound("User not found")
    ensures r.Ok? ==> r.value == Listing.Paginate(CommentsByDate(db, ByUser(u, q.parentId), q), PageOf(q), LimitOf(q))
    ensures r.Ok? ==> r.value.meta.page == PageOf(q) && r.value.meta.limit == LimitOf(q)
    ensures r.Ok? ==> r.value.meta.totalPages == Paging.CeilDiv(r.value.meta.total, LimitOf(q))
    ensures r.Ok? ==> |r.value.items| <= LimitOf(q)
    ensures r.Ok? ==> forall k :: 0 <= k < |r.value.items| ==>
      (r.value.items[k] in db.comments && db.comments[r.value.items[k]].userId == u
       && (q.parentId.Some? ==> db.comments[r.value.items[k]].parentId == q.parentId))
    ensures r.Ok? ==> forall a, b :: 0 <= a < b < |r.value.items| ==>
      Listing.InDateOrder(db.comments[r.value.items[a]].createdAt, db.comments[r.value.items[b]].createdAt, NewestFirst(q))
  {
    if u !in db.users then NotFound("User not found")
    else Ok(Listing.PageByDate(db.comments, db.nextId, ByUser(u, q.parentId), CommentDate,
                               NewestFirst(q), PageOf(q), LimitOf(q)))
  }

  /**
   * The total a post's top-level listing reports never exceeds the post's
   * `comment` counter, which also counts replies.
   */
  lemma TopLevelTotalWithinCounter(db: Db, p: Id, q: CommentsQuery)
    requires CountersOk(db.posts, db.likes, db.comments) && Bounded(db.comments, db.nextId)
    requires p in db.posts && QueryOk(q) && q.parentId.None?
    ensures PostComments(db, p, q).value.meta.total <= db.posts[p].comment
  {
    IdsBelowCount(db.comments, db.nextId, OnPost(p, None));
    CountMono(db.comments, OnPost(p, None), CommentsOn(p));
  }

  /** Whatever the page size, every comment the post's listing selects is on exactly one page. */
  lemma PostCommentsCover(db: Db, p: Id, q: CommentsQuery, k: Id)
    requires Bounded(db.comments, db.nextId) && p in db.posts && QueryOk(q)
    requires k in db.comments && OnPost(p, q.parentId)(db.comments[k])
    ensures exists page: nat ::
      page >= 1 && QueryOk(q.(page := Some(page))) && k in PostComments(db, p, q.(page := Some(page))).value.items
    ensures forall p1: nat, p2: nat ::
      (p1 >= 1 && p2 >= 1 && k in PostComments(db, p, q.(page := Some(p1))).value.items
       && k in PostComments(db, p, q.(page := Some(p2))).value.items) ==> p1 == p2
  {
    var f := OnPost(p, q.parentId);
    Listing.PageByDateCovers(db.comments, db.nextId, f, CommentDate, NewestFirst(q), LimitOf(q), k);
    var page: nat :| page >= 1 && k in Listing.PageByDate(db.comments, db.nextId, f, CommentDate, NewestFirst(q), page, LimitOf(q)).items;
    PostCommentsAt(db, p, q, page);
    forall p1: nat, p2: nat | p1 >= 1 && p2 >= 1 && k in PostComments(db, p, q.(page := Some(p1))).value.items
      && k in PostComments(db, p, q.(page := Some(p2))).value.items
      ensures p1 == p2
    {
      PostCommentsOnePage(db, p, q, k, p1, p2);
    }
  }

  /** For a page of at least 1, the listing returns that page of `PageByDate`. */
  lemma PostCommentsAt(db: Db, p: Id, q: CommentsQuery, page: nat)
    requires p in db.posts && QueryOk(q) && page >= 1
    ensures PostComments(db, p, q.(page := Some(page)))
         == Ok(Listing.PageByDate(db.comments, db.nextId, OnPost(p, q.parentId), CommentDate, NewestFirst(q), page, LimitOf(q)))
  {
  }

  lemma PostCommentsOnePage(db: Db, p: Id, q: CommentsQuery, k: Id, p1: nat, p2: nat)
    requires Bounded(db.comments, db.nextId) && p in db.posts && QueryOk(q)
    requires k in db.comments && OnPost(p, q.parentId)(db.comments[k])
    requires p1 >= 1 && p2 >= 1
    requires k in PostComments(db, p, q.(page := Some(p1))).value.items
    requires k in PostComments(db, p, q.(page := Some(p2))).value.items
    ensures p1 == p2
  {
    var f := OnPost(p, q.parentId);
    PostCommentsAt(db, p, q, p1);
    PostCommentsAt(db, p, q, p2);
    Listing.PageByDateCovers(db.comments, db.nextId, f, CommentDate, NewestFirst(q), LimitOf(q), k);
  }

  /** Whatever the page size, every comment the user's listing selects is on exactly one page. */
  lemma UserCommentsCover(db: Db, u: Id, q: CommentsQuery, k: Id)
    requires Bounded(db.comments, db.nextId) && u in db.users && QueryOk(q)
    requires k in db.comments && ByUser(u, q.parentId)(db.comments[k])
    ensures exists page: nat ::
      page >= 1 && QueryOk(q.(page := Some(page))) && k in UserComments(db, u, q.(page := Some(page))).value.items
    ensures forall p1: nat, p2: nat ::
      (p1 >= 1 && p2 >= 1 && k in UserComments(db, u, q.(page := Some(p1))).value.items
       && k in UserComments(db, u, q.(page := Some(p2))).value.items) ==> p1 == p2
  {
    var f := ByUser(u, q.parentId);
    Listing.PageByDateCovers(db.comments, db.nextId, f, CommentDate, NewestFirst(q), LimitOf(q), k);
    var page: nat :| page >= 1 && k in Listing.PageByDate(db.comments, db.nextId, f, CommentDate, NewestFirst(q), page, LimitOf(q)).items;
    UserCommentsAt(db, u, q, page);
    forall p1: nat, p2: nat | p1 >= 1 && p2 >= 1 && k in UserComments(db, u, q.(page := Some(p1))).value.items
      && k in UserComments(db, u, q.(page := Some(p2))).value.items
      ensures p1 == p2
    {
      UserCommentsOnePage(db, u, q, k, p1, p2);
    }
  }

  /** For a page of at least 1, the listing returns that page of `PageByDate`. */
  lemma UserCommentsAt(db: Db, u: Id, q: CommentsQuery, page: nat)
    requires u in db.users && QueryOk(q) && page >= 1
    ensures UserComments(db, u, q.(page := Some(page)))
         == Ok(Listing.PageByDate(db.comments, db.nextId, ByUser(u, q.parentId), CommentDate, NewestFirst(q), page, LimitOf(q)))
  {
  }

  lemma UserCommentsOnePage(db: Db, u: Id, q: CommentsQuery, k: Id, p1: nat, p2: nat)
    requires Bounded(db.comments, db.nextId) && u in db.users && QueryOk(q)
    requires k in db.comments && ByUser(u, q.parentId)(db.comments[k])
    requires p1 >= 1 && p2 >= 1
    requires k in UserComments(db, u, q.(page := Some(p1))).value.items
    requires k in UserComments(db, u, q.(page := Some(p2))).value.items
    ensures p1 == p2
  {
    var f := ByUser(u, q.parentId);
    UserCommentsAt(db, u, q, p1);
    UserCommentsAt(db, u, q, p2);
    Listing.PageByDateCovers(db.comments, db.nextId, f, CommentDate, NewestFirst(q), LimitOf(q), k);
  }
}

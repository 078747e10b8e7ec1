/**
 * Likes: one like per (user, post, postType); a like credits the post's
 * author one point and one like, an unlike takes both back.
 */
module Likes {

  import opened Outcomes
  import opened Tables
  import opened SocialDb
  import Listing

  const LikeRewardPoints: int := 1

  /** `like.findUnique({ userId_postId_postType })`. */
  function FindLike(db: Db, u: Id, p: Id, t: PostType): (r: Option<Id>)
    ensures r.Some? ==> r.value in db.likes && LikeKey(db.likes[r.value]) == (u, p, t)
    ensures r.None? ==> forall i :: i in db.likes && i < db.nextId ==> LikeKey(db.likes[i]) != (u, p, t)
  {
    FindFirst(db.likes, db.nextId, (l: Like) => LikeKey(l) == (u, p, t))
  }

  /** checkIfLiked. */
  function IsLiked(db: Db, u: Id, p: Id, t: PostType): (b: bool)
    ensures b <==> exists i :: i in db.likes && i < db.nextId && LikeKey(db.likes[i]) == (u, p, t)
  {
    FindLike(db, u, p, t).Some?
  }

  function LikeCheck(db: Db, u: Id, p: Id, t: PostType): (err: Option<Outcome<Id>>)
    ensures err.Some? ==> err.value.IsFailure()
    ensures err.None? <==> (u in db.users && p in db.posts && !IsLiked(db, u, p, t))
    ensures u !in db.users ==> err == Some(NotFound("User not found"))
    ensures (u in db.users && p !in db.posts) ==> err == Some(NotFound("Post not found"))
    ensures (u in db.users && p in db.posts && IsLiked(db, u, p, t)) ==> err == Some(Conflict("You have already liked this post"))
  {
    if u !in db.users then Some(NotFound("User not found"))
    else if p !in db.posts then Some(NotFound("Post not found"))
    else if FindLike(db, u, p, t).Some? then Some(Conflict("You have already liked this post"))
    else None
  }

  /** The author's row with `points` added to `totalPoints` and `delta` to `likeCount`. */
  function Bump(users: map<Id, User>, author: Id, points: int, delta: int): map<Id, User>
    requires author in users
  {
    users[author := users[author].(totalPoints := users[author].totalPoints + points,
                                   likeCount := users[author].likeCount + delta)]
  }

  /**
   * The tables after createLike: the like row (id `nextId`), `post.like`
   * up by one, a ledger row (id `nextId + 1`) and the author's
   * `totalPoints` and `likeCount` up by one.
   */
  function Liked(db: Db, u: Id, p: Id, t: PostType, now: int): Db
    requires p in db.posts && db.posts[p].userId in db.users
  {
    var n := db.nextId;
    var author := db.posts[p].userId;
    db.(likes := db.likes[n := Like(u, p, t, now)],
        posts := db.posts[p := db.posts[p].(like := db.posts[p].like + 1)],
        ledger := db.ledger[n + 1 := UserPoint(author, Some(p), ForLike(Some(n)), LikeRewardPoints)],
        users := Bump(db.users, author, LikeRewardPoints, 1),
        nextId := n + 2)
  }

  function UnlikeCheck(db: Db, u: Id, p: Id, t: PostType): (err: Option<Outcome<Id>>)
    ensures err.Some? ==> err.value.IsFailure()
    ensures err.None? <==> (IsLiked(db, u, p, t) && p in db.posts)
    ensures !IsLiked(db, u, p, t) ==> err == Some(NotFound("Like not found"))
    ensures (IsLiked(db, u, p, t) && p !in db.posts) ==> err == Some(NotFound("Post not found"))
  {
    if FindLike(db, u, p, t).None? then Some(NotFound("Like not found"))
    else if p !in db.posts then Some(NotFound("Post not found"))
    else None
  }

  /**
   * The tables after unlike: the like row gone, `post.like` down by one, a
   * ledger row of -1 without a like id, and the author's `totalPoints`
   * and `likeCount` down by one.
   */
  function Unliked(db: Db, u: Id, p: Id, t: PostType): Db
    requires FindLike(db, u, p, t).Some? && p in db.posts && db.posts[p].userId in db.users
  {
    var n := db.nextId;
    var author := db.posts[p].userId;
    db.(likes := db.likes - {FindLike(db, u, p, t).value},
        posts := db.posts[p := db.posts[p].(like := db.posts[p].like - 1)],
        ledger := db.ledger[n := UserPoint(author, Some(p), ForLike(None), -LikeRewardPoints)],
        users := Bump(db.users, author, -LikeRewardPoints, -1),
        nextId := n + 1)
  }

  // ---------------------------------------------------------------------------

  lemma LikeShape(db: Db, u: Id, p: Id, t: PostType, now: int)
    requires ShapeOk(db) && p in db.posts
    ensures ShapeOk(Liked(db, u, p, t, now))
  {
  }

  lemma LikeKeys(db: Db, u: Id, p: Id, t: PostType, now: int)
    requires KeysOk(db) && Bounded(db.likes, db.nextId) && !IsLiked(db, u, p, t) && p in db.posts && db.posts[p].userId in db.users
    ensures KeysOk(Liked(db, u, p, t, now))
  {
    UniqueInsert(db.likes, db.nextId, Like(u, p, t, now), LikeKey);
  }

  lemma LikeCounters(db: Db, u: Id, p: Id, t: PostType, now: int)
    requires CountersOk(db.posts, db.likes, db.comments) && Bounded(db.likes, db.nextId) && p in db.posts && db.posts[p].userId in db.users
    ensures var db' := Liked(db, u, p, t, now); CountersOk(db'.posts, db'.likes, db'.comments)
  {
    LikeAdded(db.posts, db.likes, db.comments, db.nextId, Like(u, p, t, now));
  }

  lemma LikeRefs(db: Db, u: Id, p: Id, t: PostType, now: int)
    requires RefsOk(db) && Bounded(db.posts, db.nextId) && p in db.posts && db.posts[p].userId in db.users
    ensures RefsOk(Liked(db, u, p, t, now))
  {
  }

  lemma LikeKeepsOk(db: Db, u: Id, p: Id, t: PostType, now: int)
    requires DbOk(db) && p in db.posts && !IsLiked(db, u, p, t)
    ensures DbOk(Liked(db, u, p, t, now))
  {
    LikeShape(db, u, p, t, now);
    LikeRefs(db, u, p, t, now);
    LikeKeys(db, u, p, t, now);
    LikeCounters(db, u, p, t, now);
  }

  lemma UnlikeShape(db: Db, u: Id, p: Id, t: PostType)
    requires ShapeOk(db) && UnlikeCheck(db, u, p, t).None?
    ensures ShapeOk(Unliked(db, u, p, t))
  {
  }

  lemma UnlikeKeys(db: Db, u: Id, p: Id, t: PostType)
    requires KeysOk(db) && UnlikeCheck(db, u, p, t).None? && db.posts[p].userId in db.users
    ensures KeysOk(Unliked(db, u, p, t))
  {
  }

  lemma UnlikeCounters(db: Db, u: Id, p: Id, t: PostType)
    requires CountersOk(db.posts, db.likes, db.comments) && UnlikeCheck(db, u, p, t).None? && db.posts[p].userId in db.users
    ensures var db' := Unliked(db, u, p, t); CountersOk(db'.posts, db'.likes, db'.comments)
  {
    LikeRemoved(db.posts, db.likes, db.comments, FindLike(db, u, p, t).value);
  }

  lemma UnlikeKeepsOk(db: Db, u: Id, p: Id, t: PostType)
    requires DbOk(db) && UnlikeCheck(db, u, p, t).None?
    ensures DbOk(Unliked(db, u, p, t))
  {
    UnlikeShape(db, u, p, t);
    UnlikeKeys(db, u, p, t);
    UnlikeCounters(db, u, p, t);
  }

  /** A like credits exactly one point to the post's author, in the user row and in the ledger alike. */
  lemma LikeCredits(db: Db, u: Id, p: Id, t: PostType, now: int)
    requires Bounded(db.ledger, db.nextId) && p in db.posts && db.posts[p].userId in db.users
    ensures var db' := Liked(db, u, p, t, now);
      Credited(db, db', db.posts[p].userId, LikeRewardPoints) && LedgerTracks(db, db')
  {
    var db' := Liked(db, u, p, t, now);
    var n := db.nextId;
    forall w ensures Points(db'.ledger, db'.nextId, w) == Points(db.ledger, n, w) + (if w == db.posts[p].userId then 1 else 0) {
      PointsBeyond(db.ledger, n, n + 1, w);
      Append(db.ledger, n + 1, db'.ledger[n + 1], w);
    }
    TracksByCredit(db, db', db.posts[p].userId, LikeRewardPoints);
  }

  /** An unlike charges exactly one point back from the post's author, in the user row and in the ledger alike. */
  lemma UnlikeCredits(db: Db, u: Id, p: Id, t: PostType)
    requires Bounded(db.ledger, db.nextId) && FindLike(db, u, p, t).Some? && p in db.posts && db.posts[p].userId in db.users
    ensures var db' := Unliked(db, u, p, t);
      Credited(db, db', db.posts[p].userId, -LikeRewardPoints) && LedgerTracks(db, db')
  {
    var db' := Unliked(db, u, p, t);
    forall w ensures Points(db'.ledger, db'.nextId, w) == Points(db.ledger, db.nextId, w) + (if w == db.posts[p].userId then -1 else 0) {
      Append(db.ledger, db.nextId, db'.ledger[db.nextId], w);
    }
    TracksByCredit(db, db', db.posts[p].userId, -LikeRewardPoints);
  }

  /** After a like the same like is refused as a conflict, and can be taken back. */
  lemma LikeOnce(db: Db, u: Id, p: Id, t: PostType, now: int)
    requires DbOk(db) && LikeCheck(db, u, p, t).None?
    ensures var db' := Liked(db, u, p, t, now);
      IsLiked(db', u, p, t) && LikeCheck(db', u, p, t) == Some(Conflict("You have already liked this post"))
      && UnlikeCheck(db', u, p, t).None?
  {
    var db' := Liked(db, u, p, t, now);
    FindFirstSees(db'.likes, db'.nextId, (l: Like) => LikeKey(l) == (u, p, t), db.nextId);
  }

  /** After an unlike the pair is no longer liked, since the key was unique. */
  lemma UnlikeOnce(db: Db, u: Id, p: Id, t: PostType)
    requires DbOk(db) && UnlikeCheck(db, u, p, t).None?
    ensures !IsLiked(Unliked(db, u, p, t), u, p, t)
  {
    var k := FindLike(db, u, p, t).value;
    var db' := Unliked(db, u, p, t);
    forall i | i in db'.likes ensures LikeKey(db'.likes[i]) != (u, p, t) {
      assert i != k && i in db.likes;
    }
  }

  /** Right after a like, the like is the row `findUnique` finds. */
  lemma FindsNewLike(db: Db, u: Id, p: Id, t: PostType, now: int)
    requires Bounded(db.likes, db.nextId) && !IsLiked(db, u, p, t) && p in db.posts && db.posts[p].userId in db.users
    ensures FindLike(Liked(db, u, p, t, now), u, p, t) == Some(db.nextId)
  {
    var db' := Liked(db, u, p, t, now);
    FindFirstSees(db'.likes, db'.nextId, (l: Like) => LikeKey(l) == (u, p, t), db.nextId);
  }

  /** Like followed by unlike gives back the like table, the post's counter and the author's row. */
  lemma LikeThenUnlike(db: Db, u: Id, p: Id, t: PostType, now: int)
    requires Bounded(db.likes, db.nextId) && LikeCheck(db, u, p, t).None? && db.posts[p].userId in db.users
    ensures var db' := Liked(db, u, p, t, now);
      UnlikeCheck(db', u, p, t).None?
      && var db'' := Unliked(db', u, p, t);
      db''.likes == db.likes && db''.posts == db.posts && db''.users == db.users
  {
    FindsNewLike(db, u, p, t, now);
  }

  /** The two ledger rows of a like and its unlike cancel out. */
  lemma LikeThenUnlikeCredits(db: Db, u: Id, p: Id, t: PostType, now: int)
    requires Bounded(db.likes, db.nextId) && Bounded(db.ledger, db.nextId)
    requires LikeCheck(db, u, p, t).None? && db.posts[p].userId in db.users
    ensures var db' := Liked(db, u, p, t, now);
      UnlikeCheck(db', u, p, t).None? && Credited(db, Unliked(db', u, p, t), db.posts[p].userId, 0)
  {
    FindsNewLike(db, u, p, t, now);
    LikeCredits(db, u, p, t, now);
    UnlikeCredits(Liked(db, u, p, t, now), u, p, t);
  }

  // ---------------------------------------------------------------------------
  // Queries

  /** The `where` of getPostLikes: the post's likes, of one type when given. */
  function OfPost(p: Id, postType: Option<PostType>): Like -> bool
  {
    (l: Like) => l.postId == p && (postType.None? || l.postType == postType.value)
  }

  /** The `where` of getUserLikes. */
  function OfUser(u: Id, postType: Option<PostType>): Like -> bool
  {
    (l: Like) => l.userId == u && (postType.None? || l.postType == postType.value)
  }

  /** `orderBy: { createdAt: 'desc' }` reads a like's creation time. */
  function LikeDate(l: Like): int { l.createdAt }

  /** Every like matching `where`, newest first: the rows `skip` and `take` cut a page from. */
  function LikesByDate(db: Db, where: Like -> bool): seq<Id>
  {
    Listing.ByDate(db.likes, db.nextId, where, LikeDate, true)
  }

  /** getPostLikes: NotFound for a missing post, else a page of its likes (of one type when given), newest first. */
  function PostLikes(db: Db, p: Id, postType: Option<PostType>, page: nat, limit: nat): (r: Outcome<Listing.Paged>)
    requires page >= 1 && limit >= 1
    ensures p !in db.posts <==> r == NotFound("Post not found")
    ensures r.Ok? ==> r.value == Listing.Paginate(LikesByDate(db, OfPost(p, postType)), page, limit)
    ensures r.Ok? ==> forall k :: 0 <= k < |r.value.items| ==>
      r.value.items[k] in db.likes && db.likes[r.value.items[k]].postId == p
      && (postType.Some? ==> db.likes[r.value.items[k]].postType == postType.value)
    ensures r.Ok? ==> |r.value.items| <= limit
    ensures r.Ok? ==> forall a, b :: 0 <= a < b < |r.value.items| ==>
      db.likes[r.value.items[a]].createdAt >= db.likes[r.value.items[b]].createdAt
  {
    if p !in db.posts then NotFound("Post not found")
    else Ok(Listing.PageByDate(db.likes, db.nextId, OfPost(p, postType), LikeDate, true, page, limit))
  }

  /** getUserLikes: NotFound for a missing user, else a page of the user's likes, newest first. */
  function UserLikes(db: Db, u: Id, postType: Option<PostType>, page: nat, limit: nat): (r: Outcome<Listing.Paged>)
    requires page >= 1 && limit >= 1
    ensures u !in db.users <==> r == NotFound("User not found")
    ensures r.Ok? ==> r.value == Listing.Paginate(LikesByDate(db, OfUser(u, postType)), page, limit)
    ensures r.Ok? ==> forall k :: 0 <= k < |r.value.items| ==>
      r.value.items[k] in db.likes && db.likes[r.value.items[k]].userId == u
      && (postType.Some? ==> db.likes[r.value.items[k]].postType == postType.value)
    ensures r.Ok? ==> |r.value.items| <= limit
    ensures r.Ok? ==> forall a, b :: 0 <= a < b < |r.value.items| ==>
      db.likes[r.value.items[a]].createdAt >= db.likes[r.value.items[b]].createdAt
  {
    if u !in db.users then NotFound("User not found")
    else Ok(Listing.PageByDate(db.likes, db.nextId, OfUser(u, postType), LikeDate, true, page, limit))
  }

  /** Whatever the page size, every like of the post (of the type, when given) is on exactly one page. */
  lemma PostLikesCover(db: Db, p: Id, postType: Option<PostType>, limit: nat, k: Id)
    requires Bounded(db.likes, db.nextId) && p in db.posts && limit >= 1
    requires k in db.likes && OfPost(p, postType)(db.likes[k])
    ensures exists page: nat :: page >= 1 && k in PostLikes(db, p, postType, page, limit).value.items
    ensures forall p1: nat, p2: nat ::
      (p1 >= 1 && p2 >= 1 && k in PostLikes(db, p, postType, p1, limit).value.items
       && k in PostLikes(db, p, postType, p2, limit).value.items) ==> p1 == p2
  {
    Listing.PageByDateCovers(db.likes, db.nextId, OfPost(p, postType), LikeDate, true, limit, k);
    var page: nat :| page >= 1 && k in Listing.PageByDate(db.likes, db.nextId, OfPost(p, postType), LikeDate, true, page, limit).items;
    assert k in PostLikes(db, p, postType, page, limit).value.items;
    forall p1: nat, p2: nat | p1 >= 1 && p2 >= 1 && k in PostLikes(db, p, postType, p1, limit).value.items
      && k in PostLikes(db, p, postType, p2, limit).value.items
      ensures p1 == p2
    {
      assert k in Listing.PageByDate(db.likes, db.nextId, OfPost(p, postType), LikeDate, true, p1, limit).items;
      assert k in Listing.PageByDate(db.likes, db.nextId, OfPost(p, postType), LikeDate, true, p2, limit).items;
    }
  }

  /** Whatever the page size, every like by the user (of the type, when given) is on exactly one page. */
  lemma UserLikesCover(db: Db, u: Id, postType: Option<PostType>, limit: nat, k: Id)
    requires Bounded(db.likes, db.nextId) && u in db.users && limit >= 1
    requires k in db.likes && OfUser(u, postType)(db.likes[k])
    ensures exists page: nat :: page >= 1 && k in UserLikes(db, u, postType, page, limit).value.items
    ensures forall p1: nat, p2: nat ::
      (p1 >= 1 && p2 >= 1 && k in UserLikes(db, u, postType, p1, limit).value.items
       && k in UserLikes(db, u, postType, p2, limit).value.items) ==> p1 == p2
  {
    Listing.PageByDateCovers(db.likes, db.nextId, OfUser(u, postType), LikeDate, true, limit, k);
    var page: nat :| page >= 1 && k in Listing.PageByDate(db.likes, db.nextId, OfUser(u, postType), LikeDate, true, page, limit).items;
    assert k in UserLikes(db, u, postType, page, limit).value.items;
    forall p1: nat, p2: nat | p1 >= 1 && p2 >= 1 && k in UserLikes(db, u, postType, p1, limit).value.items
      && k in UserLikes(db, u, postType, p2, limit).value.items
      ensures p1 == p2
    {
      assert k in Listing.PageByDate(db.likes, db.nextId, OfUser(u, postType), LikeDate, true, p1, limit).items;
      assert k in Listing.PageByDate(db.likes, db.nextId, OfUser(u, postType), LikeDate, true, p2, limit).items;
    }
  }

  /** The total reported with a post's likes counts every like of the post of the requested type. */
  lemma PostLikesTotalTyped(db: Db, p: Id, postType: Option<PostType>, page: nat, limit: nat)
    requires Bounded(db.likes, db.nextId) && p in db.posts && page >= 1 && limit >= 1
    ensures PostLikes(db, p, postType, page, limit).value.meta.total == Count(db.likes, OfPost(p, postType))
  {
    IdsBelowCount(db.likes, db.nextId, OfPost(p, postType));
  }

  /** The total reported with a post's likes is the post's `like` counter. */
  lemma PostLikesTotal(db: Db, p: Id, page: nat, limit: nat)
    requires CountersOk(db.posts, db.likes, db.comments) && Bounded(db.likes, db.nextId)
    requires p in db.posts && page >= 1 && limit >= 1
    ensures PostLikes(db, p, None, page, limit).value.meta.total == db.posts[p].like
  {
    IdsBelowCount(db.likes, db.nextId, OfPost(p, None));
    assert Matching(db.likes, OfPost(p, None)) == Matching(db.likes, LikesOn(p));
  }
}

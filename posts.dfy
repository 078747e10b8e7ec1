/**
 * Posts: creating one earns its author five points and, when the author
 * asks for a boost, costs three hundred; the feed lists boosted posts
 * first and then the newest; only the author may edit or delete a post,
 * and an edit touches only the fields it supplies.
 */
module Posts {

  import opened Outcomes
  import opened Tables
  import opened SocialDb
  import Sorting
  import Paging
  import Listing

  const PostRewardPoints: int := 5
  const BoostCostPoints: int := 300

  /** The fields of the create body the service stores; a missing field is `None`. */
  datatype CreatePostDto = CreatePostDto(
    postType: Option<PostType>,
    caption: Option<string>,
    mediaUrl: Option<string>,
    postLocation: Option<string>,
    locationVisibility: Option<string>,
    contentBooster: Option<bool>,
    visiualStyle: Option<seq<string>>,
    contextActivity: Option<seq<string>>,
    subject: Option<seq<string>>)

  /** Only an explicit `true` asks for a boost. */
  predicate WantsBoost(dto: CreatePostDto)
  {
    dto.contentBooster == Some(true)
  }

  /** The change to the author's `totalPoints`. */
  function Delta(boost: bool): int
  {
    PostRewardPoints - (if boost then BoostCostPoints else 0)
  }

  /** createPost's guards. */
  function CreateCheck(db: Db, u: Id, dto: CreatePostDto): (err: Option<Outcome<Id>>)
    ensures err.Some? ==> err.value.IsFailure()
    ensures err.None? <==> (u in db.users && (WantsBoost(dto) ==> db.users[u].totalPoints >= BoostCostPoints))
    ensures u !in db.users ==> err == Some(NotFound("User not found"))
    ensures (u in db.users && WantsBoost(dto) && db.users[u].totalPoints < BoostCostPoints)
      ==> err == Some(BadRequest("Not enough points to boost. Need at least 300 points."))
  {
    if u !in db.users then Some(NotFound("User not found"))
    else if WantsBoost(dto) && db.users[u].totalPoints < BoostCostPoints then
      Some(BadRequest("Not enough points to boost. Need at least 300 points."))
    else None
  }

  /** The row createPost writes: absent text is null, absent lists are empty, counters start at zero. */
  function NewPost(u: Id, dto: CreatePostDto, now: int): Post
  {
    Post(u, dto.postType, dto.caption, dto.mediaUrl, dto.postLocation, dto.locationVisibility,
         dto.visiualStyle.GetOr([]), dto.contextActivity.GetOr([]), dto.subject.GetOr([]),
         PostRewardPoints, WantsBoost(dto), 0, 0, now)
  }

  /**
   * The tables after createPost: the post (id `nextId`), a +5 ledger row,
   * a -300 ledger row when boosting, and the author's `totalPoints` moved
   * by the delta.
   */
  function Created(db: Db, u: Id, dto: CreatePostDto, now: int): Db
    requires u in db.users
  {
    var n := db.nextId;
    var reward := db.ledger[n + 1 := UserPoint(u, Some(n), ForPost, PostRewardPoints)];
    db.(posts := db.posts[n := NewPost(u, dto, now)],
        ledger := if WantsBoost(dto) then reward[n + 2 := UserPoint(u, Some(n), ForPost, -BoostCostPoints)] else reward,
        users := AddPoints(db.users, u, Delta(WantsBoost(dto))),
        nextId := if WantsBoost(dto) then n + 3 else n + 2)
  }

  datatype CreatePostResult = CreatePostResult(postId: Id, earnedPoints: int, boostCharged: int, totalDelta: int, userTotalPoints: int)

  /** What createPost returns, read off the state before the call. */
  function CreateResult(db: Db, u: Id, dto: CreatePostDto): (r: CreatePostResult)
    requires u in db.users
    ensures r.totalDelta == r.earnedPoints - r.boostCharged
    ensures r.boostCharged == (if WantsBoost(dto) then BoostCostPoints else 0)
    ensures r.userTotalPoints == db.users[u].totalPoints + r.totalDelta
  {
    var d := Delta(WantsBoost(dto));
    CreatePostResult(db.nextId, PostRewardPoints, if WantsBoost(dto) then BoostCostPoints else 0, d, db.users[u].totalPoints + d)
  }

  lemma CreateShape(db: Db, u: Id, dto: CreatePostDto, now: int)
    requires ShapeOk(db) && RefsOk(db) && u in db.users
    ensures ShapeOk(Created(db, u, dto, now)) && RefsOk(Created(db, u, dto, now))
  {
  }

  lemma CreateCounters(db: Db, u: Id, dto: CreatePostDto, now: int)
    requires CountersOk(db.posts, db.likes, db.comments) && RefsOk(db) && u in db.users
    ensures var db' := Created(db, u, dto, now); CountersOk(db'.posts, db'.likes, db'.comments)
  {
    PostAdded(db.posts, db.likes, db.comments, db.nextId, NewPost(u, dto, now));
  }

  lemma CreateKeepsOk(db: Db, u: Id, dto: CreatePostDto, now: int)
    requires DbOk(db) && u in db.users
    ensures DbOk(Created(db, u, dto, now))
  {
    CreateShape(db, u, dto, now);
    CreateCounters(db, u, dto, now);
  }

  /**
   * The post's ledger rows sum to the delta applied to `totalPoints`, so
   * the ledger keeps tracking the user rows.
   */
  lemma CreateCredits(db: Db, u: Id, dto: CreatePostDto, now: int)
    requires Bounded(db.ledger, db.nextId) && u in db.users
    ensures var db' := Created(db, u, dto, now);
      Credited(db, db', u, Delta(WantsBoost(dto))) && LedgerTracks(db, db')
  {
    var db' := Created(db, u, dto, now);
    var n := db.nextId;
    var reward := db.ledger[n + 1 := UserPoint(u, Some(n), ForPost, PostRewardPoints)];
    forall w ensures Points(db'.ledger, db'.nextId, w) == Points(db.ledger, n, w) + (if w == u then Delta(WantsBoost(dto)) else 0) {
      PointsBeyond(db.ledger, n, n + 1, w);
      Append(db.ledger, n + 1, reward[n + 1], w);
      if WantsBoost(dto) {
        Append(reward, n + 2, db'.ledger[n + 2], w);
      }
    }
    TracksByCredit(db, db', u, Delta(WantsBoost(dto)));
  }

  /** A boost that passes the guard leaves the author with at least the five points just earned. */
  lemma BoostKeepsBalance(db: Db, u: Id, dto: CreatePostDto, now: int)
    requires CreateCheck(db, u, dto).None?
    ensures var t := Created(db, u, dto, now).users[u].totalPoints;
      if WantsBoost(dto) then t >= PostRewardPoints && t == db.users[u].totalPoints - (BoostCostPoints - PostRewardPoints)
      else t == db.users[u].totalPoints + PostRewardPoints
  {
  }

  // ---------------------------------------------------------------------------
  // Reading

  /** getSinglePost. */
  function SinglePost(db: Db, k: Id): (r: Outcome<Post>)
    ensures k !in db.posts <==> r == NotFound("Post not found")
    ensures r.Ok? ==> k in db.posts && r.value == db.posts[k]
  {
    if k !in db.posts then NotFound("Post not found") else Ok(db.posts[k])
  }

  /** The new post is what getSinglePost then returns under the id createPost reported. */
  lemma CreateThenGet(db: Db, u: Id, dto: CreatePostDto, now: int)
    requires u in db.users
    ensures SinglePost(Created(db, u, dto, now), CreateResult(db, u, dto).postId) == Ok(NewPost(u, dto, now))
  {
  }

  /** The feed's `orderBy`: `contentBooster` descending, then `createdAt` descending. */
  function FeedRank(posts: map<Id, Post>): nat -> (int, int)
  {
    (i: nat) => if i in posts then (if posts[i].contentBooster then -1 else 0, -posts[i].createdAt) else (0, 0)
  }

  function AnyPost(): Post -> bool { (p: Post) => true }

  /** `p` may be listed before `q`: boosted before unboosted, then newer before older. */
  predicate FeedBefore(posts: map<Id, Post>, p: Id, q: Id)
    requires p in posts && q in posts
  {
    (posts[p].contentBooster && !posts[q].contentBooster)
    || (posts[p].contentBooster == posts[q].contentBooster && posts[p].createdAt >= posts[q].createdAt)
  }

  /** Every post in feed order. */
  function FeedOrder(db: Db): seq<Id>
  {
    Listing.FindMany(db.posts, db.nextId, AnyPost(), FeedRank(db.posts))
  }

  /**
   * getFeed(page = 1, limit = 10): page `page` of the feed, `limit` posts
   * from offset `(page - 1) * limit`.
   */
  function Feed(db: Db, page: nat, limit: nat): (r: seq<Id>)
    requires page >= 1
    ensures r == Paging.Window(FeedOrder(db), Paging.PageSkip(page, limit), limit)
    ensures |r| <= limit
    ensures forall k :: 0 <= k < |r| ==> r[k] in db.posts
  {
    Listing.FindPage(db.posts, db.nextId, AnyPost(), FeedRank(db.posts), Paging.PageSkip(page, limit), limit)
  }

  lemma FeedPair(posts: map<Id, Post>, i: Id, j: Id)
    requires i in posts && j in posts
    requires Sorting.RankBefore(FeedRank(posts)(i), FeedRank(posts)(j), i, j)
    ensures FeedBefore(posts, i, j)
  {
  }

  /** Every page lists boosted posts before unboosted ones and, within each group, newer before older. */
  lemma FeedOrdered(db: Db, page: nat, limit: nat)
    requires page >= 1
    ensures var r := Feed(db, page, limit);
      forall x, y :: 0 <= x < y < |r| ==> FeedBefore(db.posts, r[x], r[y])
  {
    var r := Feed(db, page, limit);
    forall x, y | 0 <= x < y < |r| ensures FeedBefore(db.posts, r[x], r[y]) {
      FeedPair(db.posts, r[x], r[y]);
    }
  }

  /** Whatever the page size, every post is on exactly one page of the feed. */
  lemma FeedCoversPosts(db: Db, limit: nat, k: Id)
    requires Bounded(db.posts, db.nextId) && limit >= 1
    requires k in db.posts
    ensures exists page: nat :: page >= 1 && k in Feed(db, page, limit)
    ensures forall p1: nat, p2: nat :: (p1 >= 1 && p2 >= 1 && k in Feed(db, p1, limit) && k in Feed(db, p2, limit))
                                         ==> p1 == p2
  {
    var all := FeedOrder(db);
    assert k in all;
    Paging.PagesPartition(all, limit, k);
    var page: nat :| page >= 1 && k in Paging.Window(all, Paging.PageSkip(page, limit), limit);
    assert k in Feed(db, page, limit);
  }

  // ---------------------------------------------------------------------------
  // Editing

  /**
   * The update body. `None` is a field left out; `Some(None)` is an explicit
   * null, which clears a text field and empties a list.
   */
  datatype UpdatePostDto = UpdatePostDto(
    contentBooster: Option<bool>,
    postType: Option<Option<PostType>>,
    caption: Option<Option<string>>,
    mediaUrl: Option<Option<string>>,
    postLocation: Option<Option<string>>,
    locationVisibility: Option<Option<string>>,
    visiualStyle: Option<Option<seq<string>>>,
    contextActivity: Option<Option<seq<string>>>,
    subject: Option<Option<seq<string>>>)

  /** The body names at least one field updatePost copies. */
  predicate HasFields(dto: UpdatePostDto)
  {
    dto.postType.Some? || dto.caption.Some? || dto.mediaUrl.Some? || dto.postLocation.Some?
    || dto.locationVisibility.Some? || dto.visiualStyle.Some? || dto.contextActivity.Some? || dto.subject.Some?
  }

  /** updatePost's guards: the booster flag is refused before the post is looked up. */
  function UpdateCheck(db: Db, u: Id, k: Id, dto: UpdatePostDto): (err: Option<Outcome<Post>>)
    ensures err.Some? ==> err.value.IsFailure()
    ensures err.None? <==> (dto.contentBooster.None? && k in db.posts && db.posts[k].userId == u && HasFields(dto))
    ensures dto.contentBooster.Some? ==> err == Some(BadRequest("contentBooster cannot be updated"))
    ensures dto.contentBooster.None? && k !in db.posts ==> err == Some(NotFound("Post not found"))
    ensures (dto.contentBooster.None? && k in db.posts && db.posts[k].userId != u)
      ==> err == Some(Forbidden("You are not allowed to update this post"))
    ensures (dto.contentBooster.None? && k in db.posts && db.posts[k].userId == u && !HasFields(dto))
      ==> err == Some(BadRequest("No valid fields provided to update"))
  {
    if dto.contentBooster.Some? then Some(BadRequest("contentBooster cannot be updated"))
    else if k !in db.posts then Some(NotFound("Post not found"))
    else if db.posts[k].userId != u then Some(Forbidden("You are not allowed to update this post"))
    else if !HasFields(dto) then Some(BadRequest("No valid fields provided to update"))
    else None
  }

  function Pick<T>(field: Option<T>, current: T): T
  {
    if field.Some? then field.value else current
  }

  /** A list field: an explicit null stores the empty list. */
  function PickList(field: Option<Option<seq<string>>>, current: seq<string>): seq<string>
  {
    if field.Some? then field.value.GetOr([]) else current
  }

  /** The post after the supplied fields are copied onto it. */
  function Apply(p: Post, dto: UpdatePostDto): (r: Post)
    ensures r.userId == p.userId && r.point == p.point && r.contentBooster == p.contentBooster
    ensures r.like == p.like && r.comment == p.comment && r.createdAt == p.createdAt
  {
    p.(postType := Pick(dto.postType, p.postType),
       caption := Pick(dto.caption, p.caption),
       mediaUrl := Pick(dto.mediaUrl, p.mediaUrl),
       postLocation := Pick(dto.postLocation, p.postLocation),
       locationVisibility := Pick(dto.locationVisibility, p.locationVisibility),
       visiualStyle := PickList(dto.visiualStyle, p.visiualStyle),
       contextActivity := PickList(dto.contextActivity, p.contextActivity),
       subject := PickList(dto.subject, p.subject))
  }

  /** A field the body leaves out keeps its value. */
  lemma ApplyKeepsOmitted(p: Post, dto: UpdatePostDto)
    ensures var r := Apply(p, dto);
      (dto.postType.None? ==> r.postType == p.postType)
      && (dto.caption.None? ==> r.caption == p.caption)
      && (dto.mediaUrl.None? ==> r.mediaUrl == p.mediaUrl)
      && (dto.postLocation.None? ==> r.postLocation == p.postLocation)
      && (dto.locationVisibility.None? ==> r.locationVisibility == p.locationVisibility)
      && (dto.visiualStyle.None? ==> r.visiualStyle == p.visiualStyle)
      && (dto.contextActivity.None? ==> r.contextActivity == p.contextActivity)
      && (dto.subject.None? ==> r.subject == p.subject)
  {
  }

  /** Sending the same body twice changes nothing the second time. */
  lemma ApplyIdempotent(p: Post, dto: UpdatePostDto)
    ensures Apply(Apply(p, dto), dto) == Apply(p, dto)
  {
  }

  /** Bodies that name different fields can be applied in either order. */
  lemma ApplyCommutes(p: Post, a: UpdatePostDto, b: UpdatePostDto)
    requires a.postType.None? || b.postType.None?
    requires a.caption.None? || b.caption.None?
    requires a.mediaUrl.None? || b.mediaUrl.None?
    requires a.postLocation.None? || b.postLocation.None?
    requires a.locationVisibility.None? || b.locationVisibility.None?
    requires a.visiualStyle.None? || b.visiualStyle.None?
    requires a.contextActivity.None? || b.contextActivity.None?
    requires a.subject.None? || b.subject.None?
    ensures Apply(Apply(p, a), b) == Apply(Apply(p, b), a)
  {
  }

  /** The tables after updatePost: only the one post changes. */
  function Updated(db: Db, k: Id, dto: UpdatePostDto): Db
    requires k in db.posts
  {
    db.(posts := db.posts[k := Apply(db.posts[k], dto)])
  }

  lemma UpdateKeepsOk(db: Db, k: Id, dto: UpdatePostDto)
    requires DbOk(db) && k in db.posts
    ensures DbOk(Updated(db, k, dto))
  {
  }

  /** deletePost's guards. */
  function DeleteCheck(db: Db, u: Id, k: Id): (err: Option<Outcome<Id>>)
    ensures err.Some? ==> err.value.IsFailure()
    ensures err.None? <==> (k in db.posts && db.posts[k].userId == u)
    ensures k !in db.posts ==> err == Some(NotFound("Post not found"))
    ensures k in db.posts && db.posts[k].userId != u ==> err == Some(Forbidden("You are not allowed to delete this post"))
  {
    if k !in db.posts then Some(NotFound("Post not found"))
    else if db.posts[k].userId != u then Some(Forbidden("You are not allowed to delete this post"))
    else None
  }

  /** The tables after deletePost: the post row is gone. */
  function Deleted(db: Db, k: Id): Db
  {
    db.(posts := db.posts - {k})
  }

  lemma DeleteKeepsOk(db: Db, k: Id)
    requires DbOk(db)
    ensures DbOk(Deleted(db, k))
  {
  }

  /**
   * Deleting a post just created takes the post away again, but the points
   * it earned (or cost) stay with the author, as do its ledger rows.
   */
  lemma CreateThenDelete(db: Db, u: Id, dto: CreatePostDto, now: int)
    requires Bounded(db.posts, db.nextId) && u in db.users
    ensures var db' := Created(db, u, dto, now);
      DeleteCheck(db', u, db.nextId).None?
      && var db'' := Deleted(db', db.nextId);
      db''.posts == db.posts && db''.ledger == db'.ledger
      && db''.users[u].totalPoints == db.users[u].totalPoints + Delta(WantsBoost(dto))
  {
    var db' := Created(db, u, dto, now);
    assert db'.posts - {db.nextId} == db.posts;
  }
}

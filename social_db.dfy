/**
 * The tables the engagement services share: users with their point and
 * counter columns, posts, likes, comments, follows, the `userPoint`
 * ledger, and the saved/hidden/reported keyed sets.
 */
module SocialDb {

  import opened Outcomes
  import opened Tables

  /** The user columns these services move; the rest of the row is not part of this model. */
  datatype User = User(totalPoints: int, likeCount: int, commentCount: int)

  /** Prisma enum values, kept by name. */
  type PostType = string

  datatype Post = Post(
    userId: Id,
    postType: Option<PostType>,
    caption: Option<string>,
    mediaUrl: Option<string>,
    postLocation: Option<string>,
    locationVisibility: Option<string>,
    visiualStyle: seq<string>,
    contextActivity: seq<string>,
    subject: seq<string>,
    point: int,
    contentBooster: bool,
    like: int,
    comment: int,
    createdAt: int)

  datatype Like = Like(userId: Id, postId: Id, postType: PostType, createdAt: int)

  datatype Comment = Comment(userId: Id, postId: Id, postType: PostType, content: string, parentId: Option<Id>, createdAt: int)

  datatype Follow = Follow(followerId: Id, followingId: Id, createdAt: int)

  /** What a ledger row was written for. */
  datatype Reason = ForPost | ForLike(likeId: Option<Id>) | ForComment(commentId: Id) | ForFollow(followId: Id)

  /** A `userPoint` row: `points` credited (or, when negative, charged) to `userId`. */
  datatype UserPoint = UserPoint(userId: Id, postId: Option<Id>, reason: Reason, points: int)

  /** A row of `savePost` or `hidePost`. */
  datatype Mark = Mark(userId: Id, postId: Id, createdAt: int)

  datatype Report = Report(userId: Id, targetId: Id, targetType: string, description: Option<string>, createdAt: int)

  datatype Db = Db(
    users: map<Id, User>,
    posts: map<Id, Post>,
    likes: map<Id, Like>,
    comments: map<Id, Comment>,
    follows: map<Id, Follow>,
    ledger: map<Id, UserPoint>,
    saves: map<Id, Mark>,
    hides: map<Id, Mark>,
    reports: map<Id, Report>,
    nextId: Id)

  function LikeKey(l: Like): (Id, Id, PostType) { (l.userId, l.postId, l.postType) }
  function FollowKey(f: Follow): (Id, Id) { (f.followerId, f.followingId) }
  function MarkKey(m: Mark): (Id, Id) { (m.userId, m.postId) }
  function ReportKey(r: Report): (Id, Id, string) { (r.userId, r.targetId, r.targetType) }

  function LikesOn(p: Id): Like -> bool { (l: Like) => l.postId == p }
  function CommentsOn(p: Id): Comment -> bool { (c: Comment) => c.postId == p }

  /** `post.like` and `post.comment` are the numbers of like and comment rows on the post. */
  ghost predicate CountersOk(posts: map<Id, Post>, likes: map<Id, Like>, comments: map<Id, Comment>)
  {
    forall p :: p in posts ==> posts[p].like == Count(likes, LikesOn(p)) && posts[p].comment == Count(comments, CommentsOn(p))
  }

  /** A new like on a post and the post's `like` counter up by one keep the counters right. */
  lemma LikeAdded(posts: map<Id, Post>, likes: map<Id, Like>, comments: map<Id, Comment>, n: Id, v: Like)
    requires CountersOk(posts, likes, comments) && n !in likes && v.postId in posts
    ensures CountersOk(posts[v.postId := posts[v.postId].(like := posts[v.postId].like + 1)], likes[n := v], comments)
  {
    forall q | q in posts ensures Count(likes[n := v], LikesOn(q)) == Count(likes, LikesOn(q)) + (if q == v.postId then 1 else 0) {
      CountInsert(likes, n, v, LikesOn(q));
    }
  }

  /** A like removed and its post's `like` counter down by one keep the counters right. */
  lemma LikeRemoved(posts: map<Id, Post>, likes: map<Id, Like>, comments: map<Id, Comment>, k: Id)
    requires CountersOk(posts, likes, comments) && k in likes && likes[k].postId in posts
    ensures var p := likes[k].postId;
      CountersOk(posts[p := posts[p].(like := posts[p].like - 1)], likes - {k}, comments)
  {
    forall q | q in posts ensures Count(likes - {k}, LikesOn(q)) == Count(likes, LikesOn(q)) - (if q == likes[k].postId then 1 else 0) {
      CountRemove(likes, k, LikesOn(q));
    }
  }

  /** A new comment on a post and the post's `comment` counter up by one keep the counters right. */
  lemma CommentAdded(posts: map<Id, Post>, likes: map<Id, Like>, comments: map<Id, Comment>, n: Id, v: Comment)
    requires CountersOk(posts, likes, comments) && n !in comments && v.postId in posts
    ensures CountersOk(posts[v.postId := posts[v.postId].(comment := posts[v.postId].comment + 1)], likes, comments[n := v])
  {
    forall q | q in posts ensures Count(comments[n := v], CommentsOn(q)) == Count(comments, CommentsOn(q)) + (if q == v.postId then 1 else 0) {
      CountInsert(comments, n, v, CommentsOn(q));
    }
  }

  /** A comment removed and its post's `comment` counter down by one keep the counters right. */
  lemma CommentRemoved(posts: map<Id, Post>, likes: map<Id, Like>, comments: map<Id, Comment>, k: Id)
    requires CountersOk(posts, likes, comments) && k in comments && comments[k].postId in posts
    ensures var p := comments[k].postId;
      CountersOk(posts[p := posts[p].(comment := posts[p].comment - 1)], likes, comments - {k})
  {
    forall q | q in posts
      ensures Count(comments - {k}, CommentsOn(q)) == Count(comments, CommentsOn(q)) - (if q == comments[k].postId then 1 else 0)
    {
      CountRemove(comments, k, CommentsOn(q));
    }
  }

  /** A comment whose text changes still counts towards the same post. */
  lemma CommentEdited(posts: map<Id, Post>, likes: map<Id, Like>, comments: map<Id, Comment>, k: Id, content: string)
    requires CountersOk(posts, likes, comments) && k in comments
    ensures CountersOk(posts, likes, comments[k := comments[k].(content := content)])
  {
    forall q | q in posts ensures Count(comments[k := comments[k].(content := content)], CommentsOn(q)) == Count(comments, CommentsOn(q)) {
      CountReplace(comments, k, comments[k].(content := content), CommentsOn(q));
    }
  }

  /** A new post with zero counters, under an id no like or comment mentions, keeps the counters right. */
  lemma PostAdded(posts: map<Id, Post>, likes: map<Id, Like>, comments: map<Id, Comment>, n: Id, v: Post)
    requires CountersOk(posts, likes, comments) && v.like == 0 && v.comment == 0
    requires forall i :: i in likes ==> likes[i].postId != n
    requires forall i :: i in comments ==> comments[i].postId != n
    ensures CountersOk(posts[n := v], likes, comments)
  {
    assert Matching(likes, LikesOn(n)) == {};
    assert Matching(comments, CommentsOn(n)) == {};
  }

  /** Every row id is below `nextId` and every post's author exists. */
  ghost predicate ShapeOk(db: Db)
  {
    Bounded(db.posts, db.nextId) && Bounded(db.likes, db.nextId) && Bounded(db.comments, db.nextId)
    && Bounded(db.follows, db.nextId) && Bounded(db.ledger, db.nextId) && Bounded(db.saves, db.nextId)
    && Bounded(db.hides, db.nextId) && Bounded(db.reports, db.nextId)
    && (forall p :: p in db.posts ==> db.posts[p].userId in db.users)
  }

  /** Likes and comments name only post ids already issued (the post itself may since have been deleted). */
  ghost predicate RefsOk(db: Db)
  {
    (forall i :: i in db.likes ==> db.likes[i].postId < db.nextId)
    && (forall i :: i in db.comments ==> db.comments[i].postId < db.nextId)
  }

  /** The schema's compound unique keys. */
  ghost predicate KeysOk(db: Db)
  {
    UniqueKey(db.likes, LikeKey) && UniqueKey(db.follows, FollowKey)
    && UniqueKey(db.saves, MarkKey) && UniqueKey(db.hides, MarkKey) && UniqueKey(db.reports, ReportKey)
  }

  ghost predicate DbOk(db: Db)
  {
    ShapeOk(db) && RefsOk(db) && KeysOk(db) && CountersOk(db.posts, db.likes, db.comments)
  }

  // ---------------------------------------------------------------------------
  // The ledger

  /** The sum of the points of the ledger rows of user `u` with ids below `n`. */
  function Points(ledger: map<Id, UserPoint>, n: nat, u: Id): int
  {
    if n == 0 then 0
    else Points(ledger, n - 1, u) + (if n - 1 in ledger && ledger[n - 1].userId == u then ledger[n - 1].points else 0)
  }

  /** Ledgers that agree below `n` have the same sums there. */
  lemma {:induction false} PointsAgree(a: map<Id, UserPoint>, b: map<Id, UserPoint>, n: nat, u: Id)
    requires forall i :: i < n ==> (i in a <==> i in b) && (i in a ==> a[i] == b[i])
    ensures Points(a, n, u) == Points(b, n, u)
  {
    if n > 0 {
      PointsAgree(a, b, n - 1, u);
    }
  }

  /** Rows at or above `n` do not count below `n`. */
  lemma {:induction false} PointsBeyond(ledger: map<Id, UserPoint>, n: nat, n': nat, u: Id)
    requires Bounded(ledger, n) && n <= n'
    ensures Points(ledger, n', u) == Points(ledger, n, u)
    decreases n' - n
  {
    if n' > n {
      PointsBeyond(ledger, n, n' - 1, u);
    }
  }

  /** Appending a row at the next id adds its points to its user's sum. */
  lemma Append(ledger: map<Id, UserPoint>, n: nat, row: UserPoint, u: Id)
    requires Bounded(ledger, n)
    ensures Points(ledger[n := row], n + 1, u) == Points(ledger, n, u) + (if row.userId == u then row.points else 0)
  {
    PointsAgree(ledger[n := row], ledger, n, u);
  }

  /**
   * Every change in a user's `totalPoints` between two states is matched
   * by the ledger rows written in between.
   */
  ghost predicate LedgerTracks(db: Db, db': Db)
  {
    db'.users.Keys == db.users.Keys
    && forall u :: u in db.users ==>
      db'.users[u].totalPoints - db.users[u].totalPoints == Points(db'.ledger, db'.nextId, u) - Points(db.ledger, db.nextId, u)
  }

  /** The ledger grows by rows whose points sum to `credit` for `who` and to zero for everyone else. */
  ghost predicate Credited(db: Db, db': Db, who: Id, credit: int)
  {
    forall u :: Points(db'.ledger, db'.nextId, u) == Points(db.ledger, db.nextId, u) + (if u == who then credit else 0)
  }

  /** The user row `u` with `delta` added to its `totalPoints`. */
  function AddPoints(users: map<Id, User>, u: Id, delta: int): (users': map<Id, User>)
    requires u in users
    ensures users'.Keys == users.Keys
    ensures users'[u].totalPoints == users[u].totalPoints + delta
    ensures users'[u].likeCount == users[u].likeCount && users'[u].commentCount == users[u].commentCount
    ensures forall v :: v in users && v != u ==> users'[v] == users[v]
  {
    users[u := users[u].(totalPoints := users[u].totalPoints + delta)]
  }

  /** A state change that credits `credit` to `who` in both the user row and the ledger keeps them in step. */
  lemma TracksByCredit(db: Db, db': Db, who: Id, credit: int)
    requires who in db.users && db'.users.Keys == db.users.Keys
    requires db'.users[who].totalPoints == db.users[who].totalPoints + credit
    requires forall v :: v in db.users && v != who ==> db'.users[v].totalPoints == db.users[v].totalPoints
    requires Credited(db, db', who, credit)
    ensures LedgerTracks(db, db')
  {
  }

  /** Keeping in step composes over consecutive state changes. */
  lemma TracksCompose(db: Db, db': Db, db'': Db)
    requires LedgerTracks(db, db') && LedgerTracks(db', db'')
    ensures LedgerTracks(db, db'')
  {
  }
}

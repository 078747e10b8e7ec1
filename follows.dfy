/**
 * Follows: following someone credits the followed user five points (and a
 * ledger row); unfollowing removes only the follow row. The queries list
 * followers and followees, count them, and intersect two users' followers.
 */
module Follows {

  import opened Outcomes
  import opened Tables
  import opened SocialDb
  import Listing

  const FollowPoints: int := 5

  /** `findUnique` on the `(followerId, followingId)` key. */
  function FindFollow(db: Db, f: Id, t: Id): (r: Option<Id>)
    ensures r.Some? ==> r.value in db.follows && r.value < db.nextId && FollowKey(db.follows[r.value]) == (f, t)
    ensures r.None? ==> forall i :: i in db.follows && i < db.nextId ==> FollowKey(db.follows[i]) != (f, t)
  {
    FindFirst(db.follows, db.nextId, (x: Follow) => FollowKey(x) == (f, t))
  }

  /** isFollowing. */
  function IsFollowing(db: Db, f: Id, t: Id): (b: bool)
    ensures b <==> exists i :: i in db.follows && i < db.nextId && FollowKey(db.follows[i]) == (f, t)
  {
    FindFollow(db, f, t).Some?
  }

  /** followUser's guards, in the order it runs them. */
  function FollowCheck(db: Db, f: Id, t: Id): (err: Option<Outcome<Id>>)
    ensures err.Some? ==> err.value.IsFailure()
    ensures err.None? <==> (f != t && f in db.users && t in db.users && !IsFollowing(db, f, t))
    ensures f == t ==> err == Some(BadRequest("You cannot follow yourself"))
    ensures f != t && f !in db.users ==> err == Some(NotFound("Follower user not found"))
    ensures f != t && f in db.users && t !in db.users ==> err == Some(NotFound("User to follow not found"))
    ensures (f != t && f in db.users && t in db.users && IsFollowing(db, f, t))
      ==> err == Some(Conflict("Already following this user"))
  {
    if f == t then Some(BadRequest("You cannot follow yourself"))
    else if f !in db.users then Some(NotFound("Follower user not found"))
    else if t !in db.users then Some(NotFound("User to follow not found"))
    else if IsFollowing(db, f, t) then Some(Conflict("Already following this user"))
    else None
  }

  /** The tables after followUser: the follow row (id `nextId`), +5 for the followed user and its ledger row. */
  function Followed(db: Db, f: Id, t: Id, now: int): Db
    requires t in db.users
  {
    var n := db.nextId;
    db.(follows := db.follows[n := Follow(f, t, now)],
        users := AddPoints(db.users, t, FollowPoints),
        ledger := db.ledger[n + 1 := UserPoint(t, None, ForFollow(n), FollowPoints)],
        nextId := n + 2)
  }

  function UnfollowCheck(db: Db, f: Id, t: Id): (err: Option<Outcome<bool>>)
    ensures err.Some? ==> err.value.IsFailure()
    ensures err.None? <==> IsFollowing(db, f, t)
    ensures !IsFollowing(db, f, t) ==> err == Some(NotFound("Follow relationship not found"))
  {
    if FindFollow(db, f, t).None? then Some(NotFound("Follow relationship not found")) else None
  }

  /** The tables after unfollowUser: the follow row is gone; points and ledger stay. */
  function Unfollowed(db: Db, f: Id, t: Id): Db
    requires IsFollowing(db, f, t)
  {
    db.(follows := db.follows - {FindFollow(db, f, t).value})
  }

  // ---------------------------------------------------------------------------
  // The invariant and the ledger

  lemma FollowShape(db: Db, f: Id, t: Id, now: int)
    requires ShapeOk(db) && RefsOk(db) && t in db.users
    ensures ShapeOk(Followed(db, f, t, now)) && RefsOk(Followed(db, f, t, now))
  {
  }

  lemma FollowKeys(db: Db, f: Id, t: Id, now: int)
    requires KeysOk(db) && Bounded(db.follows, db.nextId) && t in db.users && !IsFollowing(db, f, t)
    ensures KeysOk(Followed(db, f, t, now))
  {
    UniqueInsert(db.follows, db.nextId, Follow(f, t, now), FollowKey);
  }

  lemma FollowKeepsOk(db: Db, f: Id, t: Id, now: int)
    requires DbOk(db) && FollowCheck(db, f, t).None?
    ensures DbOk(Followed(db, f, t, now))
  {
    FollowShape(db, f, t, now);
    FollowKeys(db, f, t, now);
  }

  /** A follow credits the followed user five points, in the user row and in the ledger alike. */
  lemma FollowCredits(db: Db, f: Id, t: Id, now: int)
    requires Bounded(db.ledger, db.nextId) && t in db.users
    ensures var db' := Followed(db, f, t, now);
      Credited(db, db', t, FollowPoints) && LedgerTracks(db, db')
  {
    var db' := Followed(db, f, t, now);
    var n := db.nextId;
    forall w ensures Points(db'.ledger, db'.nextId, w) == Points(db.ledger, n, w) + (if w == t then FollowPoints else 0) {
      PointsBeyond(db.ledger, n, n + 1, w);
      Append(db.ledger, n + 1, db'.ledger[n + 1], w);
    }
    TracksByCredit(db, db', t, FollowPoints);
  }

  lemma UnfollowKeepsOk(db: Db, f: Id, t: Id)
    requires DbOk(db) && IsFollowing(db, f, t)
    ensures DbOk(Unfollowed(db, f, t))
  {
  }

  /** After a follow the pair is followed, and a second follow is refused. */
  lemma FollowOnce(db: Db, f: Id, t: Id, now: int)
    requires Bounded(db.follows, db.nextId) && FollowCheck(db, f, t).None?
    ensures var db' := Followed(db, f, t, now);
      IsFollowing(db', f, t) && FollowCheck(db', f, t) == Some(Conflict("Already following this user"))
  {
    var db' := Followed(db, f, t, now);
    FindFirstSees(db'.follows, db'.nextId, (x: Follow) => FollowKey(x) == (f, t), db.nextId);
  }

  /**
   * Following and then unfollowing gives back the follow table, but the
   * followed user keeps the five points and the ledger keeps their row, so
   * each cycle credits five more.
   */
  lemma FollowThenUnfollow(db: Db, f: Id, t: Id, now: int)
    requires Bounded(db.follows, db.nextId) && FollowCheck(db, f, t).None?
    ensures var db' := Followed(db, f, t, now);
      IsFollowing(db', f, t)
      && var db'' := Unfollowed(db', f, t);
      db''.follows == db.follows && !IsFollowing(db'', f, t)
      && db''.users[t].totalPoints == db.users[t].totalPoints + FollowPoints && db''.ledger == db'.ledger
  {
    var db' := Followed(db, f, t, now);
    var p := (x: Follow) => FollowKey(x) == (f, t);
    FindFirstSees(db'.follows, db'.nextId, p, db.nextId);
    assert FindFollow(db', f, t) == Some(db.nextId);
    assert db'.follows - {db.nextId} == db.follows;
  }

  // ---------------------------------------------------------------------------
  // Queries

  /** The follow rows naming `u` as the followed user (`ofFollowers`) or as the follower. */
  function Keyed(u: Id, ofFollowers: bool): Follow -> bool
  {
    (x: Follow) => if ofFollowers then x.followingId == u else x.followerId == u
  }

  /** The user at the other end of a follow row. */
  function Other(x: Follow, ofFollowers: bool): Id
  {
    if ofFollowers then x.followerId else x.followingId
  }

  /** The other ends of the listed rows, in listing order. */
  function Ends(follows: map<Id, Follow>, rows: seq<Id>, ofFollowers: bool): (r: seq<Id>)
    requires forall k :: 0 <= k < |rows| ==> rows[k] in follows
    ensures |r| == |rows|
    ensures forall k :: 0 <= k < |r| ==> r[k] == Other(follows[rows[k]], ofFollowers)
  {
    if rows == [] then [] else [Other(follows[rows[0]], ofFollowers)] + Ends(follows, rows[1..], ofFollowers)
  }

  /** `orderBy: { createdAt: 'desc' }` reads a follow's creation time. */
  function FollowDate(x: Follow): int { x.createdAt }

  /** The follow rows naming `u` on the listed side, newest first. */
  function FollowRows(db: Db, u: Id, ofFollowers: bool): seq<Id>
  {
    Listing.ByDate(db.follows, db.nextId, Keyed(u, ofFollowers), FollowDate, true)
  }

  /** getMyFollowers / getMeFollowing without the user check: newest follow first. */
  function FollowList(db: Db, u: Id, ofFollowers: bool): seq<Id>
  {
    Ends(db.follows, FollowRows(db, u, ofFollowers), ofFollowers)
  }

  /** With the `(followerId, followingId)` key unique, nobody is listed twice. */
  lemma FollowListDistinct(db: Db, u: Id, ofFollowers: bool)
    requires UniqueKey(db.follows, FollowKey)
    ensures var r := FollowList(db, u, ofFollowers); forall a, b :: 0 <= a < b < |r| ==> r[a] != r[b]
  {
    var rows := FollowRows(db, u, ofFollowers);
    var r := FollowList(db, u, ofFollowers);
    forall a, b | 0 <= a < b < |r| ensures r[a] != r[b] {
      assert rows[a] != rows[b] && rows[a] in db.follows && rows[b] in db.follows;
      assert FollowKey(db.follows[rows[a]]) != FollowKey(db.follows[rows[b]]);
      assert Keyed(u, ofFollowers)(db.follows[rows[a]]) && Keyed(u, ofFollowers)(db.follows[rows[b]]);
    }
  }

  /** Someone is on a user's list exactly when the follow row exists. */
  lemma FollowListIff(db: Db, u: Id, ofFollowers: bool, x: Id)
    ensures x in FollowList(db, u, ofFollowers)
      <==> (if ofFollowers then IsFollowing(db, x, u) else IsFollowing(db, u, x))
  {
    var p := Keyed(u, ofFollowers);
    var rows := FollowRows(db, u, ofFollowers);
    var r := FollowList(db, u, ofFollowers);
    var key := if ofFollowers then (x, u) else (u, x);
    if x in r {
      var k :| 0 <= k < |r| && r[k] == x;
      FindFirstSees(db.follows, db.nextId, (y: Follow) => FollowKey(y) == key, rows[k]);
    }
    if FindFollow(db, key.0, key.1).Some? {
      var j := FindFollow(db, key.0, key.1).value;
      assert j in rows;
      var k :| 0 <= k < |rows| && rows[k] == j;
      assert r[k] == x;
    }
  }

  /** getMyFollowers: exactly the users that follow `u`. */
  function Followers(db: Db, u: Id): (r: Outcome<seq<Id>>)
    ensures u !in db.users <==> r == NotFound("User not found")
    ensures r.Ok? ==> forall x :: x in r.value <==> IsFollowing(db, x, u)
    ensures r.Ok? ==> |r.value| == |FollowRows(db, u, true)|
    ensures r.Ok? ==> forall k :: 0 <= k < |r.value| ==> r.value[k] == db.follows[FollowRows(db, u, true)[k]].followerId
  {
    if u !in db.users then NotFound("User not found")
    else
      assert forall x :: x in FollowList(db, u, true) <==> IsFollowing(db, x, u) by {
        forall x { FollowListIff(db, u, true, x); }
      }
      Ok(FollowList(db, u, true))
  }

  /** getMeFollowing: exactly the users `u` follows. */
  function Following(db: Db, u: Id): (r: Outcome<seq<Id>>)
    ensures u !in db.users <==> r == NotFound("User not found")
    ensures r.Ok? ==> forall x :: x in r.value <==> IsFollowing(db, u, x)
    ensures r.Ok? ==> |r.value| == |FollowRows(db, u, false)|
    ensures r.Ok? ==> forall k :: 0 <= k < |r.value| ==> r.value[k] == db.follows[FollowRows(db, u, false)[k]].followingId
  {
    if u !in db.users then NotFound("User not found")
    else
      assert forall x :: x in FollowList(db, u, false) <==> IsFollowing(db, u, x) by {
        forall x { FollowListIff(db, u, false, x); }
      }
      Ok(FollowList(db, u, false))
  }

  datatype FollowCounts = FollowCounts(userId: Id, followersCount: nat, followingCount: nat)

  /** getFollowCounts. */
  function Counts(db: Db, u: Id): (r: Outcome<FollowCounts>)
    ensures u !in db.users <==> r == NotFound("User not found")
    ensures r.Ok? ==> r.value.userId == u
  {
    if u !in db.users then NotFound("User not found")
    else Ok(FollowCounts(u, Count(db.follows, Keyed(u, true)), Count(db.follows, Keyed(u, false))))
  }

  /** The follower list is as long as the follower count says. */
  lemma ListsMatchCounts(db: Db, u: Id)
    requires Bounded(db.follows, db.nextId) && u in db.users
    ensures |Followers(db, u).value| == Counts(db, u).value.followersCount
    ensures |Following(db, u).value| == Counts(db, u).value.followingCount
  {
    IdsBelowCount(db.follows, db.nextId, Keyed(u, true));
    IdsBelowCount(db.follows, db.nextId, Keyed(u, false));
  }

  /** A follow adds one to the followed user's followers and to the follower's followees, and to no one else's. */
  lemma FollowCounted(db: Db, f: Id, t: Id, now: int, u: Id)
    requires Bounded(db.follows, db.nextId) && t in db.users && u in db.users
    ensures var c := Counts(db, u).value; var c' := Counts(Followed(db, f, t, now), u).value;
      c'.followersCount == c.followersCount + (if u == t then 1 else 0)
      && c'.followingCount == c.followingCount + (if u == f then 1 else 0)
  {
    CountInsert(db.follows, db.nextId, Follow(f, t, now), Keyed(u, true));
    CountInsert(db.follows, db.nextId, Follow(f, t, now), Keyed(u, false));
  }

  /** An unfollow takes one from each side's count, and from no one else's. */
  lemma UnfollowCounted(db: Db, f: Id, t: Id, u: Id)
    requires IsFollowing(db, f, t) && u in db.users
    ensures var c := Counts(db, u).value; var c' := Counts(Unfollowed(db, f, t), u).value;
      c'.followersCount == c.followersCount - (if u == t then 1 else 0)
      && c'.followingCount == c.followingCount - (if u == f then 1 else 0)
  {
    var k := FindFollow(db, f, t).value;
    CountRemove(db.follows, k, Keyed(u, true));
    CountRemove(db.follows, k, Keyed(u, false));
  }

  /** getMutualFollowers: the existing users who follow both. */
  function Mutual(db: Db, u: Id, o: Id): (r: Outcome<set<Id>>)
    ensures u !in db.users <==> r == NotFound("User not found")
    ensures u in db.users && o !in db.users <==> r == NotFound("Other user not found")
  {
    if u !in db.users then NotFound("User not found")
    else if o !in db.users then NotFound("Other user not found")
    else
      var mine := FollowList(db, u, true);
      var theirs := FollowList(db, o, true);
      Ok(set x | x in db.users && x in theirs && x in mine)
  }

  /** A mutual follower is an existing user following both, and every such user is listed. */
  lemma MutualIff(db: Db, u: Id, o: Id, x: Id)
    requires u in db.users && o in db.users
    ensures x in Mutual(db, u, o).value <==> x in db.users && IsFollowing(db, x, u) && IsFollowing(db, x, o)
  {
    FollowListIff(db, u, true, x);
    FollowListIff(db, o, true, x);
  }

  /** The mutual followers of two users do not depend on which is asked first. */
  lemma MutualSymmetric(db: Db, u: Id, o: Id)
    requires u in db.users && o in db.users
    ensures Mutual(db, u, o).value == Mutual(db, o, u).value
  {
    forall x ensures x in Mutual(db, u, o).value <==> x in Mutual(db, o, u).value {
      MutualIff(db, u, o, x);
      MutualIff(db, o, u, x);
    }
  }
}

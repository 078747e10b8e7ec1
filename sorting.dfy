/**
 * Ordering of query results. Prisma `orderBy` and JavaScript's
 * `Array.prototype.sort` both arrange rows by a comparator; here that is a
 * stable insertion sort under a total preorder `le` ("may come before").
 */
module Sorting {

  ghost predicate TotalPreorder<T(!new)>(le: (T, T) -> bool)
  {
    (forall a, b :: le(a, b) || le(b, a))
    && (forall a, b, c :: le(a, b) && le(b, c) ==> le(a, c))
  }

  /** No two different values are each allowed before the other. */
  ghost predicate Antisymmetric<T(!new)>(le: (T, T) -> bool)
  {
    forall a, b :: le(a, b) && le(b, a) ==> a == b
  }

  ghost predicate SortedBy<T(!new)>(s: seq<T>, le: (T, T) -> bool)
  {
    forall i, j :: 0 <= i < j < |s| ==> le(s[i], s[j])
  }

  function Insert<T(!new)>(x: T, s: seq<T>, le: (T, T) -> bool): (r: seq<T>)
    requires TotalPreorder(le) && SortedBy(s, le)
    ensures SortedBy(r, le)
    ensures multiset(r) == multiset(s) + multiset{x}
    ensures forall y :: y in r <==> y == x || y in s
  {
    if s == [] then [x]
    else if le(x, s[0]) then [x] + s
    else
      var t := Insert(x, s[1..], le);
      assert s == [s[0]] + s[1..];
      assert forall y :: y in t ==> le(s[0], y);
      [s[0]] + t
  }

  /** The rows of `s` arranged by `le`. */
  function SortBy<T(!new)>(s: seq<T>, le: (T, T) -> bool): (r: seq<T>)
    requires TotalPreorder(le)
    ensures SortedBy(r, le)
    ensures multiset(r) == multiset(s)
    ensures |r| == |s|
  {
    if s == [] then []
    else
      assert s == [s[0]] + s[1..];
      Insert(s[0], SortBy(s[1..], le), le)
  }

  /** The first element of `s` that no other element must precede (a fold for the best row). */
  function Best<T(!new)>(s: seq<T>, le: (T, T) -> bool): (m: T)
    requires |s| > 0 && TotalPreorder(le)
    ensures m in s
    ensures forall y :: y in s ==> le(m, y)
  {
    if |s| == 1 then s[0]
    else
      var m := Best(s[1..], le);
      assert s == [s[0]] + s[1..];
      if le(s[0], m) then s[0] else m
  }

  /** Under an antisymmetric order the head of the sorted rows is the best row. */
  lemma {:induction false} HeadIsBest<T(!new)>(s: seq<T>, le: (T, T) -> bool)
    requires |s| > 0 && TotalPreorder(le) && Antisymmetric(le)
    ensures SortBy(s, le)[0] == Best(s, le)
  {
    var r := SortBy(s, le);
    var m := Best(s, le);
    assert r[0] in multiset(s);
    assert m in multiset(r);
    var k :| 0 <= k < |r| && r[k] == m;
    assert le(r[0], m);
  }

  /**
   * The order every `orderBy` of the services reduces to: rows ranked by a
   * pair of integers compared lexicographically (a descending column is
   * ranked by its negation), remaining ties broken by ascending id.
   */
  predicate RankBefore(a: (int, int), b: (int, int), i: nat, j: nat)
  {
    a.0 < b.0 || (a.0 == b.0 && (a.1 < b.1 || (a.1 == b.1 && i <= j)))
  }

  function ByRank(rank: nat -> (int, int)): (nat, nat) -> bool
  {
    (i: nat, j: nat) => RankBefore(rank(i), rank(j), i, j)
  }

  lemma ByRankIsOrder(rank: nat -> (int, int))
    ensures TotalPreorder(ByRank(rank)) && Antisymmetric(ByRank(rank))
  {
  }

  /** Ids arranged by rank; the result is a permutation of the input. */
  function SortByRank(ids: seq<nat>, rank: nat -> (int, int)): (r: seq<nat>)
    ensures multiset(r) == multiset(ids) && |r| == |ids|
    ensures forall a, b :: 0 <= a < b < |r| ==> RankBefore(rank(r[a]), rank(r[b]), r[a], r[b])
  {
    ByRankIsOrder(rank);
    var r := SortBy(ids, ByRank(rank));
    assert forall a, b :: 0 <= a < b < |r| ==> ByRank(rank)(r[a], r[b]);
    r
  }

  /** The best-ranked id, as a `findFirst` under the same order picks it. */
  function BestByRank(ids: seq<nat>, rank: nat -> (int, int)): (m: nat)
    requires |ids| > 0
    ensures m in ids
  {
    if |ids| == 1 then ids[0]
    else
      var m := BestByRank(ids[1..], rank);
      if RankBefore(rank(ids[0]), rank(m), ids[0], m) then ids[0] else m
  }

  /** BestByRank is the generic best row under the rank order. */
  lemma {:induction false} BestByRankIsBest(ids: seq<nat>, rank: nat -> (int, int))
    requires |ids| > 0
    ensures TotalPreorder(ByRank(rank)) && BestByRank(ids, rank) == Best(ids, ByRank(rank))
  {
    ByRankIsOrder(rank);
    if |ids| > 1 {
      BestByRankIsBest(ids[1..], rank);
    }
  }

  /** No id is ranked strictly before the best-ranked one. */
  lemma BestByRankWins(ids: seq<nat>, rank: nat -> (int, int), y: nat)
    requires y in ids
    ensures RankBefore(rank(BestByRank(ids, rank)), rank(y), BestByRank(ids, rank), y)
  {
    BestByRankIsBest(ids, rank);
    assert ByRank(rank)(Best(ids, ByRank(rank)), y);
  }

  /** The head of the ranked ids is the best-ranked id. */
  lemma HeadIsBestByRank(ids: seq<nat>, rank: nat -> (int, int))
    requires |ids| > 0
    ensures SortByRank(ids, rank)[0] == BestByRank(ids, rank)
  {
    ByRankIsOrder(rank);
    BestByRankIsBest(ids, rank);
    HeadIsBest(ids, ByRank(rank));
  }
}

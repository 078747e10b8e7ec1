/**
 * `findMany` with `orderBy`, `skip` and `take`, and the `{ data, meta }`
 * page the list endpoints return.
 */
module Listing {

  import opened Tables
  import Sorting
  import Paging

  /** `findMany({ where, orderBy })`: every row below `next` satisfying `p`, in rank order. */
  function FindMany<T>(m: map<Id, T>, next: Id, p: T -> bool, rank: nat -> (int, int)): (r: seq<Id>)
    ensures forall i :: i in r <==> i < next && i in m && p(m[i])
    ensures forall a, b :: 0 <= a < b < |r| ==> Sorting.RankBefore(rank(r[a]), rank(r[b]), r[a], r[b])
    ensures |r| == |IdsBelow(m, next, p)|
    ensures forall a, b :: 0 <= a < b < |r| ==> r[a] != r[b]
  {
    var ids := IdsBelow(m, next, p);
    var r := Sorting.SortByRank(ids, rank);
    assert forall i :: i in r <==> i in multiset(r);
    assert forall i :: i in ids <==> i in multiset(ids);
    PermutationDistinct(r, ids);
    r
  }

  /** `findMany({ where, orderBy, skip, take })`: a window of the ranked rows, still in rank order. */
  function FindPage<T>(m: map<Id, T>, next: Id, p: T -> bool, rank: nat -> (int, int), skip: nat, take: nat): (r: seq<Id>)
    ensures |r| <= take
    ensures forall k :: 0 <= k < |r| ==> r[k] < next && r[k] in m && p(m[r[k]])
    ensures forall a, b :: 0 <= a < b < |r| ==> Sorting.RankBefore(rank(r[a]), rank(r[b]), r[a], r[b])
    ensures r == Paging.Window(FindMany(m, next, p, rank), skip, take)
  {
    var all := FindMany(m, next, p, rank);
    var r := Paging.Window(all, skip, take);
    forall a, b | 0 <= a < b < |r| ensures Sorting.RankBefore(rank(r[a]), rank(r[b]), r[a], r[b]) {
      assert r[a] == all[skip + a] && r[b] == all[skip + b];
    }
    assert forall k :: 0 <= k < |r| ==> r[k] in all;
    r
  }

  /**
   * `take` from the top: a matching row missing from the first page is only
   * missing because the page is full of rows ranked at least as high.
   */
  lemma FirstPageIsTop<T>(m: map<Id, T>, next: Id, p: T -> bool, rank: nat -> (int, int), take: nat, i: Id)
    requires i < next && i in m && p(m[i])
    requires i !in FindPage(m, next, p, rank, 0, take)
    ensures |FindPage(m, next, p, rank, 0, take)| == take
    ensures var r := FindPage(m, next, p, rank, 0, take);
      forall k :: 0 <= k < |r| ==> Sorting.RankBefore(rank(r[k]), rank(i), r[k], i)
  {
    var all := FindMany(m, next, p, rank);
    var r := FindPage(m, next, p, rank, 0, take);
    var j :| 0 <= j < |all| && all[j] == i;
    forall k | 0 <= k < |r| ensures Sorting.RankBefore(rank(r[k]), rank(i), r[k], i) {
      assert r[k] == all[k];
    }
  }

  /** The listing has as many rows as `count` with the same filter reports. */
  lemma FindManyCount<T>(m: map<Id, T>, next: Id, p: T -> bool, rank: nat -> (int, int))
    requires Bounded(m, next)
    ensures |FindMany(m, next, p, rank)| == Count(m, p)
  {
    IdsBelowCount(m, next, p);
  }

  /** Newest first: `orderBy: { createdAt: 'desc' }`. */
  function NewestFirst<T>(m: map<Id, T>, createdAt: T -> int): nat -> (int, int)
  {
    (i: nat) => if i in m then (-createdAt(m[i]), 0) else (0, 0)
  }

  /** A page under `NewestFirst` lists newer rows before older ones. */
  lemma NewestPage<T>(m: map<Id, T>, next: Id, p: T -> bool, createdAt: T -> int, skip: nat, take: nat)
    ensures var r := FindPage(m, next, p, NewestFirst(m, createdAt), skip, take);
      forall a, b :: 0 <= a < b < |r| ==> r[a] in m && r[b] in m && createdAt(m[r[a]]) >= createdAt(m[r[b]])
  {
    var rank := NewestFirst(m, createdAt);
    var r := FindPage(m, next, p, rank, skip, take);
    forall a, b | 0 <= a < b < |r| ensures r[a] in m && r[b] in m && createdAt(m[r[a]]) >= createdAt(m[r[b]]) {
      assert Sorting.RankBefore(rank(r[a]), rank(r[b]), r[a], r[b]);
    }
  }

  /** Oldest first: `orderBy: { createdAt: 'asc' }`. */
  function OldestFirst<T>(m: map<Id, T>, createdAt: T -> int): nat -> (int, int)
  {
    (i: nat) => if i in m then (createdAt(m[i]), 0) else (0, 0)
  }

  datatype PageMeta = PageMeta(page: int, limit: int, total: nat, totalPages: nat)

  datatype Paged = Paged(meta: PageMeta, items: seq<Id>)

  /** Page `page` (from 1) of `limit` rows of an ordered listing, with its totals. */
  function Paginate(rows: seq<Id>, page: nat, limit: nat): (r: Paged)
    requires page >= 1 && limit >= 1
    ensures r.meta.page == page && r.meta.limit == limit && r.meta.total == |rows|
    ensures r.meta.totalPages == Paging.CeilDiv(|rows|, limit)
    ensures |r.items| <= limit
    ensures r.items == Paging.Window(rows, Paging.PageSkip(page, limit), limit)
    ensures forall k :: 0 <= k < |r.items| ==>
      Paging.PageSkip(page, limit) + k < |rows| && r.items[k] == rows[Paging.PageSkip(page, limit) + k]
  {
    Paged(PageMeta(page, limit, |rows|, Paging.CeilDiv(|rows|, limit)), Paging.Window(rows, Paging.PageSkip(page, limit), limit))
  }

  /** `orderBy: { createdAt }`, descending when `newest`, ascending otherwise. */
  function ByCreatedAt<T>(m: map<Id, T>, createdAt: T -> int, newest: bool): nat -> (int, int)
  {
    if newest then NewestFirst(m, createdAt) else OldestFirst(m, createdAt)
  }

  /** Dated rows `a` and `b` appear in this order under `ByCreatedAt`. */
  predicate InDateOrder(a: int, b: int, newest: bool)
  {
    if newest then a >= b else a <= b
  }

  /** `findMany({ where, orderBy: { createdAt } })`: every matching row, in date order. */
  function ByDate<T>(m: map<Id, T>, next: Id, p: T -> bool, createdAt: T -> int, newest: bool): (r: seq<Id>)
    ensures forall i :: i in r <==> i < next && i in m && p(m[i])
    ensures forall a, b :: 0 <= a < b < |r| ==> InDateOrder(createdAt(m[r[a]]), createdAt(m[r[b]]), newest)
    ensures |r| == |IdsBelow(m, next, p)|
    ensures forall a, b :: 0 <= a < b < |r| ==> r[a] != r[b]
  {
    FindMany(m, next, p, ByCreatedAt(m, createdAt, newest))
  }

  /** One page of `ByDate`, with the total of the same filter and the page count. */
  function PageByDate<T>(m: map<Id, T>, next: Id, p: T -> bool, createdAt: T -> int, newest: bool, page: nat, limit: nat)
    : (r: Paged)
    requires page >= 1 && limit >= 1
    ensures r == Paginate(ByDate(m, next, p, createdAt, newest), page, limit)
    ensures r.meta.total == |IdsBelow(m, next, p)| && r.meta.totalPages == Paging.CeilDiv(r.meta.total, limit)
    ensures |r.items| <= limit
    ensures forall k :: 0 <= k < |r.items| ==> r.items[k] < next && r.items[k] in m && p(m[r.items[k]])
    ensures forall a, b :: 0 <= a < b < |r.items| ==> InDateOrder(createdAt(m[r.items[a]]), createdAt(m[r.items[b]]), newest)
  {
    var rows := ByDate(m, next, p, createdAt, newest);
    ByDateWindow(m, next, p, createdAt, newest, Paging.PageSkip(page, limit), limit);
    Paginate(rows, page, limit)
  }

  /** A window of `ByDate` keeps its filter and its date order. */
  lemma ByDateWindow<T>(m: map<Id, T>, next: Id, p: T -> bool, createdAt: T -> int, newest: bool, skip: nat, take: nat)
    ensures var w := Paging.Window<Id>(ByDate(m, next, p, createdAt, newest), skip, take);
      (forall k :: 0 <= k < |w| ==> w[k] < next && w[k] in m && p(m[w[k]]))
      && forall a, b :: 0 <= a < b < |w| ==> InDateOrder(createdAt(m[w[a]]), createdAt(m[w[b]]), newest)
  {
    var rows := ByDate(m, next, p, createdAt, newest);
    var w := Paging.Window<Id>(rows, skip, take);
    assert forall k :: 0 <= k < |w| ==> w[k] in rows;
    forall a, b | 0 <= a < b < |w|
      ensures InDateOrder(createdAt(m[w[a]]), createdAt(m[w[b]]), newest)
    {
      assert w[a] == rows[skip + a] && w[b] == rows[skip + b];
    }
  }

  /** Whatever the page size, every row `ByDate` lists is on exactly one page of `PageByDate`. */
  lemma PageByDateCovers<T>(m: map<Id, T>, next: Id, p: T -> bool, createdAt: T -> int, newest: bool, limit: nat, i: Id)
    requires limit >= 1 && i < next && i in m && p(m[i])
    ensures exists page: nat :: page >= 1 && i in PageByDate(m, next, p, createdAt, newest, page, limit).items
    ensures forall p1: nat, p2: nat ::
      (p1 >= 1 && p2 >= 1 && i in PageByDate(m, next, p, createdAt, newest, p1, limit).items
       && i in PageByDate(m, next, p, createdAt, newest, p2, limit).items) ==> p1 == p2
  {
    var rows := ByDate(m, next, p, createdAt, newest);
    Paging.PagesPartition(rows, limit, i);
    var page: nat :| page >= 1 && i in Paging.Window(rows, Paging.PageSkip(page, limit), limit);
    assert i in PageByDate(m, next, p, createdAt, newest, page, limit).items;
  }
}

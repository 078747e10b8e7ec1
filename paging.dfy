/**
 * The paging arithmetic shared by the list endpoints: Prisma `skip`/`take`
 * windows, `(page - 1) * limit` offsets, `Math.ceil(total / limit)` page
 * counts and the `Math.min(Math.max(v, lo), hi)` clamps.
 */
module Paging {

  function Min(a: int, b: int): int { if a <= b then a else b }
  function Max(a: int, b: int): int { if a >= b then a else b }

  /** `Math.min(Math.max(v, lo), hi)`. */
  function Clamp(v: int, lo: int, hi: int): (r: int)
    requires lo <= hi
    ensures lo <= r <= hi
    ensures lo <= v <= hi ==> r == v
    ensures v < lo ==> r == lo
    ensures v > hi ==> r == hi
  {
    Min(Max(v, lo), hi)
  }

  /** `Math.ceil(total / limit)`: the least number of pages of `limit` rows holding `total` rows. */
  function CeilDiv(total: nat, limit: nat): (pages: nat)
    requires limit > 0
    ensures pages * limit >= total
    ensures pages == 0 || (pages - 1) * limit < total
  {
    var q := total / limit;
    var rem := total % limit;
    assert total == q * limit + rem;
    if rem == 0 then q
    else
      assert (q + 1) * limit == q * limit + limit;
      q + 1
  }

  /** The `skip` of page `page` (counted from 1). */
  function PageSkip(page: nat, limit: nat): (skip: nat)
    requires page >= 1
  {
    (page - 1) * limit
  }

  /** Prisma `skip`/`take` over an ordered result. */
  function Window<T>(s: seq<T>, skip: nat, take: nat): (r: seq<T>)
    ensures |r| <= take
    ensures forall i :: 0 <= i < |r| ==> skip + i < |s| && r[i] == s[skip + i]
    ensures |r| == take || skip + |r| >= |s|
  {
    if skip >= |s| then []
    else if skip + take >= |s| then s[skip..]
    else s[skip..skip + take]
  }

  /** Two adjacent windows make one larger window. */
  lemma WindowSplit<T>(s: seq<T>, skip: nat, a: nat, b: nat)
    ensures Window(s, skip, a) + Window(s, skip + a, b) == Window(s, skip, a + b)
  {
  }

  /**
   * `totalPages = Math.ceil(total / limit)` counts exactly the pages that
   * hold at least one row: page p is non-empty iff 1 <= p <= totalPages.
   */
  lemma NonEmptyPages<T>(s: seq<T>, limit: nat, page: nat)
    requires limit > 0 && page >= 1
    ensures Window(s, PageSkip(page, limit), limit) != [] <==> page <= CeilDiv(|s|, limit)
  {
    var pages := CeilDiv(|s|, limit);
    var skip := PageSkip(page, limit);
    if page <= pages {
      MulMono(page - 1, pages - 1, limit);
    } else {
      MulMono(pages, page - 1, limit);
    }
  }

  /**
   * Paging a listing without repeats: every row of it lies on exactly one
   * page `page >= 1` of `limit` rows.
   */
  lemma PagesPartition<T>(s: seq<T>, limit: nat, x: T)
    requires limit >= 1
    requires forall a, b :: 0 <= a < b < |s| ==> s[a] != s[b]
    requires x in s
    ensures exists page: nat :: page >= 1 && x in Window(s, PageSkip(page, limit), limit)
    ensures forall p1: nat, p2: nat :: (p1 >= 1 && p2 >= 1 && x in Window(s, PageSkip(p1, limit), limit)
                                        && x in Window(s, PageSkip(p2, limit), limit)) ==> p1 == p2
  {
    var i :| 0 <= i < |s| && s[i] == x;
    var page: nat := i / limit + 1;
    IndexOnPage(s, limit, i);
    assert page >= 1 && x in Window(s, PageSkip(page, limit), limit);
    forall p1: nat, p2: nat | p1 >= 1 && p2 >= 1 && x in Window(s, PageSkip(p1, limit), limit)
      && x in Window(s, PageSkip(p2, limit), limit)
      ensures p1 == p2
    {
      OnOnePage(s, limit, x, p1, p2);
    }
  }

  /** Row `i` lies on page `i / limit + 1`. */
  lemma IndexOnPage<T>(s: seq<T>, limit: nat, i: nat)
    requires limit >= 1 && i < |s|
    ensures s[i] in Window(s, PageSkip(i / limit + 1, limit), limit)
  {
    var q, r := i / limit, i % limit;
    assert i == q * limit + r;
    var w := Window(s, PageSkip(q + 1, limit), limit);
    assert PageSkip(q + 1, limit) == q * limit;
    assert w[r] == s[i];
  }

  /** A row of a listing without repeats is not on two different pages. */
  lemma OnOnePage<T>(s: seq<T>, limit: nat, x: T, p1: nat, p2: nat)
    requires limit >= 1
    requires forall a, b :: 0 <= a < b < |s| ==> s[a] != s[b]
    requires p1 >= 1 && p2 >= 1
    requires x in Window(s, PageSkip(p1, limit), limit) && x in Window(s, PageSkip(p2, limit), limit)
    ensures p1 == p2
  {
    var w1 := Window(s, PageSkip(p1, limit), limit);
    var w2 := Window(s, PageSkip(p2, limit), limit);
    var j1 :| 0 <= j1 < |w1| && w1[j1] == x;
    var j2 :| 0 <= j2 < |w2| && w2[j2] == x;
    assert s[PageSkip(p1, limit) + j1] == s[PageSkip(p2, limit) + j2];
    if p1 < p2 {
      SameOffsetSamePage(p1 - 1, p2 - 1, j1, j2, limit);
    } else if p2 < p1 {
      SameOffsetSamePage(p2 - 1, p1 - 1, j2, j1, limit);
    }
  }

  /** An offset below `limit` never reaches the next page. */
  lemma SameOffsetSamePage(a: nat, b: nat, ja: nat, jb: nat, limit: nat)
    requires a < b && ja < limit && jb < limit
    ensures a * limit + ja != b * limit + jb
  {
    MulMono(a + 1, b, limit);
    assert (a + 1) * limit == a * limit + limit;
  }

  lemma MulMono(a: nat, b: nat, c: nat)
    requires a <= b
    ensures a * c <= b * c
  {
  }
}

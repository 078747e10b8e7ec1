/**
 * The hashtag catalogue: tags created by an admin in normal form, the
 * public listings by usage, and the post-time check that connects a post's
 * tags and counts their use.
 */
module Hashtags {

  import opened Outcomes
  import opened Tables
  import Text
  import Listing
  import Paging
  import Sorting

  datatype Hashtag = Hashtag(
    tag: string,
    description: Option<string>,
    createdBy: string,
    isActive: bool,
    isFeatured: bool,
    usageCount: nat)

  function TagOf(h: Hashtag): string { h.tag }

  /** The tag table with its `@@unique` tag column. */
  ghost predicate TableOk(tags: map<Id, Hashtag>, nextId: Id)
  {
    Bounded(tags, nextId) && UniqueKey(tags, TagOf)
  }

  // ---------------------------------------------------------------------------
  // Normal form

  /** `tag.toLowerCase().trim()`. */
  function Normalise(tag: string): (r: string)
    ensures Text.IsLower(r)
  {
    Text.TrimKeepsLower(Text.ToLower(tag));
    Text.Trim(Text.ToLower(tag))
  }

  /** A tag already in normal form is left as it is, so creating from a stored tag stores the same tag. */
  lemma NormaliseIdempotent(tag: string)
    ensures Normalise(Normalise(tag)) == Normalise(tag)
  {
    var n := Normalise(tag);
    Text.LowerFixed(n);
    Text.TrimIdempotent(Text.ToLower(tag));
  }

  // ---------------------------------------------------------------------------
  // Admin operations

  function HasTag(t: string): Hashtag -> bool { (h: Hashtag) => h.tag == t }

  function FindTag(tags: map<Id, Hashtag>, nextId: Id, t: string): (r: Option<Id>)
    ensures r.Some? ==> r.value in tags && tags[r.value].tag == t
    ensures r.None? ==> forall i :: i in tags && i < nextId ==> tags[i].tag != t
  {
    FindFirst(tags, nextId, HasTag(t))
  }

  datatype CreateHashtagDto = CreateHashtagDto(tag: string, description: Option<string>)

  /** A new tag in normal form, created by the admin, active, not featured and unused. */
  function NewHashtag(dto: CreateHashtagDto): (h: Hashtag)
    ensures h.tag == Normalise(dto.tag) && h.usageCount == 0 && h.isActive && !h.isFeatured
  {
    Hashtag(Normalise(dto.tag), dto.description, "ADMIN", true, false, 0)
  }

  /** createHashtag is refused when a stored tag equals the normal form of the given one. */
  function CreateCheck(tags: map<Id, Hashtag>, nextId: Id, dto: CreateHashtagDto): (err: Option<Outcome<Hashtag>>)
    ensures err.Some? ==> err == Some(BadRequest("Hashtag already exists"))
    ensures err.None? <==> FindTag(tags, nextId, Normalise(dto.tag)).None?
  {
    if FindTag(tags, nextId, Normalise(dto.tag)).Some? then Some(BadRequest("Hashtag already exists")) else None
  }

  /** A created tag keeps the tags unique. */
  lemma CreateKeepsOk(tags: map<Id, Hashtag>, nextId: Id, dto: CreateHashtagDto)
    requires TableOk(tags, nextId) && CreateCheck(tags, nextId, dto).None?
    ensures TableOk(tags[nextId := NewHashtag(dto)], nextId + 1)
  {
    UniqueInsert(tags, nextId, NewHashtag(dto), TagOf);
  }

  /**
   * Two spellings with the same normal form name one tag: once either is
   * created, creating the other is refused.
   */
  lemma CreateOnce(tags: map<Id, Hashtag>, nextId: Id, dto: CreateHashtagDto, other: CreateHashtagDto)
    requires TableOk(tags, nextId) && CreateCheck(tags, nextId, dto).None?
    requires Normalise(other.tag) == Normalise(dto.tag)
    ensures CreateCheck(tags[nextId := NewHashtag(dto)], nextId + 1, other) == Some(BadRequest("Hashtag already exists"))
  {
    FindFirstSees(tags[nextId := NewHashtag(dto)], nextId + 1, HasTag(Normalise(other.tag)), nextId);
  }

  datatype UpdateHashtagDto = UpdateHashtagDto(description: Option<string>, isActive: Option<bool>, isFeatured: Option<bool>)

  /** updateHashtag's row: the given fields, everything else as it was. */
  function Edited(h: Hashtag, dto: UpdateHashtagDto): (r: Hashtag)
    ensures r.tag == h.tag && r.usageCount == h.usageCount && r.createdBy == h.createdBy
    ensures r.description == (if dto.description.Some? then dto.description else h.description)
    ensures r.isActive == dto.isActive.GetOr(h.isActive) && r.isFeatured == dto.isFeatured.GetOr(h.isFeatured)
  {
    h.(description := if dto.description.Some? then dto.description else h.description,
       isActive := dto.isActive.GetOr(h.isActive),
       isFeatured := dto.isFeatured.GetOr(h.isFeatured))
  }

  lemma EditKeepsOk(tags: map<Id, Hashtag>, nextId: Id, k: Id, dto: UpdateHashtagDto)
    requires TableOk(tags, nextId) && k in tags
    ensures TableOk(tags[k := Edited(tags[k], dto)], nextId)
  {
  }

  /** Editing twice with the same body is editing once. */
  lemma EditIdempotent(h: Hashtag, dto: UpdateHashtagDto)
    ensures Edited(Edited(h, dto), dto) == Edited(h, dto)
  {
  }

  // ---------------------------------------------------------------------------
  // Listings

  /** Most used first; ties by id. */
  function MostUsed(tags: map<Id, Hashtag>): nat -> (int, int)
  {
    (i: nat) => if i in tags then (-(tags[i].usageCount as int), 0) else (0, 0)
  }

  /** getHashtags' filter: active, and holding the search text when one is given. */
  function Listed(search: Option<string>): Hashtag -> bool
  {
    (h: Hashtag) => h.isActive && (search.None? || search.value == "" || Text.ContainsFold(h.tag, search.value))
  }

  /** getHashtags: at most twenty active tags, most used first. */
  function Search(tags: map<Id, Hashtag>, nextId: Id, search: Option<string>): (r: seq<Id>)
    ensures |r| <= 20
    ensures forall k :: 0 <= k < |r| ==> r[k] in tags && tags[r[k]].isActive
    ensures search.Some? && search.value != "" ==>
      forall k :: 0 <= k < |r| ==> Text.ContainsFold(tags[r[k]].tag, search.value)
    ensures forall a, b :: 0 <= a < b < |r| ==> tags[r[a]].usageCount >= tags[r[b]].usageCount
    ensures r == Paging.Window(Listing.FindMany(tags, nextId, Listed(search), MostUsed(tags)), 0, 20)
  {
    var r := Listing.FindPage(tags, nextId, Listed(search), MostUsed(tags), 0, 20);
    assert forall a, b :: 0 <= a < b < |r| ==> -(tags[r[a]].usageCount as int) <= -(tags[r[b]].usageCount as int);
    r
  }

  /** getTrendingHashtags: at most ten active tags, most used first. */
  function Trending(tags: map<Id, Hashtag>, nextId: Id): (r: seq<Id>)
    ensures |r| <= 10
    ensures forall k :: 0 <= k < |r| ==> r[k] in tags && tags[r[k]].isActive
    ensures forall a, b :: 0 <= a < b < |r| ==> tags[r[a]].usageCount >= tags[r[b]].usageCount
    ensures r == Paging.Window(Listing.FindMany(tags, nextId, Listed(None), MostUsed(tags)), 0, 10)
  {
    var r := Listing.FindPage(tags, nextId, Listed(None), MostUsed(tags), 0, 10);
    assert forall a, b :: 0 <= a < b < |r| ==> -(tags[r[a]].usageCount as int) <= -(tags[r[b]].usageCount as int);
    r
  }

  /**
   * getHashtags keeps the most used: a matching active tag left out of the
   * result means twenty tags are listed, each used at least as often.
   */
  lemma SearchTop(tags: map<Id, Hashtag>, nextId: Id, search: Option<string>, i: Id)
    requires i < nextId && i in tags && Listed(search)(tags[i])
    requires i !in Search(tags, nextId, search)
    ensures |Search(tags, nextId, search)| == 20
    ensures var r := Search(tags, nextId, search);
      forall k :: 0 <= k < |r| ==> tags[r[k]].usageCount >= tags[i].usageCount
  {
    var r := Search(tags, nextId, search);
    Listing.FirstPageIsTop(tags, nextId, Listed(search), MostUsed(tags), 20, i);
    forall k | 0 <= k < |r| ensures tags[r[k]].usageCount >= tags[i].usageCount {
      assert Sorting.RankBefore(MostUsed(tags)(r[k]), MostUsed(tags)(i), r[k], i);
    }
  }

  /**
   * getTrendingHashtags keeps the most used: an active tag left out means ten
   * tags are listed, each used at least as often.
   */
  lemma TrendingTop(tags: map<Id, Hashtag>, nextId: Id, i: Id)
    requires i < nextId && i in tags && tags[i].isActive
    requires i !in Trending(tags, nextId)
    ensures |Trending(tags, nextId)| == 10
    ensures var r := Trending(tags, nextId);
      forall k :: 0 <= k < |r| ==> tags[r[k]].usageCount >= tags[i].usageCount
  {
    var r := Trending(tags, nextId);
    assert Listed(None)(tags[i]);
    Listing.FirstPageIsTop(tags, nextId, Listed(None), MostUsed(tags), 10, i);
    forall k | 0 <= k < |r| ensures tags[r[k]].usageCount >= tags[i].usageCount {
      assert Sorting.RankBefore(MostUsed(tags)(r[k]), MostUsed(tags)(i), r[k], i);
    }
  }

  // ---------------------------------------------------------------------------
  // Connecting a post's tags

  /** The lowercased inputs (not trimmed). */
  function Lowered(names: seq<string>): (r: set<string>)
    ensures forall a :: 0 <= a < |names| ==> Text.ToLower(names[a]) in r
  {
    if names == [] then {}
    else
      var init := names[..|names| - 1];
      assert forall a :: 0 <= a < |names| - 1 ==> names[a] == init[a];
      Lowered(init) + {Text.ToLower(names[|names| - 1])}
  }

  /** The tags of the active rows. */
  function ActiveTags(tags: map<Id, Hashtag>): set<string>
  {
    set i | i in tags && tags[i].isActive :: tags[i].tag
  }

  /** `findMany({ where: { tag: { in: lowered }, isActive: true } })`. */
  function Matched(tags: map<Id, Hashtag>, names: seq<string>): (r: set<Id>)
    ensures forall i :: i in r <==> i in tags && tags[i].isActive && tags[i].tag in Lowered(names)
  {
    set i | i in tags && tags[i].isActive && tags[i].tag in Lowered(names)
  }

  /** No two inputs lowercase to the same text. */
  predicate DistinctLowered(names: seq<string>)
  {
    forall a, b :: 0 <= a < b < |names| ==> Text.ToLower(names[a]) != Text.ToLower(names[b])
  }

  /** Every input lowercases to an active tag. */
  predicate AllActive(tags: map<Id, Hashtag>, names: seq<string>)
  {
    forall a :: 0 <= a < |names| ==> Text.ToLower(names[a]) in ActiveTags(tags)
  }

  /** validateAndConnectHashtags' refusal: fewer active matches than inputs. */
  function ConnectCheck(tags: map<Id, Hashtag>, names: seq<string>): (err: Option<Outcome<set<Id>>>)
    ensures err.Some? ==> err == Some(BadRequest("Invalid or inactive hashtag used"))
    ensures err.None? <==> |Matched(tags, names)| == |names|
  {
    if |Matched(tags, names)| != |names| then Some(BadRequest("Invalid or inactive hashtag used")) else None
  }

  /** Each matched tag's usage rises by one. */
  function Connected(tags: map<Id, Hashtag>, ids: set<Id>): map<Id, Hashtag>
  {
    map i | i in tags :: if i in ids then tags[i].(usageCount := tags[i].usageCount + 1) else tags[i]
  }

  lemma ConnectKeepsOk(tags: map<Id, Hashtag>, nextId: Id, ids: set<Id>)
    requires TableOk(tags, nextId)
    ensures TableOk(Connected(tags, ids), nextId)
  {
    var t' := Connected(tags, ids);
    assert forall i :: i in t' ==> t'[i].tag == tags[i].tag;
  }

  /** Distinct ids with distinct tags: as many tags as ids. */
  lemma {:induction false} TagImageCard(tags: map<Id, Hashtag>, ids: set<Id>)
    requires ids <= tags.Keys && UniqueKey(tags, TagOf)
    ensures |ids| == |(set i | i in ids :: tags[i].tag)|
    decreases |ids|
  {
    var image := set i | i in ids :: tags[i].tag;
    if ids != {} {
      var x :| x in ids;
      var rest := ids - {x};
      var image' := set i | i in rest :: tags[i].tag;
      TagImageCard(tags, rest);
      assert image == image' + {tags[x].tag};
      forall y | y in rest
        ensures tags[y].tag != tags[x].tag
      {
        assert TagOf(tags[y]) != TagOf(tags[x]) || y == x;
      }
    } else {
      assert image == {};
    }
  }

  /** A text no input lowercases to is not among the lowercased inputs. */
  lemma {:induction false} NotLowered(names: seq<string>, s: string)
    requires forall a :: 0 <= a < |names| ==> Text.ToLower(names[a]) != s
    ensures s !in Lowered(names)
  {
    if names != [] {
      var init := names[..|names| - 1];
      assert forall a :: 0 <= a < |init| ==> init[a] == names[a];
      NotLowered(init, s);
    }
  }

  /** The lowercased inputs lie within a set exactly when each input's lowercase does. */
  lemma {:induction false} LoweredWithin(names: seq<string>, within: set<string>)
    ensures Lowered(names) <= within <==> forall a :: 0 <= a < |names| ==> Text.ToLower(names[a]) in within
  {
    if names != [] {
      var init := names[..|names| - 1];
      assert forall a :: 0 <= a < |init| ==> init[a] == names[a];
      LoweredWithin(init, within);
    }
  }

  /** There are no more lowercased inputs than inputs, and as many exactly when no two coincide. */
  lemma {:induction false} LoweredCard(names: seq<string>)
    ensures |Lowered(names)| <= |names|
    ensures |Lowered(names)| == |names| <==> DistinctLowered(names)
  {
    if names != [] {
      var n := |names|;
      var init := names[..n - 1];
      var x := Text.ToLower(names[n - 1]);
      assert forall a :: 0 <= a < n - 1 ==> init[a] == names[a];
      LoweredCard(init);
      if DistinctLowered(names) {
        assert DistinctLowered(init);
        NotLowered(init, x);
      } else if DistinctLowered(init) {
        var a, b :| 0 <= a < b < n && Text.ToLower(names[a]) == Text.ToLower(names[b]);
        assert b == n - 1;
        assert x in Lowered(init);
      }
    }
  }

  /** The matched rows' tags are the lowercased inputs that are active tags. */
  lemma MatchedTags(tags: map<Id, Hashtag>, names: seq<string>)
    ensures (set i | i in Matched(tags, names) :: tags[i].tag) == Lowered(names) * ActiveTags(tags)
  {
    var m := Matched(tags, names);
    var image := set i | i in m :: tags[i].tag;
    forall s | s in Lowered(names) * ActiveTags(tags)
      ensures s in image
    {
      var i :| i in tags && tags[i].isActive && tags[i].tag == s;
      assert i in m;
    }
  }

  /** Part of a set has fewer elements unless it is all of it. */
  lemma PartCard<T>(low: set<T>, within: set<T>)
    ensures |low * within| <= |low|
    ensures |low * within| == |low| <==> low <= within
  {
    assert low == (low * within) + (low - within);
    assert |low| == |low * within| + |low - within|;
  }

  /**
   * The check passes exactly when the inputs lowercase to distinct active
   * tags: a repeated, unknown or inactive tag is refused.
   */
  lemma ConnectAcceptsExactly(tags: map<Id, Hashtag>, nextId: Id, names: seq<string>)
    requires TableOk(tags, nextId)
    ensures ConnectCheck(tags, names).None? <==> DistinctLowered(names) && AllActive(tags, names)
  {
    var m := Matched(tags, names);
    var low, act := Lowered(names), ActiveTags(tags);
    TagImageCard(tags, m);
    MatchedTags(tags, names);
    assert |m| == |low * act|;
    LoweredCard(names);
    LoweredWithin(names, act);
    PartCard(low, act);
  }

  // ---------------------------------------------------------------------------
  // The table

  class HashtagStore {
    var tags: map<Id, Hashtag>
    var nextId: Id

    ghost predicate Valid()
      reads this
    {
      TableOk(tags, nextId)
    }

    constructor ()
      ensures Valid() && tags == map[] && nextId == 0
    {
      tags, nextId := map[], 0;
    }

    /** createHashtag: returns the new row. */
    method CreateHashtag(dto: CreateHashtagDto) returns (r: Outcome<Hashtag>)
      requires Valid()
      modifies this
      ensures Valid()
      ensures var e := CreateCheck(old(tags), old(nextId), dto);
        if e.Some? then r == e.value && tags == old(tags) && nextId == old(nextId)
        else r == Ok(NewHashtag(dto)) && tags == old(tags)[old(nextId) := NewHashtag(dto)] && nextId == old(nextId) + 1
    {
      var e := CreateCheck(tags, nextId, dto);
      if e.Some? {
        return e.value;
      }
      CreateKeepsOk(tags, nextId, dto);
      r := Ok(NewHashtag(dto));
      tags := tags[nextId := NewHashtag(dto)];
      nextId := nextId + 1;
    }

    /** updateHashtag: returns the edited row. */
    method UpdateHashtag(k: Id, dto: UpdateHashtagDto) returns (r: Outcome<Hashtag>)
      requires Valid()
      modifies this
      ensures Valid() && nextId == old(nextId)
      ensures k !in old(tags) ==> r == NotFound("Hashtag not found") && tags == old(tags)
      ensures k in old(tags) ==> r == Ok(Edited(old(tags)[k], dto)) && tags == old(tags)[k := Edited(old(tags)[k], dto)]
    {
      if k !in tags {
        return NotFound("Hashtag not found");
      }
      EditKeepsOk(tags, nextId, k, dto);
      r := Ok(Edited(tags[k], dto));
      tags := tags[k := r.value];
    }

    /**
     * validateAndConnectHashtags: on success every matched row's usage rises
     * by one and their ids are returned; on refusal nothing changes.
     */
    method ValidateAndConnect(names: seq<string>) returns (r: Outcome<set<Id>>)
      requires Valid()
      modifies this
      ensures Valid() && nextId == old(nextId)
      ensures var e := ConnectCheck(old(tags), names);
        if e.Some? then r == e.value && tags == old(tags)
        else r == Ok(Matched(old(tags), names)) && tags == Connected(old(tags), Matched(old(tags), names))
    {
      var e := ConnectCheck(tags, names);
      if e.Some? {
        return e.value;
      }
      var ids := Matched(tags, names);
      ConnectKeepsOk(tags, nextId, ids);
      r := Ok(ids);
      tags := Connected(tags, ids);
    }
  }
}

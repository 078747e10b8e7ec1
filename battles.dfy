/**
 * Photo battles: a host opens a battle, users join it up to its capacity,
 * each participant submits one entry, every user votes once per battle,
 * and the host finalizes it once, rewarding the entry with the most votes
 * (the earliest one on a tie).
 *
 * Two service files in the repository implement these rules with the same
 * code; both are modelled by this one module.
 */
module Battles {

  import opened Outcomes
  import opened Tables
  import Sorting
  import Paging
  import Listing

  /** PENDING and ONGOING are the statuses the rules name; every other status closes the battle. */
  datatype BattleStatus = PENDING | ONGOING | OtherStatus(name: string)

  datatype BattleCategory = HEAD_TO_HEAD | RAW_SHIFT | SPLIT_SCREEN

  datatype Battle = Battle(
    hostId: Id,
    title: string,
    battleCategory: Option<BattleCategory>,
    maxParticipants: int,
    status: BattleStatus,
    createdAt: int)

  datatype Participant = Participant(battleId: Id, userId: Id, joinedAt: int, isActive: bool)

  /** The post (of type Battle_Post) created for an entry. */
  datatype BattlePost = BattlePost(userId: Id, battleId: Id, participantId: Id, mediaUrl: Option<string>, caption: Option<string>)

  datatype Entry = Entry(battleId: Id, participantId: Id, xpostId: Id, createdAt: int)

  datatype Vote = Vote(battleId: Id, entryId: Id, voterUserId: Id)

  datatype BattleResult = BattleResult(battleId: Id, winnerEntryId: Id, winnerUserId: Id, rewardPoints: int)

  datatype CreateBattleDto = CreateBattleDto(title: string, battleCategory: Option<BattleCategory>, maxParticipants: Option<int>)

  datatype SubmitBattlePostDto = SubmitBattlePostDto(mediaUrl: Option<string>, caption: Option<string>)

  const DefaultMaxParticipants: int := 10
  const WinnerReward: int := 250

  /** The row createBattle inserts. */
  function NewBattle(hostId: Id, dto: CreateBattleDto, now: int): (b: Battle)
    requires dto.maxParticipants.None? || dto.maxParticipants.value >= 2
    ensures b.status == PENDING && b.hostId == hostId && b.createdAt == now
    ensures dto.maxParticipants.None? ==> b.maxParticipants == DefaultMaxParticipants
    ensures dto.maxParticipants.Some? ==> b.maxParticipants == dto.maxParticipants.value
    ensures b.maxParticipants >= 2
  {
    Battle(hostId, dto.title, dto.battleCategory, dto.maxParticipants.GetOr(DefaultMaxParticipants), PENDING, now)
  }

  // ---------------------------------------------------------------------------
  // Lookups by the schema's unique keys

  /** `battleParticipant.findUnique({ battleId_userId })`. */
  function FindParticipant(parts: map<Id, Participant>, next: Id, b: Id, u: Id): (r: Option<Id>)
    ensures r.Some? ==> r.value in parts && parts[r.value].battleId == b && parts[r.value].userId == u
    ensures r.None? ==> forall i :: i in parts && i < next ==> !(parts[i].battleId == b && parts[i].userId == u)
  {
    FindFirst(parts, next, (p: Participant) => p.battleId == b && p.userId == u)
  }

  /** `battleEntry.findUnique({ battleId_participantId })`. */
  function FindEntry(entries: map<Id, Entry>, next: Id, b: Id, pid: Id): (r: Option<Id>)
    ensures r.Some? ==> r.value in entries && entries[r.value].battleId == b && entries[r.value].participantId == pid
    ensures r.None? ==> forall i :: i in entries && i < next ==> !(entries[i].battleId == b && entries[i].participantId == pid)
  {
    FindFirst(entries, next, (e: Entry) => e.battleId == b && e.participantId == pid)
  }

  /** `battleVote.findUnique({ battleId_voterUserId })`. */
  function FindVote(votes: map<Id, Vote>, next: Id, b: Id, voter: Id): (r: Option<Id>)
    ensures r.Some? ==> r.value in votes && votes[r.value].battleId == b && votes[r.value].voterUserId == voter
    ensures r.None? ==> forall i :: i in votes && i < next ==> !(votes[i].battleId == b && votes[i].voterUserId == voter)
  {
    FindFirst(votes, next, (v: Vote) => v.battleId == b && v.voterUserId == voter)
  }

  /** `battleResult.findUnique({ battleId })`. */
  function FindResult(results: map<Id, BattleResult>, next: Id, b: Id): (r: Option<Id>)
    ensures r.Some? ==> r.value in results && results[r.value].battleId == b
    ensures r.None? ==> forall i :: i in results && i < next ==> results[i].battleId != b
  {
    FindFirst(results, next, (x: BattleResult) => x.battleId == b)
  }

  /** `_count.participants`: every participant row of the battle, active or not. */
  function ParticipantCount(parts: map<Id, Participant>, b: Id): nat
  {
    Count(parts, (p: Participant) => p.battleId == b)
  }

  /** `_count.votes` of an entry. */
  function VoteCount(votes: map<Id, Vote>, e: Id): nat
  {
    Count(votes, (v: Vote) => v.entryId == e)
  }

  // ---------------------------------------------------------------------------
  // The store invariant: foreign keys and unique keys

  ghost predicate ParticipantsOk(battles: map<Id, Battle>, parts: map<Id, Participant>)
  {
    (forall i :: i in parts ==> parts[i].battleId in battles)
    && UniqueKey(parts, (p: Participant) => (p.battleId, p.userId))
  }

  ghost predicate EntriesOk(battles: map<Id, Battle>, parts: map<Id, Participant>, posts: map<Id, BattlePost>, entries: map<Id, Entry>)
  {
    (forall i :: i in entries ==>
      entries[i].battleId in battles && entries[i].xpostId in posts
      && entries[i].participantId in parts && parts[entries[i].participantId].battleId == entries[i].battleId)
    && UniqueKey(entries, (e: Entry) => (e.battleId, e.participantId))
  }

  ghost predicate VotesOk(entries: map<Id, Entry>, votes: map<Id, Vote>)
  {
    (forall i :: i in votes ==> votes[i].entryId in entries && entries[votes[i].entryId].battleId == votes[i].battleId)
    && UniqueKey(votes, (v: Vote) => (v.battleId, v.voterUserId))
  }

  ghost predicate ResultsOk(battles: map<Id, Battle>, entries: map<Id, Entry>, results: map<Id, BattleResult>)
  {
    (forall i :: i in results ==> results[i].battleId in battles && results[i].winnerEntryId in entries)
    && UniqueKey(results, (x: BattleResult) => x.battleId)
  }

  ghost predicate StoreOk(battles: map<Id, Battle>, parts: map<Id, Participant>, posts: map<Id, BattlePost>,
                          entries: map<Id, Entry>, votes: map<Id, Vote>, results: map<Id, BattleResult>, next: Id)
  {
    Bounded(battles, next) && Bounded(parts, next) && Bounded(posts, next)
    && Bounded(entries, next) && Bounded(votes, next) && Bounded(results, next)
    && ParticipantsOk(battles, parts) && EntriesOk(battles, parts, posts, entries)
    && VotesOk(entries, votes) && ResultsOk(battles, entries, results)
  }

  // ---------------------------------------------------------------------------
  // Guards: the first failure each operation throws, or None when it goes ahead

  function JoinCheck(users: set<Id>, battles: map<Id, Battle>, parts: map<Id, Participant>, next: Id, b: Id, u: Id): (e: Option<Outcome<Id>>)
    ensures e.Some? ==> e.value.IsFailure()
    ensures e.None? <==> (b in battles && battles[b].status == PENDING
      && ParticipantCount(parts, b) < battles[b].maxParticipants
      && u in users && FindParticipant(parts, next, b, u).None?)
    ensures b !in battles ==> e == Some(NotFound("Battle not found"))
    ensures b in battles && battles[b].status != PENDING ==> e == Some(BadRequest("Battle is not open for joining"))
  {
    if b !in battles then Some(NotFound("Battle not found"))
    else if battles[b].status != PENDING then Some(BadRequest("Battle is not open for joining"))
    else if ParticipantCount(parts, b) >= battles[b].maxParticipants then Some(BadRequest("Battle is full"))
    // the create's unique-key or foreign-key violation is caught and reported as one message
    else if FindParticipant(parts, next, b, u).Some? || u !in users then Some(BadRequest("Already joined"))
    else None
  }

  function SubmitCheck(battles: map<Id, Battle>, parts: map<Id, Participant>, entries: map<Id, Entry>, next: Id, b: Id, u: Id)
    : (e: Option<Outcome<(Id, Id)>>)
    ensures e.Some? ==> e.value.IsFailure()
    ensures e.None? <==> (b in battles && battles[b].status == PENDING
      && FindParticipant(parts, next, b, u).Some? && parts[FindParticipant(parts, next, b, u).value].isActive
      && FindEntry(entries, next, b, FindParticipant(parts, next, b, u).value).None?)
    ensures b in battles && battles[b].status == PENDING
      && (FindParticipant(parts, next, b, u).None? || !parts[FindParticipant(parts, next, b, u).value].isActive)
      ==> e == Some(Forbidden("You are not a participant of this battle"))
  {
    if b !in battles then Some(NotFound("Battle not found"))
    else if battles[b].status != PENDING then Some(BadRequest("Battle is not accepting submissions"))
    else
      var p := FindParticipant(parts, next, b, u);
      if p.None? || !parts[p.value].isActive then Some(Forbidden("You are not a participant of this battle"))
      else if FindEntry(entries, next, b, p.value).Some? then Some(BadRequest("You already submitted in this battle"))
      else None
  }

  predicate OpenForVoting(s: BattleStatus)
  {
    s == ONGOING || s == PENDING
  }

  function VoteCheck(users: set<Id>, battles: map<Id, Battle>, entries: map<Id, Entry>, votes: map<Id, Vote>, next: Id,
                     b: Id, voter: Id, entryId: Id): (e: Option<Outcome<Id>>)
    ensures e.Some? ==> e.value.IsFailure()
    ensures e.None? <==> (b in battles && OpenForVoting(battles[b].status)
      && entryId in entries && entries[entryId].battleId == b
      && voter in users && FindVote(votes, next, b, voter).None?)
    ensures b in battles && OpenForVoting(battles[b].status) && (entryId !in entries || entries[entryId].battleId != b)
      ==> e == Some(BadRequest("Invalid entry for this battle"))
  {
    if b !in battles then Some(NotFound("Battle not found"))
    else if !OpenForVoting(battles[b].status) then Some(BadRequest("Battle is not open for voting"))
    else if entryId !in entries || entries[entryId].battleId != b then Some(BadRequest("Invalid entry for this battle"))
    // the create's unique-key or foreign-key violation is caught and reported as one message
    else if FindVote(votes, next, b, voter).Some? || voter !in users then Some(BadRequest("You already voted in this battle"))
    else None
  }

  // ---------------------------------------------------------------------------
  // Ranking of entries: most votes first, then earliest, then lowest id

  function EntriesOf(entries: map<Id, Entry>, next: Id, b: Id): (r: seq<Id>)
    ensures forall i :: i in r <==> i < next && i in entries && entries[i].battleId == b
  {
    IdsBelow(entries, next, (e: Entry) => e.battleId == b)
  }

  function EntryRank(entries: map<Id, Entry>, votes: map<Id, Vote>): nat -> (int, int)
  {
    (i: nat) => if i in entries then (-(VoteCount(votes, i) as int), entries[i].createdAt) else (0, 0)
  }

  /** `w` is ranked no lower than `e`. */
  predicate Outranks(entries: map<Id, Entry>, votes: map<Id, Vote>, w: Id, e: Id)
    requires w in entries && e in entries
  {
    VoteCount(votes, w) > VoteCount(votes, e)
    || (VoteCount(votes, w) == VoteCount(votes, e)
        && (entries[w].createdAt < entries[e].createdAt || (entries[w].createdAt == entries[e].createdAt && w <= e)))
  }

  /** The entry finalizeBattle rewards: the `findFirst` under the leaderboard order. */
  function TopEntry(entries: map<Id, Entry>, votes: map<Id, Vote>, next: Id, b: Id): (w: Option<Id>)
    ensures w.None? <==> EntriesOf(entries, next, b) == []
    ensures w.Some? ==> w.value in entries && w.value < next && entries[w.value].battleId == b
  {
    var ids := EntriesOf(entries, next, b);
    if ids == [] then None
    else
      Some(Sorting.BestByRank(ids, EntryRank(entries, votes)))
  }

  /**
   * The rewarded entry has the most votes of the battle's entries, and
   * among those with as many votes it is the earliest.
   */
  lemma TopEntryWins(entries: map<Id, Entry>, votes: map<Id, Vote>, next: Id, b: Id, e: Id)
    requires TopEntry(entries, votes, next, b).Some?
    requires e in entries && e < next && entries[e].battleId == b
    ensures Outranks(entries, votes, TopEntry(entries, votes, next, b).value, e)
  {
    Sorting.BestByRankWins(EntriesOf(entries, next, b), EntryRank(entries, votes), e);
  }

  /** getLeaderboard: the battle's entries, best first. */
  function Leaderboard(battles: map<Id, Battle>, entries: map<Id, Entry>, votes: map<Id, Vote>, next: Id, b: Id): (r: Outcome<seq<Id>>)
    ensures b !in battles <==> r == NotFound("Battle not found")
    ensures r.Ok? ==> multiset(r.value) == multiset(EntriesOf(entries, next, b))
  {
    if b !in battles then NotFound("Battle not found")
    else Ok(Sorting.SortByRank(EntriesOf(entries, next, b), EntryRank(entries, votes)))
  }

  /** The rank order on two entries is the `Outranks` relation. */
  lemma RankedPair(entries: map<Id, Entry>, votes: map<Id, Vote>, i: Id, j: Id)
    requires i in entries && j in entries
    requires Sorting.RankBefore(EntryRank(entries, votes)(i), EntryRank(entries, votes)(j), i, j)
    ensures Outranks(entries, votes, i, j)
  {
  }

  /** Each entry on the leaderboard outranks every entry after it. */
  lemma LeaderboardRanked(battles: map<Id, Battle>, entries: map<Id, Entry>, votes: map<Id, Vote>, next: Id, b: Id)
    requires b in battles
    ensures var r := Leaderboard(battles, entries, votes, next, b).value;
      forall x, y :: 0 <= x < y < |r| ==> r[x] in entries && r[y] in entries && Outranks(entries, votes, r[x], r[y])
  {
    var ids := EntriesOf(entries, next, b);
    var r := Sorting.SortByRank(ids, EntryRank(entries, votes));
    forall x | 0 <= x < |r| ensures r[x] in entries {
      assert r[x] in multiset(ids);
    }
    forall x, y | 0 <= x < y < |r| ensures Outranks(entries, votes, r[x], r[y]) {
      RankedPair(entries, votes, r[x], r[y]);
    }
  }

  /** The leaderboard's head is the entry finalizeBattle rewards. */
  lemma LeaderboardHeadIsWinner(battles: map<Id, Battle>, entries: map<Id, Entry>, votes: map<Id, Vote>, next: Id, b: Id)
    requires b in battles && EntriesOf(entries, next, b) != []
    ensures Leaderboard(battles, entries, votes, next, b).value[0] == TopEntry(entries, votes, next, b).value
  {
    Sorting.HeadIsBestByRank(EntriesOf(entries, next, b), EntryRank(entries, votes));
  }

  // ---------------------------------------------------------------------------
  // Read-only queries

  datatype MyBattleStatus = MyBattleStatus(
    joined: bool, participant: Option<Id>,
    submitted: bool, entry: Option<Id>,
    voted: bool, vote: Option<Id>)

  /** getMyBattleStatus: the entry is looked up only through the caller's participant row. */
  function GetMyBattleStatus(battles: map<Id, Battle>, parts: map<Id, Participant>, entries: map<Id, Entry>,
                             votes: map<Id, Vote>, next: Id, b: Id, u: Id): (r: Outcome<MyBattleStatus>)
    ensures b !in battles <==> r == NotFound("Battle not found")
    ensures r.Ok? ==> (r.value.submitted ==> r.value.joined)
    ensures r.Ok? ==> (r.value.joined <==> exists i :: i in parts && i < next && parts[i].battleId == b && parts[i].userId == u)
    ensures r.Ok? ==> (r.value.voted <==> exists i :: i in votes && i < next && votes[i].battleId == b && votes[i].voterUserId == u)
  {
    if b !in battles then NotFound("Battle not found")
    else
      var p := FindParticipant(parts, next, b, u);
      var e := if p.Some? then FindEntry(entries, next, b, p.value) else None;
      var v := FindVote(votes, next, b, u);
      Ok(MyBattleStatus(p.Some?, p, e.Some?, e, v.Some?, v))
  }

  /**
   * The listBattles filter; `mentions` stands for the case-insensitive
   * substring match on title or description.
   */
  predicate Listed(x: Battle, status: Option<BattleStatus>, category: Option<BattleCategory>,
                   search: Option<string>, mentions: (Battle, string) -> bool)
  {
    (status.Some? ==> x.status == status.value)
    && (category.Some? ==> x.battleCategory == category)
    && (search.Some? && search.value != "" ==> mentions(x, search.value))
  }

  /** The listBattles `where`, shared by `findMany` and `count`. */
  function ListedBy(status: Option<BattleStatus>, category: Option<BattleCategory>, search: Option<string>,
                    mentions: (Battle, string) -> bool): Battle -> bool
  {
    (x: Battle) => Listed(x, status, category, search, mentions)
  }

  /** `orderBy: { createdAt: 'desc' }` reads a battle's creation time. */
  function BattleDate(x: Battle): int { x.createdAt }

  /** Every battle matching `where`, newest first: the rows `skip` and `take` cut a page from. */
  function BattlesByDate(battles: map<Id, Battle>, next: Id, where: Battle -> bool): seq<Id>
  {
    Listing.ByDate(battles, next, where, BattleDate, true)
  }

  /** The database's refusal of a negative `skip` or `take`. */
  const NegativeWindow := "Invalid value for argument `skip` or `take`"

  /**
   * listBattles: newest first, page `page` of `limit` rows, defaults 1 and 20.
   * `skip` is `(page - 1) * limit`: a page below 1 with a positive limit
   * makes it negative, which the query refuses; `limit = 0` takes nothing.
   */
  function ListBattles(battles: map<Id, Battle>, next: Id, status: Option<BattleStatus>, category: Option<BattleCategory>,
                       search: Option<string>, mentions: (Battle, string) -> bool, page: Option<int>, limit: Option<int>)
    : (r: Outcome<Listing.Paged>)
    ensures r.Ok? <==> limit.GetOr(20) >= 0 && (page.GetOr(1) >= 1 || limit.GetOr(20) == 0)
    ensures !r.Ok? ==> r == Internal(NegativeWindow)
    ensures r.Ok? ==> r.value.meta.page == page.GetOr(1) && r.value.meta.limit == limit.GetOr(20)
    ensures r.Ok? ==> r.value.meta.total == |BattlesByDate(battles, next, ListedBy(status, category, search, mentions))|
    ensures r.Ok? && limit.GetOr(20) >= 1 ==>
      r.value == Listing.Paginate(BattlesByDate(battles, next, ListedBy(status, category, search, mentions)),
                                  page.GetOr(1), limit.GetOr(20))
    ensures r.Ok? && limit.GetOr(20) == 0 ==> r.value.items == []
    ensures r.Ok? ==> forall i :: 0 <= i < |r.value.items| ==>
      r.value.items[i] in battles && Listed(battles[r.value.items[i]], status, category, search, mentions)
    ensures r.Ok? ==> forall i, j :: 0 <= i < j < |r.value.items| ==>
      battles[r.value.items[i]].createdAt >= battles[r.value.items[j]].createdAt
  {
    var p := page.GetOr(1);
    var l := limit.GetOr(20);
    var where := ListedBy(status, category, search, mentions);
    if l < 0 || (p < 1 && l != 0) then Internal(NegativeWindow)
    else if l == 0 then Ok(Listing.Paged(Listing.PageMeta(p, 0, |BattlesByDate(battles, next, where)|, 0), []))
    else Ok(Listing.PageByDate(battles, next, where, BattleDate, true, p, l))
  }

  /** Whatever the page size, every listed battle is on exactly one page. */
  lemma ListBattlesCover(battles: map<Id, Battle>, next: Id, status: Option<BattleStatus>, category: Option<BattleCategory>,
                         search: Option<string>, mentions: (Battle, string) -> bool, limit: nat, k: Id)
    requires Bounded(battles, next) && limit >= 1
    requires k in battles && Listed(battles[k], status, category, search, mentions)
    ensures exists page: nat ::
      page >= 1 && k in ListBattles(battles, next, status, category, search, mentions, Some(page), Some(limit)).value.items
    ensures forall p1: nat, p2: nat ::
      (p1 >= 1 && p2 >= 1
       && k in ListBattles(battles, next, status, category, search, mentions, Some(p1), Some(limit)).value.items
       && k in ListBattles(battles, next, status, category, search, mentions, Some(p2), Some(limit)).value.items) ==> p1 == p2
  {
    var where := ListedBy(status, category, search, mentions);
    Listing.PageByDateCovers(battles, next, where, BattleDate, true, limit, k);
    var page: nat :| page >= 1 && k in Listing.PageByDate(battles, next, where, BattleDate, true, page, limit).items;
    ListBattlesPage(battles, next, status, category, search, mentions, page, limit);
    assert k in ListBattles(battles, next, status, category, search, mentions, Some(page), Some(limit)).value.items;
    forall p1: nat, p2: nat | p1 >= 1 && p2 >= 1
      && k in ListBattles(battles, next, status, category, search, mentions, Some(p1), Some(limit)).value.items
      && k in ListBattles(battles, next, status, category, search, mentions, Some(p2), Some(limit)).value.items
      ensures p1 == p2
    {
      ListBattlesOnePage(battles, next, status, category, search, mentions, limit, k, p1, p2);
    }
  }

  lemma ListBattlesOnePage(battles: map<Id, Battle>, next: Id, status: Option<BattleStatus>, category: Option<BattleCategory>,
                           search: Option<string>, mentions: (Battle, string) -> bool, limit: nat, k: Id, p1: nat, p2: nat)
    requires Bounded(battles, next) && limit >= 1
    requires k in battles && Listed(battles[k], status, category, search, mentions)
    requires p1 >= 1 && p2 >= 1
    requires k in ListBattles(battles, next, status, category, search, mentions, Some(p1), Some(limit)).value.items
    requires k in ListBattles(battles, next, status, category, search, mentions, Some(p2), Some(limit)).value.items
    ensures p1 == p2
  {
    var where := ListedBy(status, category, search, mentions);
    ListBattlesPage(battles, next, status, category, search, mentions, p1, limit);
    ListBattlesPage(battles, next, status, category, search, mentions, p2, limit);
    Listing.PageByDateCovers(battles, next, where, BattleDate, true, limit, k);
  }

  /** With a page and a limit of at least 1, listBattles returns that page of `PageByDate`. */
  lemma ListBattlesPage(battles: map<Id, Battle>, next: Id, status: Option<BattleStatus>, category: Option<BattleCategory>,
                        search: Option<string>, mentions: (Battle, string) -> bool, page: nat, limit: nat)
    requires page >= 1 && limit >= 1
    ensures ListBattles(battles, next, status, category, search, mentions, Some(page), Some(limit))
         == Ok(Listing.PageByDate(battles, next, ListedBy(status, category, search, mentions), BattleDate, true, page, limit))
  {
  }

  // ---------------------------------------------------------------------------
  // What each successful write does to the invariant

  lemma JoinKeepsOk(users: set<Id>, battles: map<Id, Battle>, parts: map<Id, Participant>, posts: map<Id, BattlePost>,
                    entries: map<Id, Entry>, votes: map<Id, Vote>, results: map<Id, BattleResult>, next: Id,
                    b: Id, u: Id, now: int)
    requires StoreOk(battles, parts, posts, entries, votes, results, next)
    requires JoinCheck(users, battles, parts, next, b, u).None?
    ensures StoreOk(battles, parts[next := Participant(b, u, now, true)], posts, entries, votes, results, next + 1)
  {
    UniqueInsert(parts, next, Participant(b, u, now, true), (p: Participant) => (p.battleId, p.userId));
  }

  /**
   * A successful join adds exactly one participant to the battle, keeps it
   * within capacity, and a second join by the same user is refused.
   */
  lemma JoinOnce(users: set<Id>, battles: map<Id, Battle>, parts: map<Id, Participant>, next: Id, b: Id, u: Id, now: int)
    requires Bounded(parts, next)
    requires JoinCheck(users, battles, parts, next, b, u).None?
    ensures var parts' := parts[next := Participant(b, u, now, true)];
      ParticipantCount(parts', b) == ParticipantCount(parts, b) + 1 <= battles[b].maxParticipants
      && JoinCheck(users, battles, parts', next + 1, b, u).Some?
  {
    var parts' := parts[next := Participant(b, u, now, true)];
    CountInsert(parts, next, Participant(b, u, now, true), (p: Participant) => p.battleId == b);
    FindFirstSees(parts', next + 1, (p: Participant) => p.battleId == b && p.userId == u, next);
  }

  lemma SubmitKeepsOk(battles: map<Id, Battle>, parts: map<Id, Participant>, posts: map<Id, BattlePost>,
                      entries: map<Id, Entry>, votes: map<Id, Vote>, results: map<Id, BattleResult>, next: Id,
                      b: Id, u: Id, pid: Id, dto: SubmitBattlePostDto, now: int)
    requires StoreOk(battles, parts, posts, entries, votes, results, next)
    requires b in battles && pid in parts && parts[pid].battleId == b && FindEntry(entries, next, b, pid).None?
    ensures StoreOk(battles, parts, posts[next := BattlePost(u, b, pid, dto.mediaUrl, dto.caption)],
                    entries[next + 1 := Entry(b, pid, next, now)], votes, results, next + 2)
  {
    UniqueInsert(entries, next + 1, Entry(b, pid, next, now), (e: Entry) => (e.battleId, e.participantId));
  }

  /** A participant's second submission is refused. */
  lemma SubmitOnce(battles: map<Id, Battle>, parts: map<Id, Participant>, entries: map<Id, Entry>, next: Id,
                   b: Id, u: Id, now: int)
    requires Bounded(parts, next) && Bounded(entries, next)
    requires SubmitCheck(battles, parts, entries, next, b, u).None?
    ensures var pid := FindParticipant(parts, next, b, u).value;
      SubmitCheck(battles, parts, entries[next + 1 := Entry(b, pid, next, now)], next + 2, b, u)
        == Some(BadRequest("You already submitted in this battle"))
  {
    var pid := FindParticipant(parts, next, b, u).value;
    FindFirstBeyond(parts, next, next + 2, (p: Participant) => p.battleId == b && p.userId == u);
    FindFirstSees(entries[next + 1 := Entry(b, pid, next, now)], next + 2,
                  (e: Entry) => e.battleId == b && e.participantId == pid, next + 1);
  }

  lemma VoteKeepsOk(users: set<Id>, battles: map<Id, Battle>, parts: map<Id, Participant>, posts: map<Id, BattlePost>,
                    entries: map<Id, Entry>, votes: map<Id, Vote>, results: map<Id, BattleResult>, next: Id,
                    b: Id, voter: Id, entryId: Id)
    requires StoreOk(battles, parts, posts, entries, votes, results, next)
    requires VoteCheck(users, battles, entries, votes, next, b, voter, entryId).None?
    ensures StoreOk(battles, parts, posts, entries, votes[next := Vote(b, entryId, voter)], results, next + 1)
  {
    UniqueInsert(votes, next, Vote(b, entryId, voter), (v: Vote) => (v.battleId, v.voterUserId));
  }

  /**
   * A vote adds one to its entry's count and to no other, and the voter's
   * second vote in the battle is refused.
   */
  lemma VoteOnce(users: set<Id>, battles: map<Id, Battle>, entries: map<Id, Entry>, votes: map<Id, Vote>, next: Id,
                 b: Id, voter: Id, entryId: Id, other: Id)
    requires Bounded(votes, next)
    requires VoteCheck(users, battles, entries, votes, next, b, voter, entryId).None?
    ensures var votes' := votes[next := Vote(b, entryId, voter)];
      VoteCount(votes', entryId) == VoteCount(votes, entryId) + 1
      && (other != entryId ==> VoteCount(votes', other) == VoteCount(votes, other))
      && VoteCheck(users, battles, entries, votes', next + 1, b, voter, other).Some?
  {
    var v := Vote(b, entryId, voter);
    CountInsert(votes, next, v, (x: Vote) => x.entryId == entryId);
    CountInsert(votes, next, v, (x: Vote) => x.entryId == other);
    FindFirstSees(votes[next := v], next + 1, (x: Vote) => x.battleId == b && x.voterUserId == voter, next);
  }

  function FinalizeCheck(battles: map<Id, Battle>, entries: map<Id, Entry>, votes: map<Id, Vote>,
                         results: map<Id, BattleResult>, next: Id, b: Id, u: Id): (e: Option<Outcome<(Id, nat)>>)
    ensures e.Some? ==> e.value.IsFailure()
    ensures e.None? <==> (b in battles && battles[b].hostId == u
      && FindResult(results, next, b).None? && EntriesOf(entries, next, b) != [])
    ensures b in battles && battles[b].hostId != u ==> e == Some(Forbidden("Only battle host can finalize"))
    ensures (b in battles && battles[b].hostId == u && FindResult(results, next, b).None?
      && EntriesOf(entries, next, b) == []) ==> e == Some(BadRequest("No entries found"))
  {
    if b !in battles then Some(NotFound("Battle not found"))
    else if battles[b].hostId != u then Some(Forbidden("Only battle host can finalize"))
    else if FindResult(results, next, b).Some? then Some(BadRequest("Battle already finalized"))
    else if EntriesOf(entries, next, b) == [] then Some(BadRequest("No entries found"))
    else None
  }

  /** The result row for the winning entry. */
  function WinnerResult(parts: map<Id, Participant>, entries: map<Id, Entry>, b: Id, w: Id): (x: BattleResult)
    requires w in entries && entries[w].participantId in parts
    ensures x.battleId == b && x.winnerEntryId == w && x.rewardPoints == WinnerReward
    ensures x.winnerUserId == parts[entries[w].participantId].userId
  {
    BattleResult(b, w, parts[entries[w].participantId].userId, WinnerReward)
  }

  lemma ResultInsertOk(battles: map<Id, Battle>, entries: map<Id, Entry>, results: map<Id, BattleResult>, next: Id, x: BattleResult)
    requires ResultsOk(battles, entries, results) && Bounded(results, next)
    requires x.battleId in battles && x.winnerEntryId in entries
    requires FindResult(results, next, x.battleId).None?
    ensures ResultsOk(battles, entries, results[next := x])
  {
    UniqueInsert(results, next, x, (y: BattleResult) => y.battleId);
  }

  lemma FinalizeKeepsOk(battles: map<Id, Battle>, parts: map<Id, Participant>, posts: map<Id, BattlePost>,
                        entries: map<Id, Entry>, votes: map<Id, Vote>, results: map<Id, BattleResult>, next: Id, b: Id, w: Id)
    requires StoreOk(battles, parts, posts, entries, votes, results, next)
    requires b in battles && FindResult(results, next, b).None? && w in entries
    ensures StoreOk(battles, parts, posts, entries, votes, results[next := WinnerResult(parts, entries, b, w)], next + 1)
  {
    ResultInsertOk(battles, entries, results, next, WinnerResult(parts, entries, b, w));
  }

  /** A battle is finalized at most once. */
  lemma FinalizeOnce(battles: map<Id, Battle>, parts: map<Id, Participant>, entries: map<Id, Entry>, votes: map<Id, Vote>,
                     results: map<Id, BattleResult>, next: Id, b: Id, u: Id, u': Id)
    requires Bounded(entries, next) && (forall i :: i in entries ==> entries[i].participantId in parts)
    requires FinalizeCheck(battles, entries, votes, results, next, b, u).None?
    ensures var w := TopEntry(entries, votes, next, b).value;
      FinalizeCheck(battles, entries, votes, results[next := WinnerResult(parts, entries, b, w)], next + 1, b, u').Some?
  {
    var w := TopEntry(entries, votes, next, b).value;
    FindFirstSees(results[next := WinnerResult(parts, entries, b, w)], next + 1, (x: BattleResult) => x.battleId == b, next);
  }

  // ---------------------------------------------------------------------------

  class BattleStore {
    /** The ids of the user table, which these services only read. */
    var users: set<Id>
    var battles: map<Id, Battle>
    var participants: map<Id, Participant>
    var posts: map<Id, BattlePost>
    var entries: map<Id, Entry>
    var votes: map<Id, Vote>
    var results: map<Id, BattleResult>
    var nextId: Id

    ghost predicate Valid()
      reads this
    {
      StoreOk(battles, participants, posts, entries, votes, results, nextId)
    }

    constructor (users: set<Id>)
      ensures Valid() && this.users == users
      ensures battles == map[] && participants == map[] && posts == map[]
      ensures entries == map[] && votes == map[] && results == map[]
    {
      this.users := users;
      battles, participants, posts := map[], map[], map[];
      entries, votes, results := map[], map[], map[];
      nextId := 0;
    }

    /** createBattle: a PENDING battle hosted by the caller. */
    method CreateBattle(userId: Id, dto: CreateBattleDto, now: int) returns (r: Outcome<Id>)
      requires Valid()
      requires dto.maxParticipants.None? || dto.maxParticipants.value >= 2
      modifies this`battles, this`nextId
      ensures Valid()
      ensures userId !in users ==> r == Internal("Foreign key constraint failed") && unchanged(this)
      ensures userId in users ==> (r == Ok(old(nextId)) && nextId == old(nextId) + 1
        && battles == old(battles)[old(nextId) := NewBattle(userId, dto, now)])
    {
      if userId !in users {
        return Internal("Foreign key constraint failed");
      }
      r := Ok(nextId);
      battles, nextId := battles[nextId := NewBattle(userId, dto, now)], nextId + 1;
    }

    /** joinBattle: one active participant row, while the battle is PENDING and not full. */
    method JoinBattle(b: Id, u: Id, now: int) returns (r: Outcome<Id>)
      requires Valid()
      modifies this`participants, this`nextId
      ensures Valid()
      ensures old(JoinCheck(users, battles, participants, nextId, b, u)).Some? ==>
        r == old(JoinCheck(users, battles, participants, nextId, b, u)).value && unchanged(this)
      ensures old(JoinCheck(users, battles, participants, nextId, b, u)).None? ==>
        r == Ok(old(nextId)) && nextId == old(nextId) + 1
        && participants == old(participants)[old(nextId) := Participant(b, u, now, true)]
      ensures r.Ok? ==> (ParticipantCount(participants, b) == old(ParticipantCount(participants, b)) + 1
        && ParticipantCount(participants, b) <= battles[b].maxParticipants)
      ensures r.Ok? ==> JoinCheck(users, battles, participants, nextId, b, u).Some?
    {
      var err := JoinCheck(users, battles, participants, nextId, b, u);
      if err.Some? {
        return err.value;
      }
      JoinKeepsOk(users, battles, participants, posts, entries, votes, results, nextId, b, u, now);
      JoinOnce(users, battles, participants, nextId, b, u, now);
      r := Ok(nextId);
      participants, nextId := participants[nextId := Participant(b, u, now, true)], nextId + 1;
    }

    /** submitBattlePost: a Battle_Post and the entry pointing to it, one per participant. */
    method SubmitBattlePost(b: Id, u: Id, dto: SubmitBattlePostDto, now: int) returns (r: Outcome<(Id, Id)>)
      requires Valid()
      modifies this`posts, this`entries, this`nextId
      ensures Valid()
      ensures old(SubmitCheck(battles, participants, entries, nextId, b, u)).Some? ==>
        r == old(SubmitCheck(battles, participants, entries, nextId, b, u)).value && unchanged(this)
      ensures old(SubmitCheck(battles, participants, entries, nextId, b, u)).None? ==>
        var n := old(nextId);
        var pid := old(FindParticipant(participants, nextId, b, u)).value;
        r == Ok((n, n + 1)) && nextId == n + 2
        && posts == old(posts)[n := BattlePost(u, b, pid, dto.mediaUrl, dto.caption)]
        && entries == old(entries)[n + 1 := Entry(b, pid, n, now)]
    {
      var err := SubmitCheck(battles, participants, entries, nextId, b, u);
      if err.Some? {
        return err.value;
      }
      var pid := FindParticipant(participants, nextId, b, u).value;
      r := Ok((nextId, nextId + 1));
      RecordEntry(b, u, pid, dto, now);
    }

    /** The `xPost` and `battleEntry` rows of a submission. */
    method RecordEntry(b: Id, u: Id, pid: Id, dto: SubmitBattlePostDto, now: int)
      requires Valid() && b in battles && pid in participants && participants[pid].battleId == b
      requires FindEntry(entries, nextId, b, pid).None?
      modifies this`posts, this`entries, this`nextId
      ensures Valid()
      ensures nextId == old(nextId) + 2
      ensures posts == old(posts)[old(nextId) := BattlePost(u, b, pid, dto.mediaUrl, dto.caption)]
      ensures entries == old(entries)[old(nextId) + 1 := Entry(b, pid, old(nextId), now)]
    {
      SubmitKeepsOk(battles, participants, posts, entries, votes, results, nextId, b, u, pid, dto, now);
      posts, entries, nextId :=
        posts[nextId := BattlePost(u, b, pid, dto.mediaUrl, dto.caption)],
        entries[nextId + 1 := Entry(b, pid, nextId, now)],
        nextId + 2;
    }

    /** voteBattle: one vote per user per battle, for an entry of that battle. */
    method VoteBattle(b: Id, voter: Id, entryId: Id) returns (r: Outcome<Id>)
      requires Valid()
      modifies this`votes, this`nextId
      ensures Valid()
      ensures old(VoteCheck(users, battles, entries, votes, nextId, b, voter, entryId)).Some? ==>
        r == old(VoteCheck(users, battles, entries, votes, nextId, b, voter, entryId)).value && unchanged(this)
      ensures old(VoteCheck(users, battles, entries, votes, nextId, b, voter, entryId)).None? ==>
        r == Ok(old(nextId)) && nextId == old(nextId) + 1
        && votes == old(votes)[old(nextId) := Vote(b, entryId, voter)]
      ensures r.Ok? ==> VoteCount(votes, entryId) == old(VoteCount(votes, entryId)) + 1
    {
      var err := VoteCheck(users, battles, entries, votes, nextId, b, voter, entryId);
      if err.Some? {
        return err.value;
      }
      VoteKeepsOk(users, battles, participants, posts, entries, votes, results, nextId, b, voter, entryId);
      VoteOnce(users, battles, entries, votes, nextId, b, voter, entryId, entryId);
      r := Ok(nextId);
      votes, nextId := votes[nextId := Vote(b, entryId, voter)], nextId + 1;
    }

    /**
     * finalizeBattle: the host records the top entry as the winner with a
     * reward of 250 points, once; the result and the winner's vote count
     * are returned.
     */
    method FinalizeBattle(b: Id, u: Id) returns (r: Outcome<(Id, nat)>)
      requires Valid()
      modifies this`results, this`nextId
      ensures Valid()
      ensures old(FinalizeCheck(battles, entries, votes, results, nextId, b, u)).Some? ==>
        r == old(FinalizeCheck(battles, entries, votes, results, nextId, b, u)).value && unchanged(this)
      ensures old(FinalizeCheck(battles, entries, votes, results, nextId, b, u)).None? ==>
        var w := old(TopEntry(entries, votes, nextId, b)).value;
        r == Ok((old(nextId), VoteCount(votes, w))) && nextId == old(nextId) + 1
        && results == old(results)[old(nextId) := WinnerResult(participants, entries, b, w)]
      ensures r.Ok? ==> FinalizeCheck(battles, entries, votes, results, nextId, b, u).Some?
    {
      var err := FinalizeCheck(battles, entries, votes, results, nextId, b, u);
      if err.Some? {
        return err.value;
      }
      var w := TopEntry(entries, votes, nextId, b).value;
      FinalizeOnce(battles, participants, entries, votes, results, nextId, b, u, u);
      r := Ok((nextId, VoteCount(votes, w)));
      RecordResult(b, w);
    }

    /** The `battleResult` row of a finalization. */
    method RecordResult(b: Id, w: Id)
      requires Valid() && b in battles && FindResult(results, nextId, b).None? && w in entries
      modifies this`results, this`nextId
      ensures Valid()
      ensures nextId == old(nextId) + 1 && results == old(results)[old(nextId) := WinnerResult(participants, entries, b, w)]
    {
      FinalizeKeepsOk(battles, participants, posts, entries, votes, results, nextId, b, w);
      results, nextId := results[nextId := WinnerResult(participants, entries, b, w)], nextId + 1;
    }
  }
}

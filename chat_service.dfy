/**
 * Direct messaging: one-to-one conversations, messages with a client
 * idempotency key, per-recipient receipts that move SENT -> DELIVERED ->
 * READ, each participant's unread counter and the conversation's reference
 * to its last message.
 */
module ChatService {

  import opened Outcomes
  import opened Tables
  import opened Text
  import Sorting
  import Paging

  datatype ReceiptStatus = SENT | DELIVERED | READ

  /** Receipts only ever move forward in this order. */
  function StatusRank(s: ReceiptStatus): nat
  {
    match s
    case SENT => 0
    case DELIVERED => 1
    case READ => 2
  }

  datatype Conversation = Conversation(isGroup: bool, lastMessageId: Option<Id>, lastMessageAt: Option<int>)

  datatype Participant = Participant(conversationId: Id, userId: Id, unreadCount: nat, lastReadAt: Option<int>)

  datatype Message = Message(
    conversationId: Id,
    senderId: Id,
    content: Option<string>,
    fileUrl: Option<string>,
    clientMsgId: Option<string>,
    createdAt: int)

  datatype Receipt = Receipt(messageId: Id, userId: Id, status: ReceiptStatus)

  /** The body of a send; an absent optional field is `None`. */
  datatype SendMessageDto = SendMessageDto(
    receiverId: Id,
    content: Option<string>,
    fileUrl: Option<string>,
    clientMsgId: Option<string>)

  // ---------------------------------------------------------------------------
  // Validation of a send

  /** `!!s?.trim()`: present and not blank. */
  predicate Present(s: Option<string>)
  {
    s.Some? && !IsBlank(s.value)
  }

  /**
   * The https-only check on a file URL. `protocolOf` stands for the WHATWG
   * URL parser: `None` when `new URL` throws, otherwise the `protocol`.
   */
  function UrlCheck(fileUrl: string, protocolOf: string -> Option<string>): (err: Option<string>)
    ensures err.None? <==> protocolOf(fileUrl) == Some("https:")
    ensures protocolOf(fileUrl).None? ==> err == Some("Invalid fileUrl")
    ensures protocolOf(fileUrl).Some? && err.Some? ==> err == Some("Only https URLs allowed")
  {
    match protocolOf(fileUrl)
    case None => Some("Invalid fileUrl")
    case Some(p) => if p != "https:" then Some("Only https URLs allowed") else None
  }

  /** Everything sendMessage rejects before it reads the database. */
  function SendCheck(dto: SendMessageDto, protocolOf: string -> Option<string>): (err: Option<string>)
    ensures err.None? <==>
      (Present(dto.content) || Present(dto.fileUrl))
      && (Present(dto.fileUrl) ==> protocolOf(dto.fileUrl.value) == Some("https:"))
    ensures !Present(dto.content) && !Present(dto.fileUrl) ==>
      err == Some("Either content or fileUrl is required")
  {
    if !Present(dto.content) && !Present(dto.fileUrl) then Some("Either content or fileUrl is required")
    else if Present(dto.fileUrl) then UrlCheck(dto.fileUrl.value, protocolOf)
    else None
  }

  /** `hasX ? x.trim() : null`. */
  function TrimmedOrNull(s: Option<string>): (r: Option<string>)
    ensures r.Some? <==> Present(s)
    ensures r.Some? ==> r.value == Trim(s.value) && r.value != []
  {
    if Present(s) then Some(Trim(s.value)) else None
  }

  // ---------------------------------------------------------------------------
  // Conversations and participants

  predicate IsMember(parts: map<Id, Participant>, c: Id, u: Id)
  {
    exists i :: i in parts && parts[i].conversationId == c && parts[i].userId == u
  }

  function MemberCount(parts: map<Id, Participant>, c: Id): nat
  {
    Count(parts, (p: Participant) => p.conversationId == c)
  }

  /** A non-group conversation that has both users among its participants. */
  predicate Joins(convs: map<Id, Conversation>, parts: map<Id, Participant>, c: Id, a: Id, b: Id)
  {
    c in convs && !convs[c].isGroup && IsMember(parts, c, a) && IsMember(parts, c, b)
  }

  /** The `findFirst` of getOrCreateOneToOneConversation: the oldest conversation joining `a` and `b`. */
  function FindPair(convs: map<Id, Conversation>, parts: map<Id, Participant>, next: Id, a: Id, b: Id): (r: Option<Id>)
    ensures r.Some? ==> r.value < next && Joins(convs, parts, r.value, a, b)
    ensures r.Some? ==> forall c :: 0 <= c < r.value ==> !Joins(convs, parts, c, a, b)
    ensures r.None? ==> forall c :: 0 <= c < next ==> !Joins(convs, parts, c, a, b)
  {
    var p: Id -> bool := (c: Id) => Joins(convs, parts, c, a, b);
    assert forall c :: Joins(convs, parts, c, a, b) ==> p(c);
    First(next, p)
  }

  /** The conversation getOrCreateOneToOneConversation reuses: the first pair conversation, if it has exactly two rows. */
  function Reusable(convs: map<Id, Conversation>, parts: map<Id, Participant>, next: Id, a: Id, b: Id): (r: Option<Id>)
    ensures var f := FindPair(convs, parts, next, a, b);
      r.Some? <==> f.Some? && MemberCount(parts, f.value) == 2
    ensures r.Some? ==> r == FindPair(convs, parts, next, a, b) && Joins(convs, parts, r.value, a, b)
  {
    var f := FindPair(convs, parts, next, a, b);
    if f.Some? && MemberCount(parts, f.value) == 2 then f else None
  }

  /** Resolving a pair does not depend on which user asks. */
  lemma FindPairSymmetric(convs: map<Id, Conversation>, parts: map<Id, Participant>, next: Id, a: Id, b: Id)
    ensures FindPair(convs, parts, next, a, b) == FindPair(convs, parts, next, b, a)
  {
    SelectExt(next, (c: Id) => Joins(convs, parts, c, a, b), (c: Id) => Joins(convs, parts, c, b, a));
  }

  function NewConversation(): Conversation
  {
    Conversation(false, None, None)
  }

  /** The two participant rows created with conversation `c`. */
  function PairRows(parts: map<Id, Participant>, c: Id, a: Id, b: Id): map<Id, Participant>
  {
    parts[c + 1 := Participant(c, a, 0, None)][c + 2 := Participant(c, b, 0, None)]
  }

  /** The `unreadCount: { increment: 1 }` update of the row (c, u). */
  function IncUnread(parts: map<Id, Participant>, c: Id, u: Id): (r: map<Id, Participant>)
    ensures r.Keys == parts.Keys
    ensures forall i :: i in r ==>
      r[i] == if parts[i].conversationId == c && parts[i].userId == u
              then parts[i].(unreadCount := parts[i].unreadCount + 1) else parts[i]
  {
    map i | i in parts :: if parts[i].conversationId == c && parts[i].userId == u
                          then parts[i].(unreadCount := parts[i].unreadCount + 1) else parts[i]
  }

  /** The `unreadCount: 0, lastReadAt: now` update of the row (c, u). */
  function ResetUnread(parts: map<Id, Participant>, c: Id, u: Id, now: int): (r: map<Id, Participant>)
    ensures r.Keys == parts.Keys
    ensures forall i :: i in r ==>
      r[i] == if parts[i].conversationId == c && parts[i].userId == u
              then parts[i].(unreadCount := 0, lastReadAt := Some(now)) else parts[i]
  {
    map i | i in parts :: if parts[i].conversationId == c && parts[i].userId == u
                          then parts[i].(unreadCount := 0, lastReadAt := Some(now)) else parts[i]
  }

  /** A row-wise update that keeps every row's conversation and user keeps the membership structure. */
  ghost predicate SameShape(p: map<Id, Participant>, q: map<Id, Participant>)
  {
    p.Keys == q.Keys
    && forall i :: i in p ==> p[i].conversationId == q[i].conversationId && p[i].userId == q[i].userId
  }

  lemma SameShapeCounts(p: map<Id, Participant>, q: map<Id, Participant>)
    requires SameShape(p, q)
    ensures forall c :: MemberCount(p, c) == MemberCount(q, c)
    ensures forall c, u :: IsMember(p, c, u) <==> IsMember(q, c, u)
  {
    forall c ensures MemberCount(p, c) == MemberCount(q, c) {
      assert Matching(p, (x: Participant) => x.conversationId == c)
          == Matching(q, (x: Participant) => x.conversationId == c);
    }
    forall c, u | IsMember(p, c, u) ensures IsMember(q, c, u) {
      var i :| i in p && p[i].conversationId == c && p[i].userId == u;
      assert i in q;
    }
    forall c, u | IsMember(q, c, u) ensures IsMember(p, c, u) {
      var i :| i in q && q[i].conversationId == c && q[i].userId == u;
      assert i in p;
    }
  }

  /** The first participant of `c` (in row order) that is not `u`. */
  function GetOtherParticipantId(parts: map<Id, Participant>, next: Id, c: Id, u: Id): (r: Outcome<Id>)
    ensures r.Ok? ==> r.value != u && IsMember(parts, c, r.value)
    ensures !r.Ok? ==> r == NotFound("Other participant not found")
    ensures !r.Ok? ==> forall i :: i in parts && i < next && parts[i].conversationId == c ==> parts[i].userId == u
  {
    match FindFirst(parts, next, (p: Participant) => p.conversationId == c && p.userId != u)
    case None => NotFound("Other participant not found")
    case Some(i) => Ok(parts[i].userId)
  }

  // ---------------------------------------------------------------------------
  // Messages and receipts

  function FindByKey(msgs: map<Id, Message>, next: Id, c: Id, sender: Id, key: string): (r: Option<Id>)
    ensures r.Some? ==>
      (r.value in msgs && msgs[r.value].conversationId == c
       && msgs[r.value].senderId == sender && msgs[r.value].clientMsgId == Some(key))
    ensures r.None? ==> forall i :: i in msgs && i < next ==>
      !(msgs[i].conversationId == c && msgs[i].senderId == sender && msgs[i].clientMsgId == Some(key))
  {
    FindFirst(msgs, next, (m: Message) => m.conversationId == c && m.senderId == sender && m.clientMsgId == Some(key))
  }

  predicate InConversation(msgs: map<Id, Message>, rc: Receipt, c: Id)
  {
    rc.messageId in msgs && msgs[rc.messageId].conversationId == c
  }

  /** markDelivered's `updateMany`: the user's SENT receipts in the conversation become DELIVERED. */
  function Delivered(receipts: map<Id, Receipt>, msgs: map<Id, Message>, c: Id, u: Id): (r: map<Id, Receipt>)
    ensures r.Keys == receipts.Keys
    ensures forall i :: i in r ==>
      r[i].messageId == receipts[i].messageId && r[i].userId == receipts[i].userId
      && StatusRank(r[i].status) >= StatusRank(receipts[i].status)
    ensures forall i :: i in r ==>
      (r[i] != receipts[i] <==> receipts[i].userId == u && InConversation(msgs, receipts[i], c) && receipts[i].status == SENT)
    ensures forall i :: i in r && r[i] != receipts[i] ==> r[i].status == DELIVERED
  {
    map i | i in receipts ::
      if receipts[i].userId == u && InConversation(msgs, receipts[i], c) && receipts[i].status == SENT
      then receipts[i].(status := DELIVERED) else receipts[i]
  }

  /** Marking delivered twice is marking delivered once. */
  lemma DeliveredIdempotent(receipts: map<Id, Receipt>, msgs: map<Id, Message>, c: Id, u: Id)
    ensures Delivered(Delivered(receipts, msgs, c, u), msgs, c, u) == Delivered(receipts, msgs, c, u)
  {
    var once := Delivered(receipts, msgs, c, u);
    var twice := Delivered(once, msgs, c, u);
    forall i | i in twice ensures twice[i] == once[i] {
      assert once[i].status != SENT || !(once[i].userId == u && InConversation(msgs, once[i], c));
    }
  }

  /** markRead's `updateMany`: the user's SENT or DELIVERED receipts on messages created no later than `t` become READ. */
  function ReadUpTo(receipts: map<Id, Receipt>, msgs: map<Id, Message>, c: Id, u: Id, t: int): (r: map<Id, Receipt>)
    ensures r.Keys == receipts.Keys
    ensures forall i :: i in r ==>
      r[i].messageId == receipts[i].messageId && r[i].userId == receipts[i].userId
      && StatusRank(r[i].status) >= StatusRank(receipts[i].status)
    ensures forall i :: i in r ==>
      (receipts[i].userId == u && InConversation(msgs, receipts[i], c) && msgs[receipts[i].messageId].createdAt <= t
       ==> r[i].status == READ)
    ensures forall i :: i in r ==>
      (!(receipts[i].userId == u && InConversation(msgs, receipts[i], c) && msgs[receipts[i].messageId].createdAt <= t)
       ==> r[i] == receipts[i])
  {
    map i | i in receipts ::
      if receipts[i].userId == u && InConversation(msgs, receipts[i], c)
         && msgs[receipts[i].messageId].createdAt <= t && receipts[i].status in {SENT, DELIVERED}
      then receipts[i].(status := READ) else receipts[i]
  }

  /** A delivery pass after a read pass changes only receipts that the read pass did not reach. */
  lemma ReadThenDeliveredKeepsRead(receipts: map<Id, Receipt>, msgs: map<Id, Message>, c: Id, u: Id, t: int)
    ensures var read := ReadUpTo(receipts, msgs, c, u, t);
      forall i :: i in read && read[i].status == READ ==> Delivered(read, msgs, c, u)[i].status == READ
  {
  }

  // ---------------------------------------------------------------------------
  // Read-only queries

  /**
   * The inbox order, `orderBy: { conversation: { lastMessageAt: 'desc' } }`.
   * PostgreSQL sorts NULL first in a descending order, so conversations
   * without messages come first.
   */
  function InboxRank(parts: map<Id, Participant>, convs: map<Id, Conversation>): nat -> (int, int)
  {
    (i: nat) =>
      if i in parts && parts[i].conversationId in convs && convs[parts[i].conversationId].lastMessageAt.Some?
      then (1, - convs[parts[i].conversationId].lastMessageAt.value)
      else (0, 0)
  }

  /** The participant rows of user `u`, in inbox order. */
  function Inbox(parts: map<Id, Participant>, convs: map<Id, Conversation>, next: Id, u: Id): (r: seq<Id>)
    ensures forall i :: i in r <==> i < next && i in parts && parts[i].userId == u
    ensures forall a, b :: 0 <= a < b < |r| ==>
      Sorting.RankBefore(InboxRank(parts, convs)(r[a]), InboxRank(parts, convs)(r[b]), r[a], r[b])
    ensures forall a, b :: 0 <= a < b < |r| ==> r[a] != r[b]
  {
    var ids := IdsBelow(parts, next, (p: Participant) => p.userId == u);
    var r := Sorting.SortByRank(ids, InboxRank(parts, convs));
    assert forall i :: i in r <==> i in multiset(r);
    assert forall i :: i in ids <==> i in multiset(ids);
    PermutationDistinct(r, ids);
    r
  }

  datatype ConversationView = ConversationView(
    conversationId: Id,
    unreadCount: nat,
    lastReadAt: Option<int>,
    lastMessageAt: Option<int>,
    lastMessage: Option<Id>,
    participants: seq<Id>)

  function View(parts: map<Id, Participant>, convs: map<Id, Conversation>, next: Id, i: Id): ConversationView
    requires i in parts
  {
    var p := parts[i];
    var c := p.conversationId;
    var members := IdsBelow(parts, next, (q: Participant) => q.conversationId == c);
    ConversationView(
      c, p.unreadCount, p.lastReadAt,
      if c in convs then convs[c].lastMessageAt else None,
      if c in convs then convs[c].lastMessageId else None,
      seq(|members|, k requires 0 <= k < |members| => parts[members[k]].userId))
  }

  /** listConversations: the window [offset, offset + limit) of the user's inbox. */
  function ListConversations(parts: map<Id, Participant>, convs: map<Id, Conversation>, next: Id,
                             u: Id, limit: nat, offset: nat): (r: seq<ConversationView>)
    ensures |r| <= limit
    ensures forall k :: 0 <= k < |r| ==>
      var inbox := Inbox(parts, convs, next, u);
      offset + k < |inbox| && r[k] == View(parts, convs, next, inbox[offset + k])
      && parts[inbox[offset + k]].userId == u
    ensures |r| == limit || offset + |r| >= |Inbox(parts, convs, next, u)|
  {
    var inbox := Inbox(parts, convs, next, u);
    var w := Paging.Window(inbox, offset, limit);
    assert forall k :: 0 <= k < |w| ==> w[k] in inbox;
    seq(|w|, k requires 0 <= k < |w| => View(parts, convs, next, w[k]))
  }

  /** Newest first, `orderBy: { createdAt: 'desc' }`. */
  function NewestFirst(msgs: map<Id, Message>): nat -> (int, int)
  {
    (i: nat) => if i in msgs then (- msgs[i].createdAt, 0) else (0, 0)
  }

  /** The messages of conversation `c`, newest first. */
  function History(msgs: map<Id, Message>, next: Id, c: Id): (r: seq<Id>)
    ensures forall i :: i in r <==> i < next && i in msgs && msgs[i].conversationId == c
    ensures forall a, b :: 0 <= a < b < |r| ==>
      Sorting.RankBefore(NewestFirst(msgs)(r[a]), NewestFirst(msgs)(r[b]), r[a], r[b])
  {
    var ids := IdsBelow(msgs, next, (m: Message) => m.conversationId == c);
    var r := Sorting.SortByRank(ids, NewestFirst(msgs));
    assert forall i :: i in r <==> i in multiset(r);
    assert forall i :: i in ids <==> i in multiset(ids);
    r
  }

  /** History holds messages of `c` only, newest first, each once. */
  lemma HistoryOrder(msgs: map<Id, Message>, next: Id, c: Id)
    ensures var h := History(msgs, next, c);
      (forall k :: 0 <= k < |h| ==> h[k] in msgs && msgs[h[k]].conversationId == c)
      && (forall a, b :: 0 <= a < b < |h| ==> msgs[h[a]].createdAt >= msgs[h[b]].createdAt && h[a] != h[b])
  {
    var h := History(msgs, next, c);
    forall k | 0 <= k < |h| ensures h[k] in msgs && msgs[h[k]].conversationId == c {
      assert h[k] in h;
    }
    forall a, b | 0 <= a < b < |h| ensures msgs[h[a]].createdAt >= msgs[h[b]].createdAt {
      assert h[a] in h && h[b] in h;
      assert Sorting.RankBefore(NewestFirst(msgs)(h[a]), NewestFirst(msgs)(h[b]), h[a], h[b]);
    }
    DistinctIds(msgs, next, c);
  }

  /** History lists every message once. */
  lemma DistinctIds(msgs: map<Id, Message>, next: Id, c: Id)
    ensures var h := History(msgs, next, c); forall x, y :: 0 <= x < y < |h| ==> h[x] != h[y]
  {
    PermutationDistinct(History(msgs, next, c), IdsBelow(msgs, next, (m: Message) => m.conversationId == c));
  }

  function IndexOf(s: seq<Id>, x: Id): (k: nat)
    requires x in s
    ensures k < |s| && s[k] == x
  {
    if s[0] == x then 0 else 1 + IndexOf(s[1..], x)
  }

  function Reverse(s: seq<Id>): (r: seq<Id>)
    ensures |r| == |s|
    ensures forall k :: 0 <= k < |s| ==> r[k] == s[|s| - 1 - k]
  {
    if s == [] then [] else Reverse(s[1..]) + [s[0]]
  }

  /**
   * Where the page starts in the newest-first history: at the top, or just
   * after the cursor (`cursor` plus `skip: 1`). A cursor that is not a
   * message of this conversation yields no page.
   */
  function PageStart(h: seq<Id>, cursor: Option<Id>): (start: Option<nat>)
    ensures cursor.None? ==> start == Some(0)
    ensures cursor.Some? && cursor.value in h ==>
      start.Some? && 1 <= start.value <= |h| && h[start.value - 1] == cursor.value
    ensures cursor.Some? && cursor.value !in h ==> start.None?
  {
    match cursor
    case None => Some(0)
    case Some(cid) => if cid in h then Some(IndexOf(h, cid) + 1) else None
  }

  /** The page of history the query returns, newest first, before it is reversed. */
  function HistoryPage(msgs: map<Id, Message>, next: Id, c: Id, limit: nat, cursor: Option<Id>): (r: seq<Id>)
    ensures cursor.None? ==> r == Paging.Window(History(msgs, next, c), 0, limit)
    ensures var h := History(msgs, next, c);
      forall i :: 0 <= i < |h| && cursor == Some(h[i]) ==> r == Paging.Window(h, i + 1, limit)
    ensures cursor.Some? && cursor.value !in History(msgs, next, c) ==> r == []
  {
    var h := History(msgs, next, c);
    DistinctIds(msgs, next, c);
    match PageStart(h, cursor)
    case None => []
    case Some(start) => Paging.Window(h, start, limit)
  }

  /** A page holds at most `limit` messages of the conversation, newest first. */
  lemma PageShape(msgs: map<Id, Message>, next: Id, c: Id, limit: nat, cursor: Option<Id>)
    ensures var page := HistoryPage(msgs, next, c, limit, cursor);
      |page| <= limit
      && (forall k :: 0 <= k < |page| ==> page[k] in msgs && msgs[page[k]].conversationId == c)
      && (forall a, b :: 0 <= a < b < |page| ==> msgs[page[a]].createdAt >= msgs[page[b]].createdAt)
  {
    var h := History(msgs, next, c);
    HistoryOrder(msgs, next, c);
    var start := PageStart(h, cursor);
    if start.Some? {
      WindowShape(msgs, c, h, start.value, limit);
    }
  }

  /** A window of a newest-first run of the conversation's messages is one as well. */
  lemma WindowShape(msgs: map<Id, Message>, c: Id, h: seq<Id>, start: nat, limit: nat)
    requires forall k :: 0 <= k < |h| ==> h[k] in msgs && msgs[h[k]].conversationId == c
    requires forall a, b :: 0 <= a < b < |h| ==> msgs[h[a]].createdAt >= msgs[h[b]].createdAt
    ensures var page := Paging.Window(h, start, limit);
      |page| <= limit
      && (forall k :: 0 <= k < |page| ==> page[k] in msgs && msgs[page[k]].conversationId == c)
      && (forall a, b :: 0 <= a < b < |page| ==> msgs[page[a]].createdAt >= msgs[page[b]].createdAt)
  {
    var page := Paging.Window(h, start, limit);
    forall a, b | 0 <= a < b < |page| ensures msgs[page[a]].createdAt >= msgs[page[b]].createdAt {
      assert page[a] == h[start + a] && page[b] == h[start + b];
    }
  }

  /** With a cursor, the page holds only messages older than (or as old as) the cursor, never the cursor itself. */
  lemma CursorPage(msgs: map<Id, Message>, next: Id, c: Id, limit: nat, cid: Id)
    ensures var page := HistoryPage(msgs, next, c, limit, Some(cid));
      forall k :: 0 <= k < |page| ==>
        cid in msgs && page[k] != cid && msgs[page[k]].createdAt <= msgs[cid].createdAt
  {
    var h := History(msgs, next, c);
    HistoryOrder(msgs, next, c);
    if cid in h {
      var start := PageStart(h, Some(cid)).value;
      WindowAfter(msgs, h, start, limit);
    }
  }

  lemma WindowAfter(msgs: map<Id, Message>, h: seq<Id>, start: nat, limit: nat)
    requires 1 <= start <= |h|
    requires forall k :: 0 <= k < |h| ==> h[k] in msgs
    requires forall a, b :: 0 <= a < b < |h| ==> msgs[h[a]].createdAt >= msgs[h[b]].createdAt && h[a] != h[b]
    ensures var page := Paging.Window(h, start, limit);
      forall k :: 0 <= k < |page| ==>
        page[k] != h[start - 1] && msgs[page[k]].createdAt <= msgs[h[start - 1]].createdAt
  {
    var page := Paging.Window(h, start, limit);
    forall k | 0 <= k < |page|
      ensures page[k] != h[start - 1] && msgs[page[k]].createdAt <= msgs[h[start - 1]].createdAt
    {
      assert page[k] == h[start + k];
    }
  }

  /** Without a cursor, the page holds the newest messages: every message left out is no newer than any shown. */
  lemma FirstPageIsNewest(msgs: map<Id, Message>, next: Id, c: Id, limit: nat)
    ensures var page := HistoryPage(msgs, next, c, limit, None);
      forall i, k :: i in msgs && i < next && msgs[i].conversationId == c && i !in page && 0 <= k < |page| ==>
        msgs[i].createdAt <= msgs[page[k]].createdAt
  {
    var h := History(msgs, next, c);
    HistoryOrder(msgs, next, c);
    var page := HistoryPage(msgs, next, c, limit, None);
    forall i, k | i in msgs && i < next && msgs[i].conversationId == c && i !in page && 0 <= k < |page|
      ensures msgs[i].createdAt <= msgs[page[k]].createdAt
    {
      assert i in h;
      var j := IndexOf(h, i);
      assert forall x :: 0 <= x < |page| ==> page[x] == h[x];
      assert j >= |page|;
    }
  }

  /**
   * listMessages: rejected for a non-participant, otherwise a page of at
   * most `limit` messages of the conversation, oldest first.
   */
  function ListMessages(parts: map<Id, Participant>, msgs: map<Id, Message>, next: Id,
                        u: Id, c: Id, limit: nat, cursor: Option<Id>): (r: Outcome<seq<Id>>)
    ensures r.Ok? || r == Forbidden("Not a participant")
    ensures r.Ok? <==> IsMember(parts, c, u)
    ensures r.Ok? ==> r.value == Reverse(HistoryPage(msgs, next, c, limit, cursor))
    ensures r.Ok? ==> |r.value| <= limit
    ensures r.Ok? ==> forall k :: 0 <= k < |r.value| ==> r.value[k] in msgs && msgs[r.value[k]].conversationId == c
    ensures r.Ok? ==> forall a, b :: 0 <= a < b < |r.value| ==> msgs[r.value[a]].createdAt <= msgs[r.value[b]].createdAt
  {
    if !IsMember(parts, c, u) then Forbidden("Not a participant")
    else
      PageShape(msgs, next, c, limit, cursor);
      Ok(Reverse(HistoryPage(msgs, next, c, limit, cursor)))
  }

  /**
   * Cursor paging walks the history without gaps or repeats: when a page is
   * full, its oldest message as the next cursor starts the page right after it.
   */
  lemma NextPageByCursor(msgs: map<Id, Message>, next: Id, c: Id, limit: nat, cursor: Option<Id>, s: nat)
    requires var h := History(msgs, next, c);
      (cursor.None? && s == 0) || (cursor.Some? && 1 <= s <= |h| && h[s - 1] == cursor.value)
    requires limit >= 1 && s + limit <= |History(msgs, next, c)|
    ensures var page := HistoryPage(msgs, next, c, limit, cursor);
      |page| == limit
      && HistoryPage(msgs, next, c, limit, Some(page[limit - 1])) == Paging.Window(History(msgs, next, c), s + limit, limit)
  {
    var h := History(msgs, next, c);
    var page := HistoryPage(msgs, next, c, limit, cursor);
    assert page == Paging.Window(h, s, limit);
    assert page[limit - 1] == h[s + limit - 1];
  }

  // ---------------------------------------------------------------------------
  // Store invariants

  ghost predicate ParticipantsOk(users: set<Id>, convs: map<Id, Conversation>, parts: map<Id, Participant>)
  {
    (forall i :: i in parts ==> parts[i].conversationId in convs && parts[i].userId in users)
    && (forall i, j ::
          (i in parts && j in parts && parts[i].conversationId == parts[j].conversationId
           && parts[i].userId == parts[j].userId) ==> i == j)
  }

  ghost predicate MessagesOk(convs: map<Id, Conversation>, msgs: map<Id, Message>)
  {
    (forall i :: i in msgs ==> msgs[i].conversationId in convs)
    && (forall i, j ::
          (i in msgs && j in msgs && msgs[i].clientMsgId.Some? && msgs[i].clientMsgId == msgs[j].clientMsgId
           && msgs[i].conversationId == msgs[j].conversationId && msgs[i].senderId == msgs[j].senderId) ==> i == j)
  }

  ghost predicate ReceiptsOk(msgs: map<Id, Message>, receipts: map<Id, Receipt>)
  {
    (forall i :: i in receipts ==> receipts[i].messageId in msgs)
    && (forall i, j ::
          (i in receipts && j in receipts && receipts[i].messageId == receipts[j].messageId
           && receipts[i].userId == receipts[j].userId) ==> i == j)
  }

  /** The schema's keys, unique constraints and foreign keys over the chat tables. */
  ghost predicate StoreOk(users: set<Id>, convs: map<Id, Conversation>, parts: map<Id, Participant>,
                          msgs: map<Id, Message>, receipts: map<Id, Receipt>, next: Id)
  {
    Bounded(convs, next) && Bounded(parts, next) && Bounded(msgs, next) && Bounded(receipts, next)
    && ParticipantsOk(users, convs, parts) && MessagesOk(convs, msgs) && ReceiptsOk(msgs, receipts)
  }

  /** Three sets of ids where two distinct members fill a set of two. */
  lemma PairFillsTwo(s: set<Id>, x: Id, y: Id)
    requires |s| == 2 && x in s && y in s && x != y
    ensures s == {x, y}
  {
    var rest := s - {x, y};
    assert |s - {x, y}| == |s| - |{x, y}|;
    assert rest == {};
  }

  /** In a one-to-one conversation of `a` and `b`, the other participant of `a` is `b`. */
  lemma OtherOfPair(users: set<Id>, convs: map<Id, Conversation>, parts: map<Id, Participant>,
                    next: Id, c: Id, a: Id, b: Id)
    requires ParticipantsOk(users, convs, parts) && Bounded(parts, next)
    requires a != b && Joins(convs, parts, c, a, b) && MemberCount(parts, c) == 2
    ensures GetOtherParticipantId(parts, next, c, a) == Ok(b)
  {
    var ia :| ia in parts && parts[ia].conversationId == c && parts[ia].userId == a;
    var ib :| ib in parts && parts[ib].conversationId == c && parts[ib].userId == b;
    var s := Matching(parts, (p: Participant) => p.conversationId == c);
    PairFillsTwo(s, ia, ib);
    var r := GetOtherParticipantId(parts, next, c, a);
    if r.Ok? {
      var j :| j in parts && parts[j].conversationId == c && parts[j].userId == r.value;
      assert j in s;
    }
  }

  /** The conversation getOrCreateOneToOneConversation settles on, with the tables and counter after it. */
  datatype Resolution = Resolution(c: Id, convs: map<Id, Conversation>, parts: map<Id, Participant>, next: Id)

  /** Reuse the pair's conversation when it has two rows; otherwise create one with the pair's two rows. */
  function Resolve(convs: map<Id, Conversation>, parts: map<Id, Participant>, next: Id, a: Id, b: Id): (z: Resolution)
    ensures z.c in z.convs && z.next >= next
    ensures z.c < next <==> Reusable(convs, parts, next, a, b).Some?
  {
    var f := Reusable(convs, parts, next, a, b);
    if f.Some? then Resolution(f.value, convs, parts, next)
    else Resolution(next, convs[next := NewConversation()], PairRows(parts, next, a, b), next + 3)
  }

  /**
   * The writes of sendMessage's transaction in conversation `c`: message
   * `next`, a READ receipt for the sender and a SENT one for the receiver,
   * the receiver's unread counter and the conversation's lastMessageId and lastMessageAt.
   */
  ghost predicate Posted(convs: map<Id, Conversation>, parts: map<Id, Participant>, msgs: map<Id, Message>,
                         receipts: map<Id, Receipt>, next: Id,
                         convs': map<Id, Conversation>, parts': map<Id, Participant>, msgs': map<Id, Message>,
                         receipts': map<Id, Receipt>, next': Id,
                         c: Id, sender: Id, dto: SendMessageDto, now: int)
  {
    next' == next + 3
    && msgs' == msgs[next := Message(c, sender, TrimmedOrNull(dto.content), TrimmedOrNull(dto.fileUrl),
                                     dto.clientMsgId, now)]
    && receipts' == receipts[next + 1 := Receipt(next, sender, READ)][next + 2 := Receipt(next, dto.receiverId, SENT)]
    && parts' == IncUnread(parts, c, dto.receiverId)
    && convs' == convs[c := Conversation(false, Some(next), Some(now))]
  }

  class ChatStore {
    var users: set<Id>
    var conversations: map<Id, Conversation>
    var participants: map<Id, Participant>
    var messages: map<Id, Message>
    var receipts: map<Id, Receipt>
    var nextId: Id

    ghost predicate Valid()
      reads this
    {
      StoreOk(users, conversations, participants, messages, receipts, nextId)
    }

    constructor (users: set<Id>)
      ensures Valid() && this.users == users
      ensures conversations == map[] && participants == map[] && messages == map[] && receipts == map[]
    {
      this.users := users;
      conversations, participants, messages, receipts := map[], map[], map[], map[];
      nextId := 0;
    }

    /** `findUnique` on (conversationId, userId), failing with Forbidden. */
    method AssertParticipant(c: Id, u: Id) returns (r: Outcome<bool>)
      ensures r == if IsMember(participants, c, u) then Ok(true) else Forbidden("Not a participant")
    {
      if IsMember(participants, c, u) {
        r := Ok(true);
      } else {
        r := Forbidden("Not a participant");
      }
    }

    method GetOrCreateOneToOneConversation(a: Id, b: Id) returns (r: Outcome<Id>)
      requires Valid()
      modifies this
      ensures Valid() && users == old(users) && messages == old(messages) && receipts == old(receipts)
      ensures r.IsFailure() ==> unchanged(this)
      ensures a == b ==> r == BadRequest("Cannot chat with self")
      ensures a != b && (old(Reusable(conversations, participants, nextId, a, b)).Some? || (a in old(users) && b in old(users)))
        ==> var z := old(Resolve(conversations, participants, nextId, a, b));
            r == Ok(z.c) && conversations == z.convs && participants == z.parts && nextId == z.next
      ensures a != b && old(Reusable(conversations, participants, nextId, a, b)).Some? ==> unchanged(this)
      ensures a != b && old(Reusable(conversations, participants, nextId, a, b)).None? && !(a in old(users) && b in old(users))
        ==> r == Internal("Foreign key constraint failed")
      ensures r.Ok? ==>
        Joins(conversations, participants, r.value, a, b) && Joins(conversations, participants, r.value, b, a)
        && MemberCount(participants, r.value) == 2
      ensures r.Ok? && old(FindPair(conversations, participants, nextId, a, b)).None? ==>
        FindPair(conversations, participants, nextId, a, b) == Some(r.value)
        && FindPair(conversations, participants, nextId, b, a) == Some(r.value)
    {
      if a == b {
        return BadRequest("Cannot chat with self");
      }
      var existing := FindPair(conversations, participants, nextId, a, b);
      if existing.Some? && MemberCount(participants, existing.value) == 2 {
        assert Resolve(conversations, participants, nextId, a, b) == Resolution(existing.value, conversations, participants, nextId);
        return Ok(existing.value);
      }
      if a !in users || b !in users {
        return Internal("Foreign key constraint failed");
      }
      assert Resolve(conversations, participants, nextId, a, b)
          == Resolution(nextId, conversations[nextId := NewConversation()], PairRows(participants, nextId, a, b), nextId + 3);
      var c := CreatePair(a, b, existing.None?);
      r := Ok(c);
    }

    /**
     * The `conversation.create` of getOrCreateOneToOneConversation: a
     * one-to-one conversation with a row for each user. When no conversation
     * joined the pair before (`first`), the new one is the first that does.
     */
    method CreatePair(a: Id, b: Id, ghost first: bool) returns (c: Id)
      requires Valid() && a != b && a in users && b in users
      requires first ==> FindPair(conversations, participants, nextId, a, b).None?
      modifies this`conversations, this`participants, this`nextId
      ensures Valid()
      ensures c == old(nextId) && nextId == c + 3
      ensures conversations == old(conversations)[c := NewConversation()]
      ensures participants == PairRows(old(participants), c, a, b)
      ensures Joins(conversations, participants, c, a, b) && Joins(conversations, participants, c, b, a)
      ensures MemberCount(participants, c) == 2
      ensures first ==>
        FindPair(conversations, participants, nextId, a, b) == Some(c)
        && FindPair(conversations, participants, nextId, b, a) == Some(c)
    {
      c := nextId;
      PairKeepsOk(users, conversations, participants, messages, receipts, c, a, b);
      PairIsValid(users, conversations, participants, c, a, b);
      if first {
        FirstPair(conversations, participants, c, a, b);
      }
      conversations, participants, nextId := conversations[c := NewConversation()], PairRows(participants, c, a, b), c + 3;
    }

    /**
     * sendMessage. `protocolOf` is the URL parser, `now` the clock. A replay
     * of a stored (conversation, sender, clientMsgId) returns the stored id.
     */
    method SendMessage(userId: Id, dto: SendMessageDto, protocolOf: string -> Option<string>, now: int)
      returns (r: Outcome<Id>)
      requires Valid()
      modifies this
      ensures Valid() && users == old(users)
      ensures r.IsFailure() ==> unchanged(this)
      ensures SendCheck(dto, protocolOf).Some? ==> r == BadRequest(SendCheck(dto, protocolOf).value)
      ensures SendCheck(dto, protocolOf).None? && userId == dto.receiverId ==> r == BadRequest("Cannot chat with self")
      ensures r.Ok? ==>
        (SendCheck(dto, protocolOf).None? && r.value in messages
         && messages[r.value].senderId == userId
         && Joins(conversations, participants, messages[r.value].conversationId, userId, dto.receiverId))
      // a replay
      ensures SendCheck(dto, protocolOf).None? && userId != dto.receiverId
        && old(Reusable(conversations, participants, nextId, userId, dto.receiverId)).Some?
        && dto.clientMsgId.Some? && dto.clientMsgId.value != ""
        && old(FindByKey(messages, nextId, Reusable(conversations, participants, nextId, userId, dto.receiverId).value,
                         userId, dto.clientMsgId.value)).Some?
        ==> unchanged(this)
            && r == Ok(old(FindByKey(messages, nextId, Reusable(conversations, participants, nextId, userId, dto.receiverId).value,
                                     userId, dto.clientMsgId.value)).value)
      // neither user row exists for a new conversation
      ensures SendCheck(dto, protocolOf).None? && userId != dto.receiverId
        && old(Reusable(conversations, participants, nextId, userId, dto.receiverId)).None?
        && !(userId in old(users) && dto.receiverId in old(users))
        ==> r == Internal("Foreign key constraint failed")
      // a valid send with no stored client key always posts a fresh message
      ensures SendCheck(dto, protocolOf).None? && userId != dto.receiverId
        && (old(Reusable(conversations, participants, nextId, userId, dto.receiverId)).Some?
            || (userId in old(users) && dto.receiverId in old(users)))
        && (dto.clientMsgId.None?
            || old(FindByKey(messages, nextId, Resolve(conversations, participants, nextId, userId, dto.receiverId).c,
                             userId, dto.clientMsgId.value)).None?)
        ==> var z := old(Resolve(conversations, participants, nextId, userId, dto.receiverId));
            r == Ok(z.next) && r.value !in old(messages)
            && Posted(z.convs, z.parts, old(messages), old(receipts), z.next,
                      conversations, participants, messages, receipts, nextId, z.c, userId, dto, now)
      // a fresh message
      ensures r.Ok? && r.value !in old(messages) ==>
        var z := old(Resolve(conversations, participants, nextId, userId, dto.receiverId));
        r == Ok(z.next)
        && Posted(z.convs, z.parts, old(messages), old(receipts), z.next,
                  conversations, participants, messages, receipts, nextId, z.c, userId, dto, now)
    {
      var err := SendCheck(dto, protocolOf);
      if err.Some? {
        return BadRequest(err.value);
      }
      ghost var next0 := nextId;
      ghost var z := Resolve(conversations, participants, nextId, userId, dto.receiverId);
      var conv := GetOrCreateOneToOneConversation(userId, dto.receiverId);
      if conv.IsFailure() {
        return conv.PropagateFailure();
      }
      assert conv.value == z.c;
      if z.c == next0 && dto.clientMsgId.Some? {
        NoMessagesYet(old(conversations), messages, nextId, next0, userId, dto.clientMsgId.value);
      }
      r := PostInConversation(conv.value, userId, dto, now);
    }

    /**
     * The part of sendMessage after the conversation is resolved: the replay
     * lookup on (conversation, sender, clientMsgId), then the transaction.
     */
    method PostInConversation(c: Id, userId: Id, dto: SendMessageDto, now: int) returns (r: Outcome<Id>)
      requires Valid()
      requires userId != dto.receiverId && Joins(conversations, participants, c, userId, dto.receiverId)
      modifies this
      ensures Valid() && users == old(users)
      ensures r.IsFailure() ==> unchanged(this)
      ensures dto.clientMsgId.Some? && old(FindByKey(messages, nextId, c, userId, dto.clientMsgId.value)).Some? ==>
        unchanged(this)
        && r == if dto.clientMsgId.value != ""
                then Ok(old(FindByKey(messages, nextId, c, userId, dto.clientMsgId.value)).value)
                else Internal("Unique constraint failed on (conversationId, senderId, clientMsgId)")
      ensures dto.clientMsgId.None? || old(FindByKey(messages, nextId, c, userId, dto.clientMsgId.value)).None? ==>
        r == Ok(old(nextId))
        && Posted(old(conversations), old(participants), old(messages), old(receipts), old(nextId),
                  conversations, participants, messages, receipts, nextId, c, userId, dto, now)
      ensures r.Ok? ==>
        (r.value in messages && messages[r.value].senderId == userId && messages[r.value].conversationId == c
         && Joins(conversations, participants, c, userId, dto.receiverId))
    {
      if dto.clientMsgId.Some? {
        var existing := FindByKey(messages, nextId, c, userId, dto.clientMsgId.value);
        if existing.Some? {
          if dto.clientMsgId.value != "" {
            return Ok(existing.value);
          }
          // an empty clientMsgId skips the replay lookup but still meets the unique key
          return Internal("Unique constraint failed on (conversationId, senderId, clientMsgId)");
        }
      }
      var m := CreateMessage(c, userId, dto, now);
      r := Ok(m);
    }

    /**
     * The `$transaction` of sendMessage: the message, a READ receipt for the
     * sender and a SENT one for the receiver, the receiver's unread counter
     * and the conversation's lastMessageId and lastMessageAt.
     */
    method CreateMessage(c: Id, userId: Id, dto: SendMessageDto, now: int) returns (m: Id)
      requires Valid()
      requires userId != dto.receiverId && Joins(conversations, participants, c, userId, dto.receiverId)
      requires dto.clientMsgId.Some? ==> FindByKey(messages, nextId, c, userId, dto.clientMsgId.value).None?
      modifies this
      ensures Valid() && users == old(users)
      ensures m == old(nextId)
      ensures Posted(old(conversations), old(participants), old(messages), old(receipts), old(nextId),
                     conversations, participants, messages, receipts, nextId, c, userId, dto, now)
      ensures Joins(conversations, participants, c, userId, dto.receiverId)
    {
      m := nextId;
      var msg := Message(c, userId, TrimmedOrNull(dto.content), TrimmedOrNull(dto.fileUrl), dto.clientMsgId, now);
      CreateKeepsOk(users, conversations, participants, messages, receipts, m, c, userId, dto.receiverId, msg, now);
      messages, receipts, participants, conversations, nextId :=
        messages[m := msg],
        receipts[m + 1 := Receipt(m, userId, READ)][m + 2 := Receipt(m, dto.receiverId, SENT)],
        IncUnread(participants, c, dto.receiverId),
        conversations[c := Conversation(false, Some(m), Some(now))],
        m + 3;
    }

    method MarkDelivered(userId: Id, c: Id) returns (r: Outcome<bool>)
      requires Valid()
      modifies this`receipts
      ensures Valid()
      ensures r.IsFailure() ==> unchanged(this)
      ensures r == if old(IsMember(participants, c, userId)) then Ok(true) else Forbidden("Not a participant")
      ensures r.Ok? ==> receipts == Delivered(old(receipts), messages, c, userId)
    {
      r := AssertParticipant(c, userId);
      if r.IsFailure() {
        return;
      }
      var rs := Delivered(receipts, messages, c, userId);
      StatusChangeOk(messages, receipts, rs);
      receipts := rs;
    }

    method MarkRead(userId: Id, c: Id, messageId: Id, now: int) returns (r: Outcome<bool>)
      requires Valid()
      modifies this`receipts, this`participants
      ensures Valid()
      ensures r.IsFailure() ==> unchanged(this)
      ensures !old(IsMember(participants, c, userId)) ==> r == Forbidden("Not a participant")
      ensures old(IsMember(participants, c, userId)) && !(messageId in messages && messages[messageId].conversationId == c)
        ==> r == NotFound("Message not found")
      ensures r.Ok? <==> old(IsMember(participants, c, userId)) && messageId in messages && messages[messageId].conversationId == c
      ensures r.Ok? ==>
        receipts == ReadUpTo(old(receipts), messages, c, userId, messages[messageId].createdAt)
        && participants == ResetUnread(old(participants), c, userId, now)
    {
      r := AssertParticipant(c, userId);
      if r.IsFailure() {
        return;
      }
      if !(messageId in messages && messages[messageId].conversationId == c) {
        return NotFound("Message not found");
      }
      var rs := ReadUpTo(receipts, messages, c, userId, messages[messageId].createdAt);
      StatusChangeOk(messages, receipts, rs);
      receipts := rs;
      ghost var parts0 := participants;
      participants := ResetUnread(participants, c, userId, now);
      SameShapeCounts(parts0, participants);
    }
  }

  /** The rows a new conversation adds keep the participant invariant, and the new conversation joins the pair. */
  lemma PairIsValid(users: set<Id>, convs: map<Id, Conversation>, parts: map<Id, Participant>, c: Id, a: Id, b: Id)
    requires ParticipantsOk(users, convs, parts) && Bounded(convs, c) && Bounded(parts, c)
    requires a != b && a in users && b in users
    ensures ParticipantsOk(users, convs[c := NewConversation()], PairRows(parts, c, a, b))
    ensures MemberCount(PairRows(parts, c, a, b), c) == 2
    ensures Joins(convs[c := NewConversation()], PairRows(parts, c, a, b), c, a, b)
    ensures Joins(convs[c := NewConversation()], PairRows(parts, c, a, b), c, b, a)
  {
    var p1 := parts[c + 1 := Participant(c, a, 0, None)];
    var p2 := PairRows(parts, c, a, b);
    var isC := (p: Participant) => p.conversationId == c;
    CountInsert(parts, c + 1, Participant(c, a, 0, None), isC);
    CountInsert(p1, c + 2, Participant(c, b, 0, None), isC);
    assert Matching(parts, isC) == {};
    assert p2[c + 1].conversationId == c && p2[c + 1].userId == a;
    assert p2[c + 2].conversationId == c && p2[c + 2].userId == b;
  }

  /** Creating a pair's conversation keeps the store invariant. */
  lemma PairKeepsOk(users: set<Id>, convs: map<Id, Conversation>, parts: map<Id, Participant>,
                    msgs: map<Id, Message>, receipts: map<Id, Receipt>, c: Id, a: Id, b: Id)
    requires StoreOk(users, convs, parts, msgs, receipts, c)
    requires a != b && a in users && b in users
    ensures StoreOk(users, convs[c := NewConversation()], PairRows(parts, c, a, b), msgs, receipts, c + 3)
  {
    PairIsValid(users, convs, parts, c, a, b);
  }

  /**
   * When no conversation joined the pair, the one created for it is the
   * first that does, whichever user asks.
   */
  lemma FirstPair(convs: map<Id, Conversation>, parts: map<Id, Participant>, c: Id, a: Id, b: Id)
    requires Bounded(convs, c) && Bounded(parts, c) && a != b
    requires FindPair(convs, parts, c, a, b).None?
    ensures FindPair(convs[c := NewConversation()], PairRows(parts, c, a, b), c + 3, a, b) == Some(c)
    ensures FindPair(convs[c := NewConversation()], PairRows(parts, c, a, b), c + 3, b, a) == Some(c)
  {
    var convs' := convs[c := NewConversation()];
    var p2 := PairRows(parts, c, a, b);
    forall i | 0 <= i < c ensures !Joins(convs', p2, i, a, b) {
      assert !Joins(convs, parts, i, a, b);
      forall u | IsMember(p2, i, u) ensures IsMember(parts, i, u) {
        var j :| j in p2 && p2[j].conversationId == i && p2[j].userId == u;
        assert j in parts;
      }
    }
    assert p2[c + 1].conversationId == c && p2[c + 1].userId == a;
    assert p2[c + 2].conversationId == c && p2[c + 2].userId == b;
    FirstIs(c + 3, (i: Id) => Joins(convs', p2, i, a, b), c);
    FindPairSymmetric(convs', p2, c + 3, a, b);
  }

  /** Row updates that keep every row's conversation and user keep the participant invariant. */
  lemma SameShapeOk(users: set<Id>, convs: map<Id, Conversation>, convs': map<Id, Conversation>,
                    p: map<Id, Participant>, q: map<Id, Participant>)
    requires ParticipantsOk(users, convs, p) && SameShape(p, q) && convs'.Keys == convs.Keys
    ensures ParticipantsOk(users, convs', q)
  {
    SameShapeCounts(p, q);
  }

  /** A new message whose key is not taken keeps the message invariant. */
  lemma NewMessageOk(convs: map<Id, Conversation>, msgs: map<Id, Message>, m: Id, msg: Message)
    requires MessagesOk(convs, msgs) && Bounded(msgs, m)
    requires msg.conversationId in convs
    requires msg.clientMsgId.Some? ==>
      FindByKey(msgs, m, msg.conversationId, msg.senderId, msg.clientMsgId.value).None?
    ensures MessagesOk(convs, msgs[m := msg])
  {
  }

  /** The two receipts of a new message keep the receipt invariant. */
  lemma NewReceiptsOk(msgs: map<Id, Message>, receipts: map<Id, Receipt>, m: Id, msg: Message, a: Id, b: Id)
    requires ReceiptsOk(msgs, receipts) && Bounded(msgs, m) && Bounded(receipts, m) && a != b
    ensures ReceiptsOk(msgs[m := msg], receipts[m + 1 := Receipt(m, a, READ)][m + 2 := Receipt(m, b, SENT)])
  {
  }

  /** Status changes that keep every receipt's message and user keep the receipt invariant. */
  lemma StatusChangeOk(msgs: map<Id, Message>, p: map<Id, Receipt>, q: map<Id, Receipt>)
    requires ReceiptsOk(msgs, p) && p.Keys == q.Keys
    requires forall i :: i in p ==> p[i].messageId == q[i].messageId && p[i].userId == q[i].userId
    ensures ReceiptsOk(msgs, q)
  {
  }

  /** The writes of sendMessage's transaction keep the store invariant and the pair joined. */
  lemma CreateKeepsOk(users: set<Id>, convs: map<Id, Conversation>, parts: map<Id, Participant>,
                      msgs: map<Id, Message>, receipts: map<Id, Receipt>, m: Id,
                      c: Id, a: Id, b: Id, msg: Message, now: int)
    requires StoreOk(users, convs, parts, msgs, receipts, m)
    requires a != b && Joins(convs, parts, c, a, b)
    requires msg.conversationId == c && msg.senderId == a
    requires msg.clientMsgId.Some? ==> FindByKey(msgs, m, c, a, msg.clientMsgId.value).None?
    ensures StoreOk(users, convs[c := Conversation(false, Some(m), Some(now))], IncUnread(parts, c, b), msgs[m := msg],
                    receipts[m + 1 := Receipt(m, a, READ)][m + 2 := Receipt(m, b, SENT)], m + 3)
    ensures Joins(convs[c := Conversation(false, Some(m), Some(now))], IncUnread(parts, c, b), c, a, b)
  {
    var convs' := convs[c := Conversation(false, Some(m), Some(now))];
    var parts' := IncUnread(parts, c, b);
    NewMessageOk(convs, msgs, m, msg);
    NewReceiptsOk(msgs, receipts, m, msg, a, b);
    assert convs'.Keys == convs.Keys;
    SameShapeOk(users, convs, convs', parts, parts');
    SameShapeCounts(parts, parts');
  }

  /** A conversation that has just been created holds no message, so no key can be replayed in it. */
  lemma NoMessagesYet(convs: map<Id, Conversation>, msgs: map<Id, Message>, next: Id, c: Id, sender: Id, key: string)
    requires MessagesOk(convs, msgs) && c !in convs
    ensures FindByKey(msgs, next, c, sender, key).None?
  {
  }
}

/**
 * The WebSocket side of direct messaging: the handshake that binds a
 * socket to a user, the presence broadcasts, and the handlers that call
 * the chat service and emit events.
 *
 * A socket is an object whose `userId` the connection handler sets and
 * whose `log` records, in order, every event the gateway emits, every
 * service request it makes and the forced disconnect. The service's
 * answers are parameters of each handler: an `Outcome` whose failure
 * stands for the exception the service throws, after which the handler
 * does nothing more.
 */
module ChatGateway {

  import opened Outcomes
  import opened Tables
  import opened Text
  import Paging
  import ChatService

  /** Where an event goes: the calling socket, every socket, or the room named after a user. */
  datatype Target = Caller | Everyone | Room(userId: Id)

  datatype Event =
    | Error(message: string)
    | ConnectionSuccess(userId: Id)
    | PresenceOnline(userId: Id)
    | PresenceOffline(userId: Id)
    | ReceiveMessage(messageId: Id)
    | MessageSent(messageId: Id, clientMsgId: Option<string>)
    | UserHistory(conversations: seq<Id>)
    | ConversationOpened(conversationId: Id, userA: Id, userB: Id, messages: seq<Id>)
    | ReceiptDelivered(conversationId: Id, byUserId: Id)
    | PartnersList(partners: seq<Id>)
    | MessageDeleted(messageId: Id)
    | ReceiptRead(conversationId: Id, messageId: Id, byUserId: Id)
    | ReadOk
    | Typing(fromUserId: Id, isTyping: bool)

  /** A call into the chat service, with the arguments the gateway passes. */
  datatype Request =
    | SendMessage(senderId: Id, dto: ChatService.SendMessageDto)
    | ListConversations(userId: Id, limit: int, offset: int)
    | GetOrCreateConversation(userA: Id, userB: Id)
    | ListMessages(userId: Id, conversationId: Id, limit: int, cursorId: Option<Id>)
    | MarkDelivered(userId: Id, conversationId: Id)
    | ChatPartners(userId: Id, limit: int, offset: int)
    | RemoveMessage(userId: Id, messageId: Id)
    | OtherParticipant(conversationId: Id, userId: Id)
    | MarkRead(userId: Id, conversationId: Id, messageId: Id)

  datatype Action = Emit(to: Target, event: Event) | Call(request: Request) | Disconnect

  /** What `jwtService.verify` does with a token: throw (with its message, if any) or decode a payload. */
  datatype Verified = Rejected(reason: Option<string>) | Decoded(sub: Option<Id>)

  /** A JavaScript value as a handler may receive it in a payload field. */
  datatype JsValue = Undefined | Null | Bool(b: bool) | Num(n: int) | Str(s: string)

  /** `!!v`. */
  function Truthy(v: JsValue): (r: bool)
    ensures !r <==> v in {Undefined, Null, Bool(false), Num(0), Str("")}
  {
    match v
    case Undefined => false
    case Null => false
    case Bool(b) => b
    case Num(n) => n != 0
    case Str(s) => s != ""
  }

  /** A string header field that is present and not empty (JavaScript treats `""` as false). */
  predicate Given(s: Option<string>)
  {
    s.Some? && s.value != ""
  }

  /**
   * `auth.token || query.token || authorization?.split(' ')[1] || null`:
   * the first non-empty candidate, in that order.
   */
  function ExtractToken(auth: Option<string>, query: Option<string>, authorization: Option<string>): (r: Option<string>)
    ensures r.Some? ==> r.value != ""
    ensures Given(auth) ==> r == auth
    ensures !Given(auth) && Given(query) ==> r == query
    ensures !Given(auth) && !Given(query) ==>
      r == (if authorization.Some? && Given(SecondSegment(authorization.value, ' '))
            then SecondSegment(authorization.value, ' ') else None)
  {
    if Given(auth) then auth
    else if Given(query) then query
    else if authorization.Some? && Given(SecondSegment(authorization.value, ' ')) then
      SecondSegment(authorization.value, ' ')
    else None
  }

  /** A `Bearer <token>` header alone yields the token. */
  lemma BearerToken(scheme: string, token: string)
    requires ' ' !in scheme && ' ' !in token && token != ""
    ensures ExtractToken(None, Some(""), Some(scheme + " " + token)) == Some(token)
  {
    SecondSegmentOfJoin(scheme, ' ', token);
  }

  /**
   * The checks handleConnection makes before binding the socket, each
   * failure carrying the message sent to the client.
   */
  function Authenticate(token: Option<string>, verify: string -> Verified, users: set<Id>): (r: Outcome<Id>)
    ensures r.Ok? <==> (token.Some? && verify(token.value).Decoded?
      && verify(token.value).sub.Some? && verify(token.value).sub.value in users)
    ensures r.Ok? ==> r.value in users && verify(token.value).sub == Some(r.value)
    ensures !r.Ok? ==> r.Unauthorized?
    ensures token.None? ==> r == Unauthorized("Missing token")
    ensures token.Some? && verify(token.value).Rejected? ==>
      r == Unauthorized(verify(token.value).reason.GetOr("Authentication failed"))
    ensures token.Some? && verify(token.value) == Decoded(None) ==> r == Unauthorized("Invalid token payload")
  {
    if token.None? then Unauthorized("Missing token")
    else
      match verify(token.value)
      case Rejected(reason) => Unauthorized(reason.GetOr("Authentication failed"))
      case Decoded(sub) =>
        if sub.None? then Unauthorized("Invalid token payload")
        else if sub.value !in users then Unauthorized("User not found")
        else Ok(sub.value)
  }

  /** `client.data?.userId ?? data.userId`: the socket's own user wins over the payload. */
  function Acting(bound: Option<Id>, given: Option<Id>): (r: Option<Id>)
    ensures bound.Some? ==> r == bound
    ensures bound.None? ==> r == given
  {
    if bound.Some? then bound else given
  }

  /** `Math.min(Math.max(limit ?? default, 1), 100)`. */
  function LimitOr(limit: Option<int>, default: int): (r: int)
    requires 1 <= default <= 100
    ensures 1 <= r <= 100
    ensures limit.None? ==> r == default
    ensures limit.Some? && 1 <= limit.value <= 100 ==> r == limit.value
    ensures limit.Some? && limit.value < 1 ==> r == 1
    ensures limit.Some? && limit.value > 100 ==> r == 100
  {
    Paging.Clamp(limit.GetOr(default), 1, 100)
  }

  /** `Math.max(offset ?? 0, 0)`. */
  function OffsetOr(offset: Option<int>): (r: nat)
    ensures offset.None? || offset.value <= 0 ==> r == 0
    ensures offset.Some? && offset.value >= 0 ==> r == offset.value
  {
    Paging.Max(offset.GetOr(0), 0)
  }

  class Socket {
    /** `client.data.userId`, set by a successful handshake. */
    var userId: Option<Id>
    var connected: bool
    /** Everything the gateway has done on behalf of this socket, oldest first. */
    var log: seq<Action>

    constructor ()
      ensures userId.None? && connected && log == []
    {
      userId := None;
      connected := true;
      log := [];
    }

    method DisconnectWithError(message: string)
      modifies this`connected, this`log
      ensures !connected
      ensures log == old(log) + [Emit(Caller, Error(message)), Disconnect]
    {
      log := log + [Emit(Caller, Error(message))];
      log := log + [Disconnect];
      connected := false;
    }

    /**
     * The handshake: a user is bound and announced only when the token
     * verifies to a known user; any failure sends one error and drops the
     * connection without binding anyone.
     */
    method HandleConnection(auth: Option<string>, query: Option<string>, authorization: Option<string>,
                            verify: string -> Verified, users: set<Id>)
      modifies this
      ensures var a := Authenticate(ExtractToken(auth, query, authorization), verify, users);
        a.Ok? ==> (userId == Some(a.value) && connected == old(connected)
          && log == old(log) + [Emit(Caller, ConnectionSuccess(a.value)), Emit(Everyone, PresenceOnline(a.value))])
      ensures var a := Authenticate(ExtractToken(auth, query, authorization), verify, users);
        a.IsFailure() ==> (userId == old(userId) && !connected
          && log == old(log) + [Emit(Caller, Error(a.msg)), Disconnect])
    {
      var token := ExtractToken(auth, query, authorization);
      if token.None? {
        DisconnectWithError("Missing token");
        return;
      }
      var payload := verify(token.value);
      if payload.Rejected? {
        DisconnectWithError(payload.reason.GetOr("Authentication failed"));
        return;
      }
      if payload.sub.None? {
        DisconnectWithError("Invalid token payload");
        return;
      }
      var user := payload.sub.value;
      if user !in users {
        DisconnectWithError("User not found");
        return;
      }
      userId := Some(user);
      log := log + [Emit(Caller, ConnectionSuccess(user))];
      log := log + [Emit(Everyone, PresenceOnline(user))];
    }

    /** Presence goes offline for every bound socket that closes, and only for those. */
    method HandleDisconnect()
      modifies this`connected, this`log
      ensures !connected
      ensures old(userId).Some? ==> log == old(log) + [Emit(Everyone, PresenceOffline(old(userId).value))]
      ensures old(userId).None? ==> log == old(log)
    {
      if userId.Some? {
        log := log + [Emit(Everyone, PresenceOffline(userId.value))];
      }
      connected := false;
    }

    /**
     * sendMessage: the saved message goes to the receiver's room, then to
     * the sender's room, then the caller is told the id and its own key.
     */
    method HandleSendMessage(receiverId: Option<Id>, content: Option<string>, fileUrl: Option<string>,
                             clientMsgId: Option<string>, saved: Outcome<Id>)
      modifies this`log
      ensures userId.None? ==> log == old(log) + [Emit(Caller, Error("Unauthenticated socket"))]
      ensures userId.Some? && receiverId.None? ==> log == old(log) + [Emit(Caller, Error("receiverId is required"))]
      ensures userId.Some? && receiverId.Some? ==>
        var call := Call(SendMessage(userId.value, ChatService.SendMessageDto(receiverId.value, content, fileUrl, clientMsgId)));
        log == old(log) + [call] + (if saved.IsFailure() then [] else
          [Emit(Room(receiverId.value), ReceiveMessage(saved.value)),
           Emit(Room(userId.value), ReceiveMessage(saved.value)),
           Emit(Caller, MessageSent(saved.value, clientMsgId))])
    {
      if userId.None? {
        log := log + [Emit(Caller, Error("Unauthenticated socket"))];
        return;
      }
      var sender := userId.value;
      if receiverId.None? {
        log := log + [Emit(Caller, Error("receiverId is required"))];
        return;
      }
      var receiver := receiverId.value;
      log := log + [Call(SendMessage(sender, ChatService.SendMessageDto(receiver, content, fileUrl, clientMsgId)))];
      if saved.IsFailure() {
        return;
      }
      log := log + [Emit(Room(receiver), ReceiveMessage(saved.value))];
      log := log + [Emit(Room(sender), ReceiveMessage(saved.value))];
      log := log + [Emit(Caller, MessageSent(saved.value, clientMsgId))];
    }

    /** get_user_history: the inbox page with a limit in [1, 100] (default 20) and a non-negative offset. */
    method GetUserHistory(given: Option<Id>, limit: Option<int>, offset: Option<int>, inbox: Outcome<seq<Id>>)
      modifies this`log
      ensures Acting(userId, given).None? ==> log == old(log) + [Emit(Caller, Error("userId missing"))]
      ensures Acting(userId, given).Some? ==>
        var call := Call(ListConversations(Acting(userId, given).value, LimitOr(limit, 20), OffsetOr(offset)));
        log == old(log) + [call] + (if inbox.IsFailure() then [] else [Emit(Caller, UserHistory(inbox.value))])
    {
      var user := Acting(userId, given);
      if user.None? {
        log := log + [Emit(Caller, Error("userId missing"))];
        return;
      }
      var lim := LimitOr(limit, 20);
      var off := OffsetOr(offset);
      log := log + [Call(ListConversations(user.value, lim, off))];
      if inbox.IsFailure() {
        return;
      }
      log := log + [Emit(Caller, UserHistory(inbox.value))];
    }

    /**
     * get_conversation: resolve the pair's conversation, send its page of
     * messages (limit default 30) to the caller, mark every receipt of the
     * caller's still SENT in that conversation delivered (not only the
     * page's) and tell the other user.
     */
    method GetConversation(givenA: Option<Id>, userB: Option<Id>, limit: Option<int>, cursorId: Option<Id>,
                           convo: Outcome<Id>, messages: Outcome<seq<Id>>, delivered: Outcome<nat>)
      modifies this`log
      ensures Acting(userId, givenA).None? || userB.None? ==>
        log == old(log) + [Emit(Caller, Error("userA and userB are required"))]
      ensures Acting(userId, givenA).Some? && userB.Some? ==>
        var a := Acting(userId, givenA).value;
        var b := userB.value;
        log == old(log) + [Call(GetOrCreateConversation(a, b))] + (
          if convo.IsFailure() then [] else
          [Call(ListMessages(a, convo.value, LimitOr(limit, 30), cursorId))] + (
            if messages.IsFailure() then [] else
            [Emit(Caller, ConversationOpened(convo.value, a, b, messages.value)),
             Call(MarkDelivered(a, convo.value))]
            + (if delivered.IsFailure() then [] else [Emit(Room(b), ReceiptDelivered(convo.value, a))])))
    {
      var userA := Acting(userId, givenA);
      if userA.None? || userB.None? {
        log := log + [Emit(Caller, Error("userA and userB are required"))];
        return;
      }
      var a, b := userA.value, userB.value;
      log := log + [Call(GetOrCreateConversation(a, b))];
      if convo.IsFailure() {
        return;
      }
      var c := convo.value;
      var lim := LimitOr(limit, 30);
      log := log + [Call(ListMessages(a, c, lim, cursorId))];
      if messages.IsFailure() {
        return;
      }
      log := log + [Emit(Caller, ConversationOpened(c, a, b, messages.value))];
      log := log + [Call(MarkDelivered(a, c))];
      if delivered.IsFailure() {
        return;
      }
      log := log + [Emit(Room(b), ReceiptDelivered(c, a))];
    }

    /**
     * get_partners: the guard and the clamps (limit default 50). The
     * service method it calls is not part of this model; its answer is
     * the `partners` parameter.
     */
    method GetPartners(given: Option<Id>, limit: Option<int>, offset: Option<int>, partners: Outcome<seq<Id>>)
      modifies this`log
      ensures Acting(userId, given).None? ==> log == old(log) + [Emit(Caller, Error("userId missing"))]
      ensures Acting(userId, given).Some? ==>
        var call := Call(ChatPartners(Acting(userId, given).value, LimitOr(limit, 50), OffsetOr(offset)));
        log == old(log) + [call] + (if partners.IsFailure() then [] else [Emit(Caller, PartnersList(partners.value))])
    {
      var user := Acting(userId, given);
      if user.None? {
        log := log + [Emit(Caller, Error("userId missing"))];
        return;
      }
      log := log + [Call(ChatPartners(user.value, LimitOr(limit, 50), OffsetOr(offset)))];
      if partners.IsFailure() {
        return;
      }
      log := log + [Emit(Caller, PartnersList(partners.value))];
    }

    /**
     * delete_message: only the guards and the emission order. The service
     * method it calls is not part of this model; `deleted` stands for its
     * answer, the removed message's sender and conversation.
     */
    method DeleteMessage(messageId: Option<Id>, deleted: Outcome<(Id, Id)>, other: Outcome<Id>)
      modifies this`log
      ensures userId.None? ==> log == old(log) + [Emit(Caller, Error("Unauthenticated socket"))]
      ensures userId.Some? && messageId.None? ==> log == old(log) + [Emit(Caller, Error("messageId required"))]
      ensures userId.Some? && messageId.Some? ==>
        var m := messageId.value;
        log == old(log) + [Call(RemoveMessage(userId.value, m))] + (
          if deleted.IsFailure() then [] else
          [Emit(Room(deleted.value.0), MessageDeleted(m)), Call(OtherParticipant(deleted.value.1, userId.value))]
          + (if other.IsFailure() then [] else [Emit(Room(other.value), MessageDeleted(m)), Emit(Caller, MessageDeleted(m))]))
    {
      if userId.None? {
        log := log + [Emit(Caller, Error("Unauthenticated socket"))];
        return;
      }
      var user := userId.value;
      if messageId.None? {
        log := log + [Emit(Caller, Error("messageId required"))];
        return;
      }
      var m := messageId.value;
      log := log + [Call(RemoveMessage(user, m))];
      if deleted.IsFailure() {
        return;
      }
      log := log + [Emit(Room(deleted.value.0), MessageDeleted(m))];
      log := log + [Call(OtherParticipant(deleted.value.1, user))];
      if other.IsFailure() {
        return;
      }
      log := log + [Emit(Room(other.value), MessageDeleted(m))];
      log := log + [Emit(Caller, MessageDeleted(m))];
    }

    /** mark_read: mark, look up the other participant, tell them, then acknowledge. */
    method HandleMarkRead(conversationId: Id, messageId: Id, marked: Outcome<nat>, other: Outcome<Id>)
      modifies this`log
      ensures userId.None? ==> log == old(log) + [Emit(Caller, Error("Unauthenticated socket"))]
      ensures userId.Some? ==>
        var u := userId.value;
        log == old(log) + [Call(MarkRead(u, conversationId, messageId))] + (
          if marked.IsFailure() then [] else
          [Call(OtherParticipant(conversationId, u))]
          + (if other.IsFailure() then [] else
             [Emit(Room(other.value), ReceiptRead(conversationId, messageId, u)), Emit(Caller, ReadOk)]))
    {
      if userId.None? {
        log := log + [Emit(Caller, Error("Unauthenticated socket"))];
        return;
      }
      var user := userId.value;
      log := log + [Call(MarkRead(user, conversationId, messageId))];
      if marked.IsFailure() {
        return;
      }
      log := log + [Call(OtherParticipant(conversationId, user))];
      if other.IsFailure() {
        return;
      }
      log := log + [Emit(Room(other.value), ReceiptRead(conversationId, messageId, user))];
      log := log + [Emit(Caller, ReadOk)];
    }

    /** typing: relayed to the receiver with the flag coerced to a boolean; ignored when unauthenticated. */
    method HandleTyping(receiverId: Id, isTyping: JsValue)
      modifies this`log
      ensures userId.None? ==> log == old(log)
      ensures userId.Some? ==> log == old(log) + [Emit(Room(receiverId), Typing(userId.value, Truthy(isTyping)))]
    {
      if userId.None? {
        return;
      }
      log := log + [Emit(Room(receiverId), Typing(userId.value, Truthy(isTyping)))];
    }
  }
}

# A verified model of a car-community backend's services

The system is a NestJS backend over a Prisma (PostgreSQL) database for a car
community. Users post photos and follow one another. They like, comment on,
save, hide and report posts, and earn points for it. They take part in photo
battles, challenges and events, and they message each other directly. They
sell parts on a marketplace with paid highlights, apply to the ambassador and
official-partner programmes, and keep garages of cars with detailed
technical sections. Every service is a thin layer of guarded database calls.
This project models those guards and the writes that follow them, and proves
what the services promise.

The database is a set of tables, each a `map` from a generated id to a row.
Fresh ids come from a per-store counter, and unique keys and foreign keys are
predicates over the maps. Each service has two layers:

- **Values.** A guard function returns the first exception the service would
  throw, or `None`. A transition function describes the tables after the
  writes. Lemmas prove the guards, the transitions and the read-only queries
  correct: invariants kept, round trips, idempotence, "exactly one row added",
  counters equal to the rows they count, and winners that are the best entry.
- **Stores.** A `class` holds the tables as fields. Its methods are the
  service's mutating operations. Each method's `ensures` says that a refused
  call returns the guard's exception and changes nothing, and that an
  accepted call moves the tables to the transition function's result and
  keeps the store's invariant.

A thrown `HttpException` subclass becomes one failure constructor of
`Outcomes.Outcome`, carrying the source's own message. `Internal` stands for
any other error, such as a foreign-key violation or reading a property of
`undefined`. The HTTP layer turns that into status 500.

Modules:

- `ChatService` covers direct messaging: one-to-one conversations, messages
  with an idempotency key, receipts, unread counters and the inbox.
- `ChatGateway` covers the socket handshake and each handler's guards and
  emitted events, with the service's answers as parameters.
- `Battles`, `Challenges` and `Events` cover the competition rules.
- `SocialDb`, `Likes`, `Comments`, `Posts`, `Follows`, `Marks` and
  `SocialStore` cover the engagement counters, the points ledger and the
  saved, hidden and reported posts.
- `Products` and `ProductStore` cover the marketplace and its highlights.
- `Accounts`, `Applications`, `Profiles`, `Auth` and `AccountStore` cover
  sign-up, login, refresh tokens and the password flows, the two programmes,
  and profiles with their sub-profiles.
- `Otp` covers the stand-alone one-time-code table.
- `Hashtags` covers the hashtag catalogue.
- `Files` covers uploads to the media host and the file table.
- `Envelope` covers the success/error envelope every controller returns.
- `Property`, `LegalNotices` and `PropertyStore` cover garages, cars, car
  sections and legal notices.
- `Tables`, `Listing`, `Paging`, `Sorting` and `Text` are the shared
  primitives: `findMany`/`count`, `skip`/`take` paging, `orderBy`, and the
  JavaScript string operations.

## Model

| member | source | states |
|---|---|---|
| ChatService.UrlCheck | src/main/chat/chat.service.ts:16-19 | a file URL passes iff it parses with protocol `https:`; an unparsable URL is 'Invalid fileUrl', any other protocol 'Only https URLs allowed' |
| ChatService.SendCheck | src/main/chat/chat.service.ts:63-69 | a message passes the early checks iff it has non-blank content or a non-blank file URL, and a file URL given is https; neither is 'Either content or fileUrl is required' |
| ChatService.TrimmedOrNull | src/main/chat/chat.service.ts:93-94 | the stored content or file URL is present iff the field is non-blank, and is then its trimmed, non-empty text |
| ChatService.FindPair | src/main/chat/chat.service.ts:40-47 | the conversation found is one whose participants include both users, and no lower conversation does; None means no conversation joins them |
| ChatService.Reusable | src/main/chat/chat.service.ts:49 | the found conversation is reused iff it exists and has exactly two participant rows |
| ChatService.FindPairSymmetric | src/main/chat/chat.service.ts:40-47 | the conversation found for (a, b) is the one found for (b, a) |
| ChatService.IncUnread | src/main/chat/chat.service.ts:109-112 | only the receiver's row in the conversation gains one unread message; every other row and the key set are unchanged |
| ChatService.ResetUnread | src/main/chat/chat.service.ts:219-222 | only the reader's row is reset to zero unread with the read time; every other row is unchanged |
| ChatService.GetOtherParticipantId | src/main/chat/chat.service.ts:228-236 | the result is a participant of the conversation other than the caller; 'Other participant not found' only when every row of the conversation is the caller |
| ChatService.FindByKey | src/main/chat/chat.service.ts:74-85 | the replay lookup finds a message of this conversation and sender with this client key, or there is none |
| ChatService.Delivered | src/main/chat/chat.service.ts:185-198 | exactly the user's SENT receipts in the conversation change, each to DELIVERED; no receipt moves back in status |
| ChatService.DeliveredIdempotent | src/main/chat/chat.service.ts:188-195 | marking delivered twice equals marking delivered once |
| ChatService.ReadUpTo | src/main/chat/chat.service.ts:209-217 | the user's receipts in the conversation on messages created no later than the read message become READ; all others are unchanged; no receipt moves back |
| ChatService.ReadThenDeliveredKeepsRead | src/main/chat/chat.service.ts:185-217 | a delivery pass after a read pass never demotes a READ receipt |
| ChatService.Inbox | src/main/chat/chat.service.ts:129-133 | the inbox lists exactly the user's participant rows, each once, ordered by the conversation's last message time, newest first |
| ChatService.ListConversations | src/main/chat/chat.service.ts:128-159 | at most `limit` views; the k-th is the view of inbox row offset+k, a row of the user; the page is short only at the end of the inbox |
| ChatService.History | src/main/chat/chat.service.ts:166-168 | exactly the conversation's messages, newest first |
| ChatService.HistoryOrder | src/main/chat/chat.service.ts:166-168 | every history entry is a message of the conversation; entries are non-increasing in creation time and distinct |
| ChatService.DistinctIds | src/main/chat/chat.service.ts:166-168 | the history lists each message once |
| ChatService.PageStart | src/main/chat/chat.service.ts:164-170 | without a cursor the page starts at the top; with a cursor in the history it starts just after the cursor (`skip: 1`); a cursor outside the conversation yields no page |
| ChatService.HistoryPage | src/main/chat/chat.service.ts:166-170 | without a cursor the first `limit` messages of the newest-first history; with the cursor at position i, the `limit` messages from position i + 1 on (`skip: 1`); nothing for a cursor outside the conversation |
| ChatService.PageShape | src/main/chat/chat.service.ts:166-180 | a page holds at most `limit` messages of the conversation, newest first |
| ChatService.CursorPage | src/main/chat/chat.service.ts:164-170 | a page after a cursor never contains the cursor and holds only messages no newer than it |
| ChatService.FirstPageIsNewest | src/main/chat/chat.service.ts:166-170 | without a cursor, every message left off the page is no newer than every message on it |
| ChatService.ListMessages | src/main/chat/chat.service.ts:161-183 | 'Not a participant' iff the caller is not a member; otherwise the history page at the cursor, reversed: at most `limit` messages of the conversation, oldest first |
| ChatService.NextPageByCursor | src/main/chat/chat.service.ts:161-183 | when a page is full, its oldest message used as the next cursor gives the next `limit` messages of the history, with no gap and no repeat |
| ChatService.OtherOfPair | src/main/chat/chat.service.ts:228-236 | in a two-row conversation of a and b, the other participant of a is b |
| ChatService.Resolve | src/main/chat/chat.service.ts:49-59 | the conversation is an existing one iff it is reusable; otherwise a new one is allocated |
| ChatService.ChatStore.AssertParticipant | src/main/chat/chat.service.ts:27-33 | Ok iff the (conversation, user) row exists, else 'Not a participant' |
| ChatService.ChatStore.GetOrCreateOneToOneConversation | src/main/chat/chat.service.ts:36-60 | self-chat is 'Cannot chat with self'; a reusable conversation is returned unchanged; otherwise a new conversation with exactly the two users' rows is created and is then the first found for the pair either way round; unknown users fail the foreign key |
| ChatService.ChatStore.CreatePair | src/main/chat/chat.service.ts:51-59 | adds one conversation and exactly two participant rows joining the pair, keeping the store invariant |
| ChatService.ChatStore.SendMessage | src/main/chat/chat.service.ts:62-126 | early-check failures and self-chat are BadRequest with the source's message; a new conversation between users without rows fails the foreign key; a valid send whose conversation resolves and whose client key is not stored always succeeds with a fresh message id, posted as described; a sent message is stored with the caller as sender in a conversation joining sender and receiver; a failure changes nothing |
| ChatService.ChatStore.PostInConversation | src/main/chat/chat.service.ts:73-125 | a stored (conversation, sender, key) replays the stored id without writing; an empty key hits the unique index; otherwise the transaction is posted |
| ChatService.ChatStore.CreateMessage | src/main/chat/chat.service.ts:88-123 | one message, a READ receipt for the sender and a SENT receipt for the receiver, the receiver's unread count +1 and the conversation's lastMessageId and lastMessageAt, as one step |
| ChatService.ChatStore.MarkDelivered | src/main/chat/chat.service.ts:185-198 | 'Not a participant' with no change, else the receipts become `Delivered` of the old ones |
| ChatService.ChatStore.MarkRead | src/main/chat/chat.service.ts:200-226 | 'Not a participant', then 'Message not found' unless the message is in the conversation; otherwise receipts become `ReadUpTo` its creation time and the reader's unread count resets |
| ChatService.PairIsValid | src/main/chat/chat.service.ts:51-59 | the new conversation's two rows keep the participant invariant, and it joins the pair both ways with exactly two rows |
| ChatService.PairKeepsOk | src/main/chat/chat.service.ts:51-59 | creating a pair's conversation keeps the store invariant |
| ChatService.FirstPair | src/main/chat/chat.service.ts:40-59 | when no conversation joined the pair, the created one is the first found for it, whichever user asks |
| ChatService.CreateKeepsOk | src/main/chat/chat.service.ts:88-123 | the transaction's writes keep the store invariant and the pair joined |
| ChatService.NoMessagesYet | src/main/chat/chat.service.ts:71-86 | a freshly created conversation holds no message, so no key can be replayed in it |
| ChatGateway.Truthy | src/main/chat/chat.gateway.ts:276 | `!!v` is false exactly for undefined, null, false, 0 and the empty string |
| ChatGateway.ExtractToken | src/main/chat/chat.gateway.ts:104-115 | the first non-empty candidate of the auth field, the query token and the second word of the authorization header; never an empty token |
| ChatGateway.BearerToken | src/main/chat/chat.gateway.ts:109 | a `Bearer <token>` header alone yields the token |
| ChatGateway.Authenticate | src/main/chat/chat.gateway.ts:56-73 | succeeds iff a token is present, verifies, carries a subject and the subject is a known user; each failure carries the message sent to the client ('Missing token', the verifier's message or 'Authentication failed', 'Invalid token payload', 'User not found') |
| ChatGateway.Acting | src/main/chat/chat.gateway.ts:168 | the socket's bound user wins over the user named in the payload |
| ChatGateway.LimitOr | src/main/chat/chat.gateway.ts:171 | the limit is clamped into [1, 100], the default when absent, unchanged when already in range |
| ChatGateway.OffsetOr | src/main/chat/chat.gateway.ts:172 | the offset is never negative, 0 when absent, unchanged when non-negative |
| ChatGateway.Socket.DisconnectWithError | src/main/chat/chat.gateway.ts:117-121 | one error event to the caller, then the disconnect, and the socket is closed |
| ChatGateway.Socket.HandleConnection | src/main/chat/chat.gateway.ts:56-91 | a verified known user is bound, told 'connection_success' and announced online, in that order; any failure emits one error, disconnects and binds no one |
| ChatGateway.Socket.HandleDisconnect | src/main/chat/chat.gateway.ts:93-102 | a bound user is announced offline; an unbound socket emits nothing |
| ChatGateway.Socket.HandleSendMessage | src/main/chat/chat.gateway.ts:124-160 | unauthenticated and missing-receiver guards emit one error; otherwise the service call, then the saved message to the receiver's room, to the sender's room, then 'message_sent' to the caller |
| ChatGateway.Socket.GetUserHistory | src/main/chat/chat.gateway.ts:163-176 | 'userId missing' without a user; otherwise the inbox call with the clamped limit (default 20) and offset, then 'user_history' |
| ChatGateway.Socket.GetConversation | src/main/chat/chat.gateway.ts:179-206 | 'userA and userB are required' unless both are known; otherwise resolve, list with the clamped limit (default 30), emit the page, mark delivered and tell user B, stopping at the first failure |
| ChatGateway.Socket.GetPartners | src/main/chat/chat.gateway.ts:209-222 | 'userId missing' without a user; otherwise the partners call with the clamped limit (default 50) and offset, then 'partners_list' |
| ChatGateway.Socket.DeleteMessage | src/main/chat/chat.gateway.ts:225-243 | the two guards emit one error each; otherwise remove, tell the sender's room, look up the other participant, tell them, then acknowledge the caller |
| ChatGateway.Socket.HandleMarkRead | src/main/chat/chat.gateway.ts:246-264 | 'Unauthenticated socket' without a user; otherwise mark read, look up the other participant, emit 'receipt_read' to them, then 'read_ok' |
| ChatGateway.Socket.HandleTyping | src/main/chat/chat.gateway.ts:266-278 | ignored when unauthenticated; otherwise one 'typing' event to the receiver with the flag coerced to a boolean |
| Battles.NewBattle | src/main/program/battle/battle.service.ts:16-31 | the new battle is PENDING, hosted by the caller, created now, with the given capacity or 10 |
| Battles.FindParticipant | src/main/program/battle/battle.service.ts:189-192 | the (battle, user) participant row, or a proof that none exists |
| Battles.FindEntry | src/main/program/battle/battle.service.ts:195-198 | the (battle, participant) entry row, or a proof that none exists |
| Battles.FindVote | src/main/program/battle/battle.service.ts:201-204 | the (battle, voter) vote row, or a proof that none exists |
| Battles.FindResult | src/main/program/battle/battle.service.ts:344-347 | the battle's result row, or a proof that none exists |
| Battles.JoinCheck | src/main/program/battle/battle.service.ts:216-248 | a join passes iff the battle exists, is PENDING, is below capacity, the user exists and has not joined; 'Battle not found' and 'Battle is not open for joining' in that order |
| Battles.SubmitCheck | src/main/program/battle/battle.service.ts:250-277 | a submission passes iff the battle is PENDING, the caller has an active participant row and no entry yet; otherwise 'You are not a participant of this battle' for a missing or inactive row |
| Battles.VoteCheck | src/main/program/battle/battle.service.ts:302-330 | a vote passes iff the battle is PENDING or ONGOING, the entry belongs to the battle, the voter exists and has not voted in it; a foreign entry is 'Invalid entry for this battle' |
| Battles.EntriesOf | src/main/program/battle/battle.service.ts:164-165 | exactly the battle's entries |
| Battles.TopEntry | src/main/program/battle/battle.service.ts:350-360 | no winner iff the battle has no entries; otherwise an entry of the battle |
| Battles.TopEntryWins | src/main/program/battle/battle.service.ts:350-358 | the rewarded entry has the most votes, the earliest among ties |
| Battles.Leaderboard | src/main/program/battle/battle.service.ts:157-180 | 'Battle not found' iff the battle is missing; otherwise a permutation of the battle's entries |
| Battles.LeaderboardRanked | src/main/program/battle/battle.service.ts:164-166 | each leaderboard entry outranks every later one (more votes, or as many and earlier) |
| Battles.LeaderboardHeadIsWinner | src/main/program/battle/battle.service.ts:164-352 | the leaderboard's head is the entry finalizeBattle rewards |
| Battles.GetMyBattleStatus | src/main/program/battle/battle.service.ts:182-214 | 'Battle not found' iff missing; joined iff a participant row exists, voted iff a vote exists, and submitted implies joined |
| Battles.ListBattles | src/main/program/battle/battle.service.ts:33-82 | page and limit default to 1 and 20; a negative skip or take is refused with Internal; otherwise total counts every listed battle, and for limit >= 1 the page is exactly the window at (page - 1) * limit of the listed battles, newest first, with totalPages the ceiling of total over limit; limit 0 takes nothing |
| Battles.ListBattlesCover | src/main/program/battle/battle.service.ts:33-82 | whatever the limit, every listed battle is on exactly one page |
| Battles.JoinKeepsOk | src/main/program/battle/battle.service.ts:236-244 | a passing join keeps the store invariant |
| Battles.JoinOnce | src/main/program/battle/battle.service.ts:216-248 | a join adds exactly one participant, stays within capacity, and the same user's second join is refused |
| Battles.SubmitKeepsOk | src/main/program/battle/battle.service.ts:268-299 | a passing submission's post and entry keep the store invariant |
| Battles.SubmitOnce | src/main/program/battle/battle.service.ts:269-277 | a participant's second submission is 'You already submitted in this battle' |
| Battles.VoteKeepsOk | src/main/program/battle/battle.service.ts:319-326 | a passing vote keeps the store invariant |
| Battles.VoteOnce | src/main/program/battle/battle.service.ts:302-330 | a vote adds one to its entry's count and none to any other, and the voter's second vote is refused |
| Battles.FinalizeCheck | src/main/program/battle/battle.service.ts:332-360 | finalization passes iff the battle exists, the caller is its host, it has no result and has entries; 'Only battle host can finalize' and 'No entries found' as in the source |
| Battles.WinnerResult | src/main/program/battle/battle.service.ts:362-369 | the result names the battle, the winning entry, its participant's user, and 250 reward points |
| Battles.FinalizeKeepsOk | src/main/program/battle/battle.service.ts:362-369 | recording the result keeps the store invariant |
| Battles.FinalizeOnce | src/main/program/battle/battle.service.ts:344-348 | after finalizing, every further finalization is refused |
| Battles.BattleStore.CreateBattle | src/main/program/battle/battle.service.ts:16-31 | the new PENDING battle is stored under the next id; an unknown host fails the foreign key and changes nothing |
| Battles.BattleStore.JoinBattle | src/main/program/battle/battle.service.ts:216-248 | on failure the check's error and no change; otherwise one active participant row, the count up by one and within capacity, and a repeat is refused |
| Battles.BattleStore.SubmitBattlePost | src/main/program/battle/battle.service.ts:250-300 | on failure the check's error and no change; otherwise one Battle_Post and one entry pointing to it |
| Battles.BattleStore.RecordEntry | src/main/program/battle/battle.service.ts:279-296 | adds exactly the post and the entry rows |
| Battles.BattleStore.VoteBattle | src/main/program/battle/battle.service.ts:302-330 | on failure the check's error and no change; otherwise one vote row and the entry's count up by one |
| Battles.BattleStore.FinalizeBattle | src/main/program/battle/battle.service.ts:332-372 | on failure the check's error and no change; otherwise the top entry's result and its vote count, after which finalization is refused |
| Battles.BattleStore.RecordResult | src/main/program/battle/battle.service.ts:362-369 | adds exactly the winner's result row |
| Challenges.NewChallenge | src/main/program/challenge/challenge.service.ts:16-31 | the new challenge is hosted by the caller, with the given capacity or 10 |
| Challenges.FindActiveParticipant | src/main/program/challenge/challenge.service.ts:75-83 | an active participant row of the user in the challenge, or a proof that none exists |
| Challenges.FindParticipant | src/main/program/challenge/challenge.service.ts:51-62 | a participant row of the user in the challenge, or a proof that none exists |
| Challenges.FindSubmission | src/main/program/challenge/challenge.service.ts:88-97 | the user's submission in the challenge, or a proof that none exists |
| Challenges.FindResult | src/main/program/challenge/challenge.service.ts:133-137 | the challenge's result row, or a proof that none exists |
| Challenges.JoinCheck | src/main/program/challenge/challenge.service.ts:33-63 | a join passes iff the challenge exists, is active, is below capacity, the user exists and has not joined; 'Challenge not found' and 'Challenge is not active' in that order |
| Challenges.SubmitCheck | src/main/program/challenge/challenge.service.ts:65-98 | a submission passes iff the challenge is active, the user is an active participant and has not submitted; otherwise 'You are not a participant of this challenge' or 'You already submitted in this challenge' |
| Challenges.PostsOf | src/main/program/challenge/challenge.service.ts:138-142 | exactly the challenge's posts |
| Challenges.TopPost | src/main/program/challenge/challenge.service.ts:138-147 | no winner iff the challenge has no posts; otherwise a post of the challenge |
| Challenges.TopPostWins | src/main/program/challenge/challenge.service.ts:138-145 | the winning post has the most likes, the earliest among ties |
| Challenges.FinalizeCheck | src/main/program/challenge/challenge.service.ts:126-147 | finalization passes iff the challenge exists, has no result and has posts; 'Challenge already finalized' and 'No submissions found' as in the source |
| Challenges.JoinKeepsOk | src/main/program/challenge/challenge.service.ts:51-62 | a passing join keeps the store invariant |
| Challenges.JoinOnce | src/main/program/challenge/challenge.service.ts:33-63 | a join adds one participant within the capacity, and the same user's second join is refused |
| Challenges.SubmittedPost | src/main/program/challenge/challenge.service.ts:101-111 | the submitted post belongs to the user, the challenge and the participant, with no likes |
| Challenges.SubmitKeepsOk | src/main/program/challenge/challenge.service.ts:87-123 | a passing submission's post and submission rows keep the store invariant |
| Challenges.SubmitOnce | src/main/program/challenge/challenge.service.ts:88-98 | after a submission the same user's next one is 'You already submitted in this challenge' |
| Challenges.FinalizeKeepsOk | src/main/program/challenge/challenge.service.ts:149-154 | recording the result keeps the store invariant |
| Challenges.FinalizeOnce | src/main/program/challenge/challenge.service.ts:133-137 | a challenge is finalized at most once |
| Challenges.ChallengeStore.CreateChallenge | src/main/program/challenge/challenge.service.ts:16-31 | the new challenge is stored under the next id; an unknown host fails the foreign key and changes nothing |
| Challenges.ChallengeStore.JoinChallenge | src/main/program/challenge/challenge.service.ts:33-63 | on failure the check's error and no change; otherwise one active participant row, within capacity, and a repeat is refused |
| Challenges.ChallengeStore.SubmitChallengePost | src/main/program/challenge/challenge.service.ts:65-124 | on failure the check's error and no change; otherwise the post and its submission row |
| Challenges.ChallengeStore.FinalizeChallenge | src/main/program/challenge/challenge.service.ts:126-161 | on failure the check's error and no change; otherwise the top post's author as the result, after which finalization is refused |
| Challenges.ChallengeStore.RecordResult | src/main/program/challenge/challenge.service.ts:149-154 | adds exactly the result row |
| Events.FindJoin | src/main/program/event/event.service.ts:84-88 | the (event, user) participant row, or a proof that none exists |
| Events.ApprovedEvents | src/main/program/event/event.service.ts:26-37 | exactly the APPROVED events |
| Events.Participants | src/main/program/event/event.service.ts:139-148 | exactly the event's participant rows |
| Events.ParticipantsMatchCount | src/main/program/event/event.service.ts:98-132 | the participant listing of an event is exactly its joinedCount long, because join and leave move the counter with the rows |
| Events.NewEvent | src/main/program/event/event.service.ts:16-23 | the new event has the caller as owner, no one joined, and the DTO's capacity and dates |
| Events.UpdateCheck | src/main/program/event/event.service.ts:39-58 | an update passes iff the event exists, the caller owns it, and the DTO does not carry an end date at or before its own start date; 'Event not found' and 'You are not allowed to update this event' as in the source |
| Events.ApplyUpdate | src/main/program/event/event.service.ts:60-63 | the supplied fields replace the stored ones and the owner, status and counter are kept |
| Events.EmptyUpdateIsIdentity | src/main/program/event/event.service.ts:60-63 | an update with no fields leaves the event as it was |
| Events.UpdateMayInvertDates | src/main/program/event/event.service.ts:55-58 | the date guard reads the DTO alone: an update carrying only an end date passes even when it lands before the stored start |
| Events.JoinCheck | src/main/program/event/event.service.ts:69-93 | a join passes iff the event exists, is APPROVED, is not full, the user exists and has not joined; 'Event not found', 'Event is not open' and 'Event is full' in that order |
| Events.LeaveCheck | src/main/program/event/event.service.ts:113-121 | a leave fails iff the user has not joined, with 'You are not joined' |
| Events.JoinKeepsOk | src/main/program/event/event.service.ts:95-104 | a join keeps the table invariants, the counter included |
| Events.LeaveKeepsOk | src/main/program/event/event.service.ts:123-132 | a leave keeps the table invariants, the counter included |
| Events.JoinOnce | src/main/program/event/event.service.ts:84-93 | after a join the same user's next join is refused and a leave is allowed |
| Events.LeaveOnce | src/main/program/event/event.service.ts:113-121 | after a leave the user is no longer joined |
| Events.JoinThenLeave | src/main/program/event/event.service.ts:69-136 | joining and then leaving gives back the tables one started from |
| Events.EventStore.CreateEvent | src/main/program/event/event.service.ts:16-23 | the new event is stored under the next id; an unknown owner fails the foreign key and changes nothing |
| Events.EventStore.UpdateEvent | src/main/program/event/event.service.ts:39-64 | on failure the check's error and no change; otherwise the updated event replaces the stored one |
| Events.EventStore.JoinEvent | src/main/program/event/event.service.ts:69-108 | on failure the check's error and no change; otherwise the participant row and the counter up by one |
| Events.EventStore.LeaveEvent | src/main/program/event/event.service.ts:111-136 | on failure 'You are not joined' and no change; otherwise the row removed and the counter down by one |
| Likes.FindLike | src/main/posts/like/like.service.ts:39-43 | the user's like of the post and type, or a proof that none exists |
| Likes.IsLiked | src/main/posts/like/like.service.ts:218-230 | true iff a like row with the (user, post, type) key exists |
| Likes.LikeCheck | src/main/posts/like/like.service.ts:20-43 | a like passes iff the user and the post exist and the key is not liked; 'User not found', 'Post not found' and the conflict in that order |
| Likes.UnlikeCheck | src/main/posts/like/like.service.ts:78-95 | an unlike passes iff the like exists and its post exists; 'Like not found' first, then 'Post not found' |
| Likes.LikeKeepsOk | src/main/posts/like/like.service.ts:45-72 | a like keeps every table invariant: keys unique, counters equal to the rows, references resolved |
| Likes.UnlikeKeepsOk | src/main/posts/like/like.service.ts:97-123 | an unlike keeps every table invariant |
| Likes.LikeCredits | src/main/posts/like/like.service.ts:58-71 | a like credits exactly one point to the post's author, in the user row and in the ledger alike |
| Likes.UnlikeCredits | src/main/posts/like/like.service.ts:107-122 | an unlike charges exactly one point back from the post's author, in the user row and in the ledger alike |
| Likes.LikeOnce | src/main/posts/like/like.service.ts:39-43 | after a like the same like is a conflict and can be taken back |
| Likes.UnlikeOnce | src/main/posts/like/like.service.ts:84-88 | after an unlike the key is no longer liked |
| Likes.FindsNewLike | src/main/posts/like/like.service.ts:45-51 | right after a like, it is the row the unique lookup finds |
| Likes.LikeThenUnlike | src/main/posts/like/like.service.ts:20-127 | like then unlike gives back the like table, the post's counter and the author's row |
| Likes.LikeThenUnlikeCredits | src/main/posts/like/like.service.ts:58-122 | the two ledger rows of a like and its unlike cancel out |
| Likes.PostLikes | src/main/posts/like/like.service.ts:129-176 | 'Post not found' iff the post is missing; otherwise exactly the window at (page - 1) * limit of the post's likes of the requested type, newest first, with their total and the page count |
| Likes.UserLikes | src/main/posts/like/like.service.ts:178-216 | 'User not found' iff the user is missing; otherwise exactly the window at (page - 1) * limit of the user's likes of the requested type, newest first, with their total and the page count |
| Likes.PostLikesTotal | src/main/posts/like/like.service.ts:164-171 | the total reported with a post's likes equals the post's like counter |
| Likes.PostLikesTotalTyped | src/main/posts/like/like.service.ts:142-171 | the total reported with a post's likes counts every like of the post of the requested type |
| Likes.PostLikesCover | src/main/posts/like/like.service.ts:129-176 | whatever the limit, every like of the post of the requested type is on exactly one page |
| Likes.UserLikesCover | src/main/posts/like/like.service.ts:178-216 | whatever the limit, every like by the user of the requested type is on exactly one page |
| Comments.CreateCheck | src/main/posts/comment/comment.service.ts:16-43 | a comment passes iff the user and the post exist and any parent is a comment of the same post; 'User not found', 'Post not found', 'Parent comment not found' and 'Parent comment does not belong to this post' in that order |
| Comments.UpdateCheck | src/main/posts/comment/comment.service.ts:86-104 | an edit passes iff the text is not blank and the comment exists and is the caller's; the blank check comes before the lookup |
| Comments.DeleteCheck | src/main/posts/comment/comment.service.ts:118-141 | a delete passes iff the comment exists, is the caller's and its post still exists; 'Comment not found' and the permission error as in the source |
| Comments.CreateKeepsOk | src/main/posts/comment/comment.service.ts:45-80 | a comment keeps every table invariant, the post's comment counter included |
| Comments.UpdateKeepsOk | src/main/posts/comment/comment.service.ts:105-112 | an edit keeps every table invariant |
| Comments.DeleteKeepsOk | src/main/posts/comment/comment.service.ts:132-141 | a delete keeps every table invariant, the counter included |
| Comments.CreateCredits | src/main/posts/comment/comment.service.ts:64-79 | a comment credits exactly one point to the post's author, in the user row and in the ledger alike |
| Comments.UpdateStoresTrimmed | src/main/posts/comment/comment.service.ts:86-116 | an edit stores trimmed, non-blank text, so repeating it with the stored text changes nothing |
| Comments.CreateThenDelete | src/main/posts/comment/comment.service.ts:16-143 | creating and deleting a comment gives back the comment table and the post's counter, while the author keeps the point and the ledger row |
| Comments.PostComments | src/main/posts/comment/comment.service.ts:145-200 | 'Post not found' iff the post is missing; otherwise exactly the window at (page - 1) * limit of the post's comments at the requested level, in the requested date order, with their total and totalPages the ceiling of total over limit |
| Comments.UserComments | src/main/posts/comment/comment.service.ts:202-256 | 'User not found' iff the user is missing; otherwise exactly the window at (page - 1) * limit of the user's comments (under the parent, when given), in the requested date order, with their total and the page count |
| Comments.PostCommentsCover | src/main/posts/comment/comment.service.ts:145-200 | whatever the limit, every comment the post's listing selects is on exactly one page |
| Comments.UserCommentsCover | src/main/posts/comment/comment.service.ts:202-256 | whatever the limit, every comment the user's listing selects is on exactly one page |
| Comments.TopLevelTotalWithinCounter | src/main/posts/comment/comment.service.ts:160-169 | the total of a post's top-level listing never exceeds the post's comment counter, which also counts replies |
| Posts.CreateCheck | src/main/posts/post/post.service.ts:19-36 | a post passes iff the user exists and, when a boost is asked for, holds at least 300 points; the two errors as in the source |
| Posts.CreateResult | src/main/posts/post/post.service.ts:83-89 | the reply's delta is the earned points less the boost charge, the charge is 300 exactly when boosted, and the reported total is the old total plus the delta |
| Posts.CreateKeepsOk | src/main/posts/post/post.service.ts:38-81 | creating a post keeps every table invariant |
| Posts.CreateCredits | src/main/posts/post/post.service.ts:57-81 | the post's ledger rows sum to the delta applied to the author's total, so the ledger keeps tracking the user rows |
| Posts.BoostKeepsBalance | src/main/posts/post/post.service.ts:30-81 | a boost that passes the guard leaves the author with at least the five points just earned; otherwise the author gains five |
| Posts.SinglePost | src/main/posts/post/post.service.ts:112-127 | 'Post not found' iff the post is missing, otherwise the stored post |
| Posts.CreateThenGet | src/main/posts/post/post.service.ts:19-127 | the new post is what getSinglePost returns under the reported id |
| Posts.Feed | src/main/posts/post/post.service.ts:94-104 | page p of limit posts is the window at offset (p - 1) * limit of every post in feed order, at most limit long |
| Posts.FeedOrdered | src/main/posts/post/post.service.ts:99-102 | every page lists boosted posts before unboosted ones and, within each group, newer before older |
| Posts.FeedCoversPosts | src/main/posts/post/post.service.ts:94-104 | for every page size of at least one, each post is on exactly one page of the feed |
| Posts.UpdateCheck | src/main/posts/post/post.service.ts:130-174 | an update passes iff it does not touch contentBooster, the post exists and is the caller's, and it carries a field; the four errors in the source's order |
| Posts.Apply | src/main/posts/post/post.service.ts:156-178 | the owner, points, boost flag, counters and creation time are never changed by an update |
| Posts.ApplyKeepsOmitted | src/main/posts/post/post.service.ts:156-170 | every field the body leaves out keeps its value |
| Posts.ApplyIdempotent | src/main/posts/post/post.service.ts:156-178 | sending the same body twice changes nothing the second time |
| Posts.ApplyCommutes | src/main/posts/post/post.service.ts:156-178 | bodies that name different fields can be applied in either order |
| Posts.UpdateKeepsOk | src/main/posts/post/post.service.ts:175-178 | an update keeps every table invariant |
| Posts.DeleteCheck | src/main/posts/post/post.service.ts:184-195 | a delete passes iff the post exists and is the caller's; 'Post not found' and the permission error as in the source |
| Posts.DeleteKeepsOk | src/main/posts/post/post.service.ts:197-199 | a delete keeps every table invariant |
| Posts.CreateThenDelete | src/main/posts/post/post.service.ts:19-201 | deleting a post just created removes it, but the points it earned or cost and its ledger rows stay |
| Follows.FindFollow | src/main/user/folllow/follow.service.ts:32-42 | the (follower, followed) row, or a proof that none exists |
| Follows.IsFollowing | src/main/user/folllow/follow.service.ts:169-180 | true iff a follow row with the (follower, followed) key exists |
| Follows.FollowCheck | src/main/user/folllow/follow.service.ts:18-42 | a follow passes iff the two users differ, both exist and the pair is not followed; the four errors in the source's order |
| Follows.UnfollowCheck | src/main/user/folllow/follow.service.ts:84-99 | an unfollow fails iff the pair is not followed, with 'Follow relationship not found' |
| Follows.FollowKeepsOk | src/main/user/folllow/follow.service.ts:46-79 | a follow keeps every table invariant |
| Follows.FollowCredits | src/main/user/folllow/follow.service.ts:59-76 | a follow credits the followed user five points, in the user row and in the ledger alike |
| Follows.UnfollowKeepsOk | src/main/user/folllow/follow.service.ts:101-109 | an unfollow keeps every table invariant |
| Follows.FollowOnce | src/main/user/folllow/follow.service.ts:32-42 | after a follow the pair is followed and a second follow is a conflict |
| Follows.FollowThenUnfollow | src/main/user/folllow/follow.service.ts:18-112 | follow then unfollow gives back the follow table, but the followed user keeps the five points and the ledger keeps its row |
| Follows.Ends | src/main/user/folllow/follow.service.ts:118-137 | the other end of each listed row, in listing order |
| Follows.FollowListIff | src/main/user/folllow/follow.service.ts:114-167 | someone is on a user's list exactly when the follow row exists |
| Follows.Followers | src/main/user/folllow/follow.service.ts:114-138 | 'User not found' iff the user is missing; otherwise exactly the users following them, in the newest-first order of the follow rows |
| Follows.Following | src/main/user/folllow/follow.service.ts:140-167 | 'User not found' iff the user is missing; otherwise exactly the users they follow, in the newest-first order of the follow rows |
| Follows.FollowListDistinct | src/main/user/folllow/follow.service.ts:114-167 | with the (follower, following) key unique, nobody is listed twice |
| Follows.Counts | src/main/user/folllow/follow.service.ts:182-198 | 'User not found' iff the user is missing; otherwise the user's counts |
| Follows.ListsMatchCounts | src/main/user/folllow/follow.service.ts:114-198 | the follower and following lists are as long as the counts say |
| Follows.FollowCounted | src/main/user/folllow/follow.service.ts:188-191 | a follow adds one to the followed user's follower count and to the follower's following count, and to no one else's |
| Follows.UnfollowCounted | src/main/user/folllow/follow.service.ts:188-191 | an unfollow takes one from each side's count, and from no one else's |
| Follows.Mutual | src/main/user/folllow/follow.service.ts:200-213 | 'User not found' and 'Other user not found' exactly when the respective user is missing |
| Follows.MutualIff | src/main/user/folllow/follow.service.ts:215-250 | a mutual follower is an existing user following both, and every such user is listed |
| Follows.MutualSymmetric | src/main/user/folllow/follow.service.ts:200-255 | the mutual followers of two users do not depend on which is asked first |
| Marks.WithTable | src/main/posts/save/save.service.ts:25-30 | the chosen table, saved or hidden posts, is replaced and read back as given |
| Marks.FindMark | src/main/posts/save/save.service.ts:72-83 | the (user, post) row of the table, or a proof that none exists |
| Marks.MarkCheck | src/main/posts/save/save.service.ts:11-23 | a save (or hide) fails iff the pair is already in the table, with 'Post already saved' or 'Post already hidden' |
| Marks.UnmarkCheck | src/main/posts/save/save.service.ts:34-46 | an unsave (or unhide) fails iff the pair is not in the table, with 'Saved post not found' or 'Hidden post not found' |
| Marks.MarkKeepsOk | src/main/posts/save/save.service.ts:25-30 | a save (or hide) keeps the tables' unique keys |
| Marks.UnmarkKeepsOk | src/main/posts/save/save.service.ts:48-55 | an unsave (or unhide) keeps the tables' unique keys |
| Marks.MarkOnce | src/main/posts/save/save.service.ts:11-31 | after a save the pair is marked and a second save is refused |
| Marks.FindsNewMark | src/main/posts/save/save.service.ts:12-30 | on a fresh pair, the new row is the one the key finds |
| Marks.MarkKeepsOthers | src/main/posts/save/save.service.ts:25-30 | a save leaves every other pair of the same table as it was |
| Marks.MarkLeavesOtherKind | src/main/posts/save/save.service.ts:25-30 | saving does not hide, and hiding does not save |
| Marks.UnmarkOnce | src/main/posts/save/save.service.ts:34-58 | an unsave removes exactly the one pair |
| Marks.MarkThenUnmark | src/main/posts/save/save.service.ts:11-58 | saving and then unsaving gives the table back |
| Marks.MyMarks | src/main/posts/save/save.service.ts:61-69 | exactly the caller's rows, each once, newest first |
| Marks.FindReport | src/main/user/report/report.service.ts:11-19 | the (user, target, type) report, or a proof that none exists |
| Marks.ReportCheck | src/main/user/report/report.service.ts:10-23 | a report fails iff the key is already reported, with 'You have already reported this item' |
| Marks.RemoveCheck | src/main/user/report/report.service.ts:37-50 | a removal fails iff the report is missing, with BadRequest 'Report not found' |
| Marks.ReportKeepsOk | src/main/user/report/report.service.ts:25-32 | a report keeps the tables' unique keys |
| Marks.FindsNewReport | src/main/user/report/report.service.ts:11-32 | the new report is the one the key finds |
| Marks.RemoveKeepsOk | src/main/user/report/report.service.ts:52-60 | a removal keeps the tables' unique keys |
| Marks.ReportThenRemove | src/main/user/report/report.service.ts:10-63 | a report is refused the second time, and removing it gives the report table back |
| Marks.UserReports | src/main/user/report/report.service.ts:65-70 | exactly the caller's reports, each once, newest first |
| SocialStore.Store.CreateLike | src/main/posts/like/like.service.ts:20-75 | on failure the check's error and no change; otherwise the like row, the post's counter up by one and the author credited one point, all in one transaction |
| SocialStore.Store.Unlike | src/main/posts/like/like.service.ts:78-127 | on failure the check's error and no change; otherwise the like row removed, the counter down by one and the author charged one point |
| SocialStore.Store.CreateComment | src/main/posts/comment/comment.service.ts:16-84 | on failure the check's error and no change; otherwise the comment, the post's counter up by one and the author credited one point |
| SocialStore.Store.UpdateComment | src/main/posts/comment/comment.service.ts:86-116 | on failure the check's error and no change; otherwise the comment's text replaced by the trimmed text |
| SocialStore.Store.DeleteComment | src/main/posts/comment/comment.service.ts:118-143 | on failure the check's error and no change; otherwise the comment removed and the post's counter down by one |
| SocialStore.Store.CreatePost | src/main/posts/post/post.service.ts:19-91 | on failure the check's error and no change; otherwise the post, its ledger rows and the author's new total, which the reply reports |
| SocialStore.Store.UpdatePost | src/main/posts/post/post.service.ts:130-182 | on failure the check's error and no change; otherwise the supplied fields copied onto the post |
| SocialStore.Store.DeletePost | src/main/posts/post/post.service.ts:184-201 | on failure the check's error and no change; otherwise the post removed |
| SocialStore.Store.FollowUser | src/main/user/folllow/follow.service.ts:18-81 | on failure the check's error and no change; otherwise the follow row, and five points to the followed user in the user row and the ledger |
| SocialStore.Store.UnfollowUser | src/main/user/folllow/follow.service.ts:84-112 | on failure the check's error and no change; otherwise the follow row removed |
| SocialStore.Store.MarkPost | src/main/posts/save/save.service.ts:11-31 | on failure the check's error and no change; otherwise the saved (or hidden) row; hidePost at src/main/posts/hide/hide.service.ts:15-35 behaves the same on its own table |
| SocialStore.Store.UnmarkPost | src/main/posts/save/save.service.ts:34-58 | on failure the check's error and no change; otherwise the row removed; unhidePost at src/main/posts/hide/hide.service.ts:38-62 behaves the same |
| SocialStore.Store.CreateReport | src/main/user/report/report.service.ts:10-35 | on failure the check's error and no change; otherwise the report row |
| SocialStore.Store.RemoveReport | src/main/user/report/report.service.ts:37-63 | on failure the check's error and no change; otherwise the report row removed |
| Products.NewProduct | src/main/product/product.service.ts:26-42 | the new listing belongs to the caller with the given title, price and quantity; category Car_Parts, no tags and the WhatsApp number hidden unless given |
| Products.Apply | src/main/product/product.service.ts:139-153 | an update never changes the owner or the creation time |
| Products.ApplyNeverClears | src/main/product/product.service.ts:142-151 | a field can be set but never cleared, because an absent value leaves the column alone |
| Products.ApplyIdempotent | src/main/product/product.service.ts:139-153 | an empty body changes nothing, and a body applied twice acts once |
| Products.OwnerCheck | src/main/product/product.service.ts:135-137 | passes iff the product exists and is the caller's; 'Product not found' then 'Not your product' |
| Products.SingleProduct | src/main/product/product.service.ts:122-131 | 'Product not found' iff the product is missing, otherwise the stored listing |
| Products.MyProducts | src/main/product/product.service.ts:106-119 | exactly the owner's listings, each once, newest first |
| Products.CreateThenGet | src/main/product/product.service.ts:26-131 | getSingleProduct returns the stored listing, and getMyProducts lists it |
| Products.UpdateByOwnerOnly | src/main/product/product.service.ts:134-154 | after the owner's update the row keeps its owner and every other user is refused |
| Products.DeleteThenGet | src/main/product/product.service.ts:157-164 | after a delete, reading or deleting the product again is 'Product not found' |
| Products.CreateKeepsOk | src/main/product/product.service.ts:26-42 | a new listing keeps the store invariant and the disjointness of live highlights |
| Products.UpdateKeepsOk | src/main/product/product.service.ts:139-153 | an update keeps the store invariant |
| Products.DeleteKeepsOk | src/main/product/product.service.ts:162 | a delete keeps the store invariant |
| Products.ListPublic | src/main/product/product.service.ts:230-242 | every product, each once, newest first |
| Products.FindLive | src/main/product/product.service.ts:175-177 | an ACTIVE highlight of the product whose end lies after now, or a proof that none exists |
| Products.RequestCheck | src/main/product/product.service.ts:170-178 | a request passes iff the owner check passes and the product has no live highlight; 'This product is already highlighted' |
| Products.HighlightOwnerCheck | src/main/product/product.service.ts:191-196 | passes iff the highlight exists and its product is the caller's; the not-found message as each caller words it, then 'Not your product' |
| Products.ConfirmCheckAsWritten | src/main/product/product.service.ts:190-198 | as written: a payment passes iff the owner check passes and the request is PENDING, otherwise 'Cannot confirm payment from status' and the status |
| Products.ConfirmCheck | src/main/product/product.service.ts:190-198 | corrected: the written guard plus requestHighlight's live-highlight check repeated at payment time |
| Products.Paid | src/main/product/product.service.ts:200-211 | the paid highlight is ACTIVE, paid and started now, and ends its duration in hours later |
| Products.CancelCheck | src/main/product/product.service.ts:214-222 | a cancel passes iff the owner check passes and the highlight is not EXPIRED; 'Already expired' |
| Products.PaidLiveWindow | src/main/product/product.service.ts:176-211 | a paid highlight is live from its payment until just before its end |
| Products.CancelEnds | src/main/product/product.service.ts:224-227 | a cancelled highlight is never live, and cancelling it again is allowed |
| Products.ConfirmOnce | src/main/product/product.service.ts:197-198 | a payment moves the request out of PENDING, so it cannot be paid twice |
| Products.RequestThenConfirm | src/main/product/product.service.ts:170-211 | the stored request can be paid by its owner, and once paid the product is live |
| Products.OverlapAsWritten | src/main/product/product.service.ts:170-211 | with the written guards two requests made while the product is not live both pass, and paying both leaves two live highlights at once |
| Products.ConfirmKeepsDisjoint | src/main/product/product.service.ts:203-211 | with the payment-time check, paying keeps a product's live highlights apart |
| Products.RequestKeepsOk | src/main/product/product.service.ts:180-187 | a request keeps the store invariant |
| Products.CancelKeepsOk | src/main/product/product.service.ts:224-227 | a cancel keeps the store invariant |
| Products.Feed | src/main/product/product.service.ts:45-103 | page and limit default to 1 and 10, total counts every matching product, and the page is a rearrangement of that window of the newest-first matching products |
| Products.FetchedRows | src/main/product/product.service.ts:45-87 | the rows fetched are the window at offset (page - 1) * limit, limit long, of every matching product newest first; each matches the filters |
| Products.FeedOrdered | src/main/product/product.service.ts:55-95 | every product on a page matches the search and category filters, highlighted products come first and each group newest first |
| ProductStore.Store.CreateProduct | src/main/product/product.service.ts:26-42 | an owner without a user row fails the foreign key and changes nothing; otherwise the new listing is stored under the next id, which is returned |
| ProductStore.Store.UpdateProduct | src/main/product/product.service.ts:134-154 | on failure the check's error and no change; otherwise the given fields copied onto the listing |
| ProductStore.Store.DeleteProduct | src/main/product/product.service.ts:157-164 | on failure the check's error and no change; otherwise the listing removed |
| ProductStore.Store.RequestHighlight | src/main/product/product.service.ts:170-188 | on failure the check's error and no change; otherwise a PENDING request for the product |
| ProductStore.Store.ConfirmHighlightPayment | src/main/product/product.service.ts:190-212 | on failure the check's error and no change; otherwise the request paid and live from now for its duration, with the corrected payment-time check |
| ProductStore.Store.CancelHighlight | src/main/product/product.service.ts:214-228 | on failure the check's error and no change; otherwise the highlight CANCELLED |
| Profiles.ParseType | src/main/user/profile/utils/profile-type.validator.ts:8-27 | a parsed type's name is the given string |
| Profiles.ParseTypeName | src/main/user/profile/utils/profile-type.validator.ts:8-15 | every type's name parses back to it, so exactly the six names are known |
| Profiles.CheckPayload | src/main/user/profile/utils/profile-type.validator.ts:4-39 | passes iff the type name is known and either no sub-payload is sent or the type's own is; the two messages as in the source |
| Profiles.NoPayloadAccepted | src/main/user/profile/utils/profile-type.validator.ts:19-38 | with no sub-payload at all, every known type passes |
| Profiles.MatchingPayloadAccepted | src/main/user/profile/utils/profile-type.validator.ts:33-38 | the matching payload is enough; others sent beside it are not rejected |
| Profiles.RequiredCheck | src/main/user/profile/profile.service.ts:84-108 | passes iff a business profile has a business name and location and a driver profile a location; otherwise the type's message |
| Profiles.CreateCheck | src/main/user/profile/profile.service.ts:42-147 | createProfile passes iff the validator passes, the user exists, the type's required fields are present and the user has no profile yet, in that order; a second profile fails on the unique userId as a 500 |
| Profiles.NewProfile | src/main/user/profile/profile.service.ts:51-61 | the new profile belongs to the user with the requested type, PUBLIC unless given, ACTIVE and not suspended |
| Profiles.NewSubKeepsOk | src/main/user/profile/profile.service.ts:63-139 | adding a sub-profile of the type for an existing profile keeps the tables consistent |
| Profiles.CreateGivesSub | src/main/user/profile/profile.service.ts:42-151 | a created profile carries the requested type, its sub-profile of that type, and the defaults |
| Profiles.CreatedKeepsOk | src/main/user/profile/profile.service.ts:50-147 | inserting the profile and its sub-profile keeps the tables consistent |
| Profiles.CreateLeavesOneProfile | src/main/user/profile/profile.service.ts:42-147 | after a create the user owns exactly one profile, the new one |
| Profiles.CreateCreatorDefault | src/main/user/profile/profile.service.ts:72-80 | a creator profile created without a category gets PHOTOGRAPHY |
| Profiles.CreateOnlyOneSub | src/main/user/profile/profile.service.ts:63-142 | only the requested type's table gains a row |
| Profiles.ProfileById | src/main/user/profile/profile.service.ts:165-173 | 'Profile not found' iff the profile is missing, otherwise the stored profile |
| Profiles.ProfilesOf | src/main/user/profile/profile.service.ts:154-162 | the user's profiles when there are any, otherwise 'Profile not found' |
| Profiles.AccessCheck | src/main/user/profile/profile.service.ts:181-187 | passes iff the profile exists and is the caller's; 'Profile not found' then 'No access' |
| Profiles.ApplyBase | src/main/user/profile/profile.service.ts:189-198 | the base update never changes the owner, the type, the preference or the status |
| Profiles.ApplyBaseIdempotent | src/main/user/profile/profile.service.ts:189-198 | applying the same base update twice changes nothing more |
| Profiles.ChangeCheck | src/main/user/profile/profile.service.ts:203-300 | changeProfileType passes iff the validator, the owner check and the type's required fields pass, in that order |
| Profiles.MergeSection | src/main/user/profile/profile.service.ts:317-357 | a nested upsert overwrites the given fields and keeps the rest |
| Profiles.UpsertKeepsOk | src/main/user/profile/profile.service.ts:224-360 | an upsert for an existing profile keeps the tables consistent and the sub-profile in place |
| Profiles.UpsertKeepsOtherSubs | src/main/user/profile/profile.service.ts:224-360 | an upsert touches only its own type's table |
| Profiles.ChangeGivesSub | src/main/user/profile/profile.service.ts:203-369 | after a change the profile has the new type and its sub-profile, and other profiles are untouched |
| Profiles.ChangeKeepsOtherSubs | src/main/user/profile/profile.service.ts:224-360 | sub-profiles of other types, the old type's included, are kept |
| Profiles.ChangeKeepsEmptyUpsert | src/main/user/profile/profile.service.ts:226-240 | a spotter or owner change has an empty update, so an existing sub-profile stays exactly as it was |
| Profiles.ChangeTwiceIsOnce | src/main/user/profile/profile.service.ts:219-360 | repeating a change with the same request leaves the tables as the first change left them |
| Profiles.ChangeMergesSim | src/main/user/profile/profile.service.ts:317-324 | a sim-racing change only adds or overwrites the given hardware fields |
| Profiles.SignupProfile | src/main/auth/auth.service.ts:108-119 | signup's profile has no type and no user name; preference, bio, imageUrl and instagramHandler from the body or null, the account type or PUBLIC, ACTIVE and not suspended |
| Profiles.SignupLikeCreate | src/main/auth/auth.service.ts:108-119 | signup's profile is createProfile's from the same fields, with the preference and without a type |
| Profiles.SignupKeepsOk | src/main/auth/auth.service.ts:108-196 | signup's profile and its sub-profile keep the tables consistent |
| Accounts.FindByEmail | src/main/auth/auth.service.ts:66-68 | the account with the email, or a proof that none exists |
| Accounts.FindApplication | src/main/pro-profile/ambassador-program/ambassador-program.service.ts:23-25 | the user's row in the program's table, or a proof that none exists |
| Accounts.FindByEmailUnique | src/main/auth/auth.service.ts:66-68 | with unique emails, the account found is the only one with that email |
| Accounts.FindApplicationUnique | src/main/pro-profile/ambassador-program/ambassador-program.service.ts:57-61 | with one row per user, the row found is the user's only one |
| Applications.ApplyCheck | src/main/pro-profile/ambassador-program/ambassador-program.service.ts:22-28 | an application passes iff the user exists and has no row in the program yet; the program's 'already' message otherwise; createRequest at src/main/pro-profile/official-pertner/official-pertner.service.ts:19-26 is the same |
| Applications.ApplyKeepsOk | src/main/pro-profile/ambassador-program/ambassador-program.service.ts:31-53 | a passing application keeps the tables consistent |
| Applications.ApplyOnce | src/main/pro-profile/ambassador-program/ambassador-program.service.ts:22-54 | a second application in the same program is refused |
| Applications.Mine | src/main/pro-profile/ambassador-program/ambassador-program.service.ts:56-64 | the user's own application of the program, or the program's not-found message; getMyRequest at src/main/pro-profile/official-pertner/official-pertner.service.ts:49-57 is the same |
| Applications.ApplyThenMine | src/main/pro-profile/ambassador-program/ambassador-program.service.ts:22-64 | after applying, the applicant reads back a PENDING application with the submitted form |
| Applications.Patched | src/main/pro-profile/ambassador-program/ambassador-program.service.ts:76-95 | an edit keeps the form's program |
| Applications.PatchedIdempotent | src/main/pro-profile/ambassador-program/ambassador-program.service.ts:76-95 | an edit applied twice acts once |
| Applications.UpdateCheck | src/main/pro-profile/ambassador-program/ambassador-program.service.ts:66-75 | an edit passes iff the user's row exists and is PENDING; the not-found message, then 'You can update only while status is PENDING.' |
| Applications.UpdateKeepsOk | src/main/pro-profile/ambassador-program/ambassador-program.service.ts:76-95 | an edit keeps the row's program, owner, status and date |
| Applications.DeleteCheck | src/main/pro-profile/ambassador-program/ambassador-program.service.ts:99-105 | a delete passes iff the user's row exists, whatever its status |
| Applications.DeleteKeepsOk | src/main/pro-profile/ambassador-program/ambassador-program.service.ts:106 | a delete keeps the tables consistent |
| Applications.DeleteThenApply | src/main/pro-profile/ambassador-program/ambassador-program.service.ts:99-108 | once deleted, the user may apply again, whatever the status was |
| Applications.ById | src/main/pro-profile/ambassador-program/ambassador-program.service.ts:144-152 | the row of this program with the id, or the program's not-found message |
| Applications.RoleAfter | src/main/pro-profile/ambassador-program/ambassador-program.service.ts:170-183 | approval grants the program's role, rejection sets USER, PENDING keeps the role |
| Applications.ReviewKeepsOk | src/main/pro-profile/ambassador-program/ambassador-program.service.ts:154-185 | a review keeps the tables consistent |
| Applications.ReviewSetsStatus | src/main/pro-profile/ambassador-program/ambassador-program.service.ts:154-185 | a review sets the given status whatever the previous one, and changes no role but the applicant's |
| Applications.RejectResetsAnyRole | src/main/pro-profile/ambassador-program/ambassador-program.service.ts:177-182 | rejection sets the role to USER whatever it was, an admin's included |
| Applications.ApproveThenEdit | src/main/pro-profile/ambassador-program/ambassador-program.service.ts:66-175 | after approval the applicant holds the program's role and can no longer edit the row |
| Applications.PageOf | src/main/pro-profile/ambassador-program/ambassador-program.service.ts:113 | the page is at least 1, 1 by default, and a valid page is kept |
| Applications.LimitOf | src/main/pro-profile/ambassador-program/ambassador-program.service.ts:114 | the limit lies in 1..100, 10 by default, and a valid limit is kept |
| Applications.List | src/main/pro-profile/ambassador-program/ambassador-program.service.ts:112-142 | the page is the window at offset (page - 1) * limit, limit long, of the program's matching applications newest first, with the count of all of them |
| Applications.ListCovers | src/main/pro-profile/ambassador-program/ambassador-program.service.ts:112-142 | each matching application is on some page, and the total equals the number of matching applications |
| AccountStore.Store.Signup | src/main/auth/auth.service.ts:65-207 | on failure the check's error and no change; otherwise the account, its profile and sub-profile, and the e-mail code with its expiry |
| AccountStore.Store.VerifyEmail | src/main/auth/auth.service.ts:209-231 | on failure the check's error and no change; otherwise the account verified and its code cleared |
| AccountStore.Store.Login | src/main/auth/auth.service.ts:233-308 | on failure the check's error and no change; otherwise the session's role and refresh-token hash stored, and the signed tokens returned |
| AccountStore.Store.RefreshTokens | src/main/auth/auth.service.ts:311-336 | on failure the check's error and no change; otherwise the new refresh-token hash stored and the new tokens returned |
| AccountStore.Store.Logout | src/main/auth/auth.service.ts:338-344 | on failure the check's error and no change; otherwise the refresh-token hash cleared |
| AccountStore.Store.ForgotPassword | src/main/auth/auth.service.ts:346-361 | the same reply for every e-mail; a known e-mail gets a reset code with its expiry and nothing else changes |
| AccountStore.Store.ResetPassword | src/main/auth/auth.service.ts:363-386 | on failure the check's error and no change; otherwise the new password hash stored, the reset code and the session cleared |
| AccountStore.Store.ChangePassword | src/main/auth/auth.service.ts:388-408 | on failure the check's error and no change; otherwise the new password hash stored |
| AccountStore.Store.Apply | src/main/pro-profile/ambassador-program/ambassador-program.service.ts:22-54 | on failure the check's error and no change; otherwise a PENDING application with the form; createRequest behaves the same |
| AccountStore.Store.UpdateApplication | src/main/pro-profile/ambassador-program/ambassador-program.service.ts:66-97 | on failure the check's error and no change; otherwise the form edited and its status kept |
| AccountStore.Store.DeleteApplication | src/main/pro-profile/ambassador-program/ambassador-program.service.ts:99-108 | on failure the check's error and no change; otherwise the row removed |
| AccountStore.Store.Review | src/main/pro-profile/ambassador-program/ambassador-program.service.ts:154-185 | a missing row is the program's not-found message with no change; otherwise the status set and the applicant's role moved as RoleAfter says |
| AccountStore.Store.CreateProfile | src/main/user/profile/profile.service.ts:42-151 | on failure the check's error and no change; otherwise the profile and its sub-profile under the next id |
| AccountStore.Store.UpdateProfileBase | src/main/user/profile/profile.service.ts:176-200 | on failure the check's error and no change; otherwise the base fields written |
| AccountStore.Store.ChangeProfileType | src/main/user/profile/profile.service.ts:203-369 | on failure the check's error and no change; otherwise the new type written and its sub-profile upserted |
| Auth.CodeCheck | src/main/auth/auth.service.ts:214-219 | a stored code passes iff it is present and non-empty, equals the one given, and its expiry is not before now; 'No OTP found', 'Invalid OTP' and 'OTP expired' in that order |
| Auth.SignupCheck | src/main/auth/auth.service.ts:65-195 | signup is refused iff the e-mail belongs to a verified account ('Email already exists') or, for a new account, the profile type's required fields are missing |
| Auth.NewAccount | src/main/auth/auth.service.ts:96-107 | a new account is unverified, has role USER, holds the e-mail code and its expiry, stores a hash of the password and no session |
| Auth.SignupReply | src/main/auth/auth.service.ts:87-206 | an unverified existing e-mail answers that the code was resent with that account's id; otherwise the new account's id |
| Auth.SignupKeepsOk | src/main/auth/auth.service.ts:76-206 | signup keeps the tables consistent |
| Auth.ResignupOnlyResendsCode | src/main/auth/auth.service.ts:77-84 | signing up again with an unverified e-mail replaces only that account's code and expiry |
| Auth.SignupThenFind | src/main/auth/auth.service.ts:65-207 | after signup the e-mail belongs to exactly one account, which is unverified |
| Auth.VerifyCheck | src/main/auth/auth.service.ts:209-219 | an unknown e-mail is 'User not found', a verified account answers 'Email already verified', otherwise the code checks decide |
| Auth.VerifyThenVerify | src/main/auth/auth.service.ts:221-228 | a verification is final: the code is cleared and verifying again answers that the e-mail is already verified |
| Auth.VerifyKeepsOk | src/main/auth/auth.service.ts:221-228 | a verification keeps the tables consistent |
| Auth.LoginCheck | src/main/auth/auth.service.ts:233-270 | a login passes iff the e-mail is known, the password matches, the account is verified and any requested program role is approved; both credential failures are 'Invalid credentials' |
| Auth.LoginRoleEarned | src/main/auth/auth.service.ts:250-270 | the session's role is the stored one or a program role whose application is approved |
| Auth.ApproveThenLogin | src/main/auth/auth.service.ts:250-270 | once an admin approves the application, its owner can log in with the program's role |
| Auth.LoginKeepsOk | src/main/auth/auth.service.ts:273-295 | a login keeps the tables consistent |
| Auth.RefreshCheck | src/main/auth/auth.service.ts:311-317 | a refresh passes iff the account exists and the token matches the stored hash; otherwise 'Access denied' |
| Auth.RefreshRotates | src/main/auth/auth.service.ts:311-336 | after a refresh only the new token is accepted |
| Auth.LogoutCheck | src/main/auth/auth.service.ts:338-344 | logout fails iff the account is missing, as the update does |
| Auth.LogoutEndsRefresh | src/main/auth/auth.service.ts:338-344 | after logout no refresh token is accepted until the next login |
| Auth.ForgotChangesOnlyCode | src/main/auth/auth.service.ts:346-361 | an unknown e-mail changes nothing; a known one gets the reset code and nothing else |
| Auth.ResetCheck | src/main/auth/auth.service.ts:363-371 | a reset passes iff the e-mail is known and the reset code passes the code checks; an unknown e-mail is 'Invalid request' |
| Auth.ResetThenLogin | src/main/auth/auth.service.ts:363-386 | after a reset the new password matches, no refresh token is accepted, and the same code cannot reset again |
| Auth.ChangeCheck | src/main/auth/auth.service.ts:388-397 | a change passes iff the account exists and the current password matches; 'Access denied' then 'Current password incorrect' |
| Auth.ChangeThenLogin | src/main/auth/auth.service.ts:388-408 | after a change only the new password is accepted and every session is ended |
| Auth.PasswordKeepsOk | src/main/auth/auth.service.ts:374-404 | a reset, a change, a logout and a refresh keep the tables consistent |
| Auth.ForgotKeepsOk | src/main/auth/auth.service.ts:346-361 | a reset-code request keeps the tables consistent |
| Auth.Me | src/main/auth/auth.service.ts:410-415 | the whole stored account, or 'User is Not Found' iff it is missing |
| Auth.UserById | src/main/auth/auth.service.ts:418-447 | the account's user name, e-mail, role and verification flag, never its credentials; or 'User not found' iff it is missing |
| Otp.CodeOf | src/main/auth/otp.service.ts:13 | the code is six decimal digits with no leading zero, and its value is 100000 plus the draw |
| Otp.Newest | src/main/auth/otp.service.ts:24-27 | the unverified row with the code and the latest creation time, or a proof that none exists |
| Otp.VerifiedNotChosenAgain | src/main/auth/otp.service.ts:33-36 | once a row is marked verified it is never chosen again |
| Otp.GeneratedIsChosen | src/main/auth/otp.service.ts:12-27 | a freshly generated code, with no row created after it, is the row verifyOtp picks for that code |
| Otp.OtpStore.GenerateOtp | src/main/auth/otp.service.ts:12-21 | stores the six-digit code, unverified, expiring two minutes after now, and returns it |
| Otp.OtpStore.VerifyOtp | src/main/auth/otp.service.ts:23-39 | no candidate is 'Invalid OTP', an expired one is 'OTP expired', both with no change; otherwise that row is marked verified and its id returned |
| Hashtags.Normalise | src/main/admin/hashtag/hashtag.service.ts:18 | the stored form of a tag has no upper-case letter |
| Hashtags.NormaliseIdempotent | src/main/admin/hashtag/hashtag.service.ts:18 | normalising a normalised tag leaves it as it is |
| Hashtags.FindTag | src/main/admin/hashtag/hashtag.service.ts:20-22 | the row with the tag, or a proof that none exists |
| Hashtags.NewHashtag | src/main/admin/hashtag/hashtag.service.ts:28-34 | the new tag is in normal form, created by the admin, active, not featured and unused |
| Hashtags.CreateCheck | src/main/admin/hashtag/hashtag.service.ts:17-26 | creation is refused iff a stored tag equals the normal form of the given one, with 'Hashtag already exists' |
| Hashtags.CreateKeepsOk | src/main/admin/hashtag/hashtag.service.ts:28-34 | a created tag keeps the tags unique |
| Hashtags.CreateOnce | src/main/admin/hashtag/hashtag.service.ts:17-35 | two spellings with the same normal form name one tag: once either is created the other is refused |
| Hashtags.Edited | src/main/admin/hashtag/hashtag.service.ts:44-47 | an edit writes the given fields and keeps the tag, its usage and its creator |
| Hashtags.EditKeepsOk | src/main/admin/hashtag/hashtag.service.ts:44-47 | an edit keeps the tags unique |
| Hashtags.EditIdempotent | src/main/admin/hashtag/hashtag.service.ts:44-47 | editing twice with the same body is editing once |
| Hashtags.Search | src/main/admin/hashtag/hashtag.service.ts:52-70 | the first twenty of the active tags holding the search text (ignoring case, when one is given), most used first |
| Hashtags.Trending | src/main/admin/hashtag/hashtag.service.ts:72-82 | the first ten of the active tags, most used first |
| Hashtags.SearchTop | src/main/admin/hashtag/hashtag.service.ts:52-70 | a matching active tag left out means twenty tags are listed, each used at least as often as it |
| Hashtags.TrendingTop | src/main/admin/hashtag/hashtag.service.ts:72-82 | an active tag left out means ten tags are listed, each used at least as often as it |
| Hashtags.Lowered | src/main/admin/hashtag/hashtag.service.ts:89 | every input's lowercase is among the looked-up tags |
| Hashtags.Matched | src/main/admin/hashtag/hashtag.service.ts:87-92 | exactly the active rows whose tag is an input's lowercase |
| Hashtags.ConnectCheck | src/main/admin/hashtag/hashtag.service.ts:94-96 | refused iff fewer active rows match than inputs were given, with 'Invalid or inactive hashtag used' |
| Hashtags.ConnectKeepsOk | src/main/admin/hashtag/hashtag.service.ts:98-103 | raising the matched rows' usage keeps the tags unique |
| Hashtags.LoweredCard | src/main/admin/hashtag/hashtag.service.ts:89-94 | there are no more lowercased inputs than inputs, and as many exactly when no two coincide |
| Hashtags.MatchedTags | src/main/admin/hashtag/hashtag.service.ts:87-92 | the matched rows' tags are the lowercased inputs that are active tags |
| Hashtags.ConnectAcceptsExactly | src/main/admin/hashtag/hashtag.service.ts:86-96 | the check passes exactly when the inputs lowercase to distinct active tags: a repeated, unknown or inactive tag is refused |
| Hashtags.HashtagStore.CreateHashtag | src/main/admin/hashtag/hashtag.service.ts:17-35 | on failure the check's error and no change; otherwise the new tag stored under the next id |
| Hashtags.HashtagStore.UpdateHashtag | src/main/admin/hashtag/hashtag.service.ts:37-48 | a missing id is 'Hashtag not found' with no change; otherwise the edited row replaces the stored one |
| Hashtags.HashtagStore.ValidateAndConnect | src/main/admin/hashtag/hashtag.service.ts:86-106 | on refusal no change; otherwise every matched row's usage up by one and their ids returned |
| Files.ResolveResourceType | src/main/files/cloudinary/cloudinary.service.ts:111-115 | image for an image/ MIME type, video for video/, raw for anything else, each case both ways |
| Files.FileTypeRoundTrip | src/main/files/cloudinary/cloudinary.service.ts:117-126 | the stored file type and mapFileTypeToResourceType are inverse, so a delete uses the upload's resource type |
| Files.Ext | src/main/files/cloudinary/cloudinary.service.ts:29 | the text after the last dot, which holds no dot, or the whole name when it has none |
| Files.BaseNameStrips | src/main/files/cloudinary/cloudinary.service.ts:30 | the base name is the timestamp, a dash and the original name, cut before its final extension exactly when the name has one |
| Files.SplitExtension | src/main/files/cloudinary/cloudinary.service.ts:29-30 | a name with an extension is its stripped base, a dot and its extension |
| Files.RawKeepsName | src/main/files/cloudinary/cloudinary.service.ts:29-39 | a raw upload of a name with an extension keeps the whole original name after the timestamp |
| Files.FilenameOf | src/main/files/cloudinary/cloudinary.service.ts:63 | the part of the public id after its last slash, which holds no slash |
| Files.FilenameUnderFolder | src/main/files/cloudinary/cloudinary.service.ts:39-63 | when the host files the upload under its folder, the stored filename is the public id asked for |
| Files.StoredFilename | src/main/files/cloudinary/cloudinary.service.ts:29-63 | for a name without a slash, the filename recorded from the host's folder/id answer is the public id that was asked for |
| Files.UploadCheck | src/main/files/cloudinary/cloudinary.service.ts:23-27 | refused iff the buffer is missing or the name is empty, with 'File buffer and original name are required' |
| Files.Recorded | src/main/files/cloudinary/cloudinary.service.ts:61-76 | the row holds the host's public id and URL, the filename after the last slash, a file type matching the resource type, the MIME type and the buffer's size |
| Files.DeleteCheck | src/main/files/cloudinary/cloudinary.service.ts:81-99 | a delete passes iff the row exists and the host answers ok or not found; 'File not available on the server' then 'Failed to delete file from Cloudinary' |
| Files.UploadThenDestroyType | src/main/files/cloudinary/cloudinary.service.ts:67-95 | a recorded upload is destroyed with the resource type it was uploaded as |
| Files.FileStore.UploadFileBuffer | src/main/files/cloudinary/cloudinary.service.ts:18-79 | a refused guard or a failed upload changes nothing; otherwise the recorded row is stored under the next id and returned |
| Files.FileStore.DeleteResource | src/main/files/cloudinary/cloudinary.service.ts:81-109 | a refusal changes nothing; otherwise the row is removed and the reply names its id and resource type |
| Envelope.ErrorStatusCode | src/common/helpers/handle.request.ts:17-20 | the thrown response's status code if truthy, else the error's status if truthy, else 500; never 0 |
| Envelope.StringMessage | src/common/helpers/handle.request.ts:25-27 | the response message if a non-empty string, else the error's message if non-empty, else 'Something went wrong' |
| Envelope.ErrorMessage | src/common/helpers/handle.request.ts:22-27 | a list of messages gives them in order separated by a comma and a space (one message gives itself, none the empty text); otherwise the text is never empty |
| Envelope.HandleRequest | src/common/helpers/handle.request.ts:1-31 | success with the given code, message and value iff the callback returns; otherwise error with the derived code and message and no data |
| Envelope.DefaultArguments | src/common/helpers/handle.request.ts:1-31 | with the default arguments a success is 200 with 'Request successful'; a failure's envelope does not depend on either argument |
| Envelope.ThrownFrom | src/common/helpers/handle.request.ts:15-29 | only a failure that is not an HttpException lacks a status |
| Envelope.FailureEnvelope | src/common/helpers/handle.request.ts:15-29 | a failing service call is reported with its exception's status code and its own message |
| Envelope.BlankInternalEnvelope | src/common/helpers/handle.request.ts:17-27 | a message-less error that is not an HttpException is reported as 500 with 'Something went wrong' |
| Envelope.JoinHoldsEach | src/common/helpers/handle.request.ts:23-24 | every joined message appears in the joined text |
| Text.Trim | src/main/posts/comment/comment.service.ts:91 | trimming removes white space at both edges and never lengthens |
| Text.TrimIsInfix | src/main/posts/comment/comment.service.ts:91 | what trim keeps is a run of the input and what it drops on either side is white space |
| Text.TrimIdempotent | src/main/posts/comment/comment.service.ts:91 | trimming twice is trimming once |
| Text.ToLower | src/main/admin/hashtag/hashtag.service.ts:18 | lowercasing keeps the length and maps each character on the ASCII range |
| Text.SearchTerm | src/main/product/product.service.ts:55-56 | a search term is present iff the search is given and not blank, and is then the trimmed search |
| Text.LastSegment | src/main/files/cloudinary/cloudinary.service.ts:29 | the part after the last separator, a suffix holding no separator |
| Text.StripExtension | src/main/files/cloudinary/cloudinary.service.ts:30 | a prefix of the name; when it differs, a dot followed by a non-empty tail with no dot or slash was dropped |
| Text.StripExtensionMatches | src/main/files/cloudinary/cloudinary.service.ts:30 | the extension is stripped exactly when the regular expression matches |
| Text.FirstSegment | src/main/chat/chat.gateway.ts:109 | the part before the first separator, a prefix holding no separator |
| Text.SecondSegment | src/main/chat/chat.gateway.ts:109 | absent iff the text holds no separator; otherwise the part between the first and second separator |
| Text.SecondSegmentOfJoin | src/main/chat/chat.gateway.ts:109 | splitting a scheme, a space and a token gives back the token |
| Text.Join | src/common/helpers/handle.request.ts:24 | joining no parts gives the empty text and one part gives that part |
| Text.JoinAppend | src/common/helpers/handle.request.ts:24 | joining two non-empty lists is joining each with one separator between |
| Text.JoinTwo | src/common/helpers/handle.request.ts:24 | two parts are joined with one separator |
| Text.JoinFront | src/common/helpers/handle.request.ts:24 | read from the front, the join is the first part, the separator and the rest joined |
| Text.Decimal | src/main/auth/otp.service.ts:13 | the decimal text of a number is at least one digit, with no leading zero from 10 on |
| Text.DecimalRoundTrip | src/main/auth/otp.service.ts:13 | the decimal text reads back as the number it was made from |
| Paging.CeilDiv | src/main/posts/like/like.service.ts:173 | the least number of pages of limit rows that hold total rows |
| Paging.NonEmptyPages | src/main/posts/like/like.service.ts:130-173 | page p holds at least one row iff 1 <= p <= totalPages |
| Paging.PagesPartition | src/main/posts/like/like.service.ts:130-177 | in a listing without repeats every row is on exactly one page of limit rows |
| Listing.FindMany | src/main/posts/post/post.service.ts:97-102 | every matching row exactly once, in rank order |
| Listing.FindPage | src/main/posts/post/post.service.ts:97-104 | skip and take cut exactly that window out of the ordered listing: at most take matching rows, still in rank order |
| Listing.FindManyCount | src/main/posts/like/like.service.ts:142-163 | a listing has as many rows as count with the same filter reports |
| Listing.FirstPageIsTop | src/main/admin/hashtag/hashtag.service.ts:52-82 | a matching row missing from the first page of take rows means the page is full of rows ranked before it |
| Listing.Paginate | src/main/posts/like/like.service.ts:130-177 | page p of limit rows is the window of the ordered listing at offset (p - 1) * limit, at most limit long, with the total and the page count |
| Listing.PageByDateCovers | src/main/posts/like/like.service.ts:130-177 | whatever the limit, every row of a date-ordered listing is on exactly one of its pages |
| Property.UserProfile | src/main/property/garage/garage.service.ts:11-13 | the profile found belongs to the user; none is found only when the user has no profile |
| Property.CreateGarageCheck | src/main/property/garage/garage.service.ts:10-17 | 'Profile not found' iff the user has no profile |
| Property.GarageCreated | src/main/property/garage/garage.service.ts:19-24 | the new garage hangs from the caller's profile under the next id and no other table changes |
| Property.Reversed | src/main/property/garage/garage.service.ts:38 | the ids in the opposite order, the same ids |
| Property.ReversedTwice | src/main/property/garage/garage.service.ts:38 | reversing twice gives the ascending ids back |
| Property.ReversedDescending | src/main/property/garage/garage.service.ts:38 | reversing an ascending id listing makes it descending |
| Property.UserGarages | src/main/property/garage/garage.service.ts:27-40 | 'Profile not found' iff the user has none; otherwise exactly that profile's garages, highest id first |
| Property.GetGarage | src/main/property/garage/garage.service.ts:42-55 | 'Garage not found' iff the garage is missing; otherwise the row and exactly the cars in it |
| Property.GarageOwnerCheck | src/main/property/garage/garage.service.ts:57-69 | passes iff the garage exists and belongs to the caller's profile; 'Garage not found' before 'You are not the owner of this garage' |
| Property.EditedGarage | src/main/property/garage/garage.service.ts:71-74 | supplied fields replace the stored ones, absent ones and the owner are kept |
| Property.GarageUpdateStable | src/main/property/garage/garage.service.ts:57-75 | after an update the caller still owns the garage and repeating the update changes nothing |
| Property.GarageDeleteFinal | src/main/property/garage/garage.service.ts:77-94 | after a delete the garage is not found by readers or writers, and every other garage is unchanged |
| Property.GarageKeepsOk | src/main/property/garage/garage.service.ts:10-94 | creating, updating and deleting garages keeps the tables consistent |
| Property.OwnershipCheck | src/main/property/car/car.service.ts:23-38 | passes iff the car exists and belongs to the caller's profile; 'Car not found' before 'Not your car' |
| Property.CreateCarCheck | src/main/property/car/car.service.ts:40-53 | passes iff the caller has a profile and the garage is one of its garages; 'Profile not found' before 'Not your garage' |
| Property.AdvancedOf | src/main/property/car/car.service.ts:104 | exactly the advanced-data records pointing at the car |
| Property.CreateGivesOneAdvanced | src/main/property/car/car.service.ts:55-61 | a new car has exactly one advanced-data record, the id after its own, and no section row yet |
| Property.CarUpdateMerges | src/main/property/car/car.service.ts:64-71 | an owner's update writes every supplied column, keeps the others, and leaves the car theirs |
| Property.CarKeepsOk | src/main/property/car/car.service.ts:40-79 | creating, updating and deleting cars keeps the tables consistent |
| Property.GetCar | src/main/property/car/car.service.ts:81-98 | absent iff the car is missing; otherwise the row and exactly its advanced-data records |
| Property.SectionsOf | src/main/property/car/car.service.ts:102-177 | exactly the section rows keyed by one advanced-data record |
| Property.FirstAdvanced | src/main/property/car/car.service.ts:104 | one of the car's advanced-data records; none only when the car has none |
| Property.SectionCheck | src/main/property/car/car.service.ts:102-105 | passes iff the caller owns the car and it has an advanced-data record; ownership errors pass through, a car without a record fails reading its id |
| Property.UpsertRow | src/main/property/car/car.service.ts:106-110 | the section row holds every supplied column, over the existing row's other columns, or the supplied columns alone when there was none |
| Property.UpsertIdempotent | src/main/property/car/car.service.ts:106-110 | repeating an upsert changes nothing, so a section is never duplicated |
| Property.UpsertOnlyOwnRow | src/main/property/car/car.service.ts:106-110 | an upsert touches only its own table's row for its record; cars, garages and notices stay |
| Property.UpsertKeepsOk | src/main/property/car/car.service.ts:106-110 | an upsert keeps the tables consistent |
| Property.CreateThenSection | src/main/property/car/car.service.ts:40-111 | the creator of a car can fill any section at once, keyed by its one record, and the section then holds what they supplied |
| LegalNotices.CreateCheck | src/main/admin/legal-notice/legal.notice.service.ts:14-44 | passes iff a profile id is given, the profile and car exist and the car is that profile's; errors in the source's order and words |
| LegalNotices.NoticeOf | src/main/admin/legal-notice/legal.notice.service.ts:47-76 | the notice carries the given profile, car and the creation time |
| LegalNotices.FiledKeepsOk | src/main/admin/legal-notice/legal.notice.service.ts:47-76 | filing a notice keeps the tables consistent |
| LegalNotices.List | src/main/admin/legal-notice/legal.notice.service.ts:79-99 | exactly the notices (of the profile, when one is given), newest first |
| LegalNotices.GetByCar | src/main/admin/legal-notice/legal.notice.service.ts:101-117 | 'Car not found' iff the car is missing; otherwise exactly the car's notices, newest first |
| LegalNotices.GetOne | src/main/admin/legal-notice/legal.notice.service.ts:119-133 | the stored notice, or 'Legal notice not found' iff it is missing |
| LegalNotices.FiledIsFound | src/main/admin/legal-notice/legal.notice.service.ts:14-133 | a filed notice is read back by id, under its profile and under its car |
| LegalNotices.FiledOnce | src/main/admin/legal-notice/legal.notice.service.ts:47-76 | filing adds exactly one notice for its car and none for any other car |
| PropertyStore.Store.CreateGarage | src/main/property/garage/garage.service.ts:10-25 | on failure the check's error and no change; otherwise the next id and the garage created |
| PropertyStore.Store.UpdateGarage | src/main/property/garage/garage.service.ts:57-75 | on failure the check's error and no change; otherwise the edited row, stored |
| PropertyStore.Store.DeleteGarage | src/main/property/garage/garage.service.ts:77-94 | on failure the check's error and no change; otherwise the old row, removed |
| PropertyStore.Store.CreateCar | src/main/property/car/car.service.ts:40-62 | on failure the check's error and no change; otherwise the next id, with its advanced-data record created beside it |
| PropertyStore.Store.UpdateCar | src/main/property/car/car.service.ts:64-71 | on failure the check's error and no change; otherwise the columns merged and the new row returned |
| PropertyStore.Store.DeleteCar | src/main/property/car/car.service.ts:73-79 | on failure the check's error and no change; otherwise the old row, removed |
| PropertyStore.Store.UpdateSection | src/main/property/car/car.service.ts:102-177 | on failure the check's error and no change; otherwise the section of the car's first record upserted and returned (all seven section methods) |
| PropertyStore.Store.CreateLegalNotice | src/main/admin/legal-notice/legal.notice.service.ts:14-77 | on failure the check's error and no change; otherwise the filed notice, stored under the next id |

## Left out

### General

- Transport and framework:
  - the Socket.IO transport: rooms, CORS and the delivery of emitted events;
  - controllers, modules, decorators and DTO validation;
  - `process.env`.
- The gateway records its emissions, in order, in the socket's `log`.
- Prisma `include`/`select` projections: a query returns row ids or whole rows, not the nested shapes.
- The schema is not part of this model:
  - the cascades a delete triggers (every delete removes only its own row);
  - the foreign-key failures that save, hide and report may meet.
- Column defaults the services do not set are a parameter (`initial`).
- Identifiers are natural numbers from a per-store counter, not cuid or uuid strings.
- Instants are integers of milliseconds, passed in as `now`, and integers are unbounded.
- Event dates are compared as instants, while the source compares ISO strings.
- Concurrency: each service call is atomic, so concurrent races between two first contacts are not modelled.
- A `$transaction` that fails changes nothing; a failure before the first write changes nothing too.
- Ties in an `orderBy` are broken by ascending id, where the database leaves the order unspecified.
- Case-insensitive `contains` search folds ASCII letters only, and `toLowerCase` is modelled on the ASCII range.
- Query strings that `parseInt` reads are modelled as already-parsed integers; a `NaN` page or limit is not modelled.

### Chat

- `removeMessage` and `getChatPartnersWithUser` are called by the gateway but are not defined in the chat service.
  - Their gateway handlers model only the guards and the emission order.
  - The service's answer is a parameter.
- `new URL` parsing is a parameter that yields the protocol, or nothing when the parse fails.
- A cursor that is not in the conversation gives an empty page.

### Crypto, codes and external services

- bcrypt is a perfect hash (`Accounts.Digest`).
- JWT signing and verification, and randomly drawn codes, are parameters.
- src/common/utils/otp.ts is not part of this model: `generateOtp` and `otpExpiry` are parameters.
- Mail sending is not modelled.
- The media host's upload and destroy calls are not modelled: their answers are parameters.

### Files

- Files.UploadCheck: follows the code, so an empty but present buffer passes the guard.

### Envelope

- Envelope.FailureEnvelope: requires a non-empty message. An `HttpException` with an empty message falls back to other text and is not stated.

### Profiles and auth

- Profiles.SignupProfile: signup's `Invalid profileType` default branch cannot be reached once the DTO's enum is checked, so it is not modelled.
- Profiles.CreateCheck: the unique `userId` refusal carries Prisma's message as the model spells it; the exact P2002 text is not modelled.
- The refresh token is signed with the user's stored role, as the source does.

### Hashtags and OTP

- Hashtags.HashtagStore.ValidateAndConnect: lowercases the inputs without trimming them, as the source does.
- Otp.Newest: ties in `createdAt` go to the later-inserted row.

### Property

- Property.UserProfile: takes the lowest-id profile of a user. Signup and createProfile never give a user a second profile, but no store invariant says a user has at most one.
- The update DTOs for garages and cars are not part of this model.
  - A garage update is a partial update of the three fields.
  - A car update is a merge of the supplied columns, so a car is never moved between garages.
- PropertyStore.Store.UpdateSection: one method with a `Section` argument stands for the seven section methods, whose code is the same.
- Property.FirstAdvanced: `advancedCarDatas[0]` is taken as the car's lowest-id advanced-data record.
- LegalNotices.NoticeOf: the notice's `date` is already parsed into an instant.

### Posts and challenges

- Posts.Feed: models `getFeed(page = 1, limit = 10)` as the service declares it.
  - The route at src/main/posts/post/post.controller.ts:38-39 passes the whole query object as `page`, so the offset it computes is `NaN`.
  - That route, like every controller, is not part of this model.
- Challenges.ChallengeStore.FinalizeChallenge: the store keeps every challenge post's like count at 0, because no operation of the store likes a challenge post.
  - So in the store the earliest post always wins.
  - The ranking by likes, then by age, is proved on values by Challenges.TopPostWins.

### Battles

- Battles.BattleStore: src/main/battle/battle.service.ts repeats the rules of src/main/program/battle/battle.service.ts, and one model covers both.
- Battles.ListBattles: a negative limit is answered with Internal, whereas the database reads a negative `take` as counting back from the end of the list.
- Battles.ListBattles: with limit 0 the model reports 0 pages, where `Math.ceil(total / 0)` is Infinity or NaN and is serialised as null; a page below 1 with limit 0 gives a `skip` of zero, which the model accepts.
- Battles.ListBattles: the refusal's text is the database's own and is not modelled word for word.
  - The rows cite the program copy.
  - getBattle's nested includes are not modelled.

## Findings

| source | as written | input that shows it | evidently intended | confidence | as-written member | corrected member |
|---|---|---|---|---|---|---|
| src/main/product/product.service.ts:197-198 | confirmHighlightPayment checks only that the request is PENDING | two highlight requests for a product that has no live highlight, then both paid at time 0: both confirmations pass and the product has two ACTIVE highlights over the same hours | at most one live highlight per product, as requestHighlight demands at lines 175-178 | high (proved; not executed) | Products.OverlapAsWritten | Products.ConfirmKeepsDisjoint |

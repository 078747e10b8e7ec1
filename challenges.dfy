/**
 * Challenges: an admin opens a challenge with a participant cap, users
 * join while it is ACTIVE, each participant submits one post, and the
 * challenge is finalized once in favour of the post with the most likes
 * (the earliest one on a tie).
 */
module Challenges {

  import opened Outcomes
  import opened Tables
  import Sorting

  datatype Activity = ACTIVE | INACTIVE

  datatype Challenge = Challenge(hostId: Id, title: string, participants: int, isActive: Activity)

  datatype Participant = Participant(challengeId: Id, userId: Id, joinedAt: int, isActive: bool)

  /** The post (of type Challenge_Post) created for a submission; `like` is its like counter. */
  datatype ChallengePost = ChallengePost(
    userId: Id,
    challengeId: Id,
    participantId: Id,
    mediaUrl: Option<string>,
    caption: Option<string>,
    like: nat,
    createdAt: int)

  datatype Submission = Submission(challengeId: Id, userId: Id, xpostId: Id)

  datatype ChallengeResult = ChallengeResult(challengeId: Id, winnerUserId: Id)

  datatype CreateChallengeDto = CreateChallengeDto(title: string, participants: Option<int>)

  datatype SubmitChallengePostDto = SubmitChallengePostDto(challengeId: Id, mediaUrl: Option<string>, caption: Option<string>)

  const DefaultParticipants: int := 10

  /**
   * The row createChallenge inserts; `initial` is the schema's default
   * for `isActive`, which the service does not set.
   */
  function NewChallenge(hostId: Id, dto: CreateChallengeDto, initial: Activity): (c: Challenge)
    requires dto.participants.None? || dto.participants.value >= 1
    ensures c.hostId == hostId && c.participants >= 1 && c.isActive == initial
    ensures dto.participants.None? ==> c.participants == DefaultParticipants
    ensures dto.participants.Some? ==> c.participants == dto.participants.value
  {
    Challenge(hostId, dto.title, dto.participants.GetOr(DefaultParticipants), initial)
  }

  // ---------------------------------------------------------------------------
  // Lookups

  /** `challengeParticipant.findFirst({ challengeId, userId, isActive: true })`. */
  function FindActiveParticipant(parts: map<Id, Participant>, next: Id, c: Id, u: Id): (r: Option<Id>)
    ensures r.Some? ==> r.value in parts && parts[r.value].challengeId == c && parts[r.value].userId == u && parts[r.value].isActive
    ensures r.None? ==> forall i :: i in parts && i < next ==> !(parts[i].challengeId == c && parts[i].userId == u && parts[i].isActive)
  {
    FindFirst(parts, next, (p: Participant) => p.challengeId == c && p.userId == u && p.isActive)
  }

  function FindParticipant(parts: map<Id, Participant>, next: Id, c: Id, u: Id): (r: Option<Id>)
    ensures r.Some? ==> r.value in parts && parts[r.value].challengeId == c && parts[r.value].userId == u
    ensures r.None? ==> forall i :: i in parts && i < next ==> !(parts[i].challengeId == c && parts[i].userId == u)
  {
    FindFirst(parts, next, (p: Participant) => p.challengeId == c && p.userId == u)
  }

  /** `challengeSubmission.findUnique({ challengeId_userId })`. */
  function FindSubmission(subs: map<Id, Submission>, next: Id, c: Id, u: Id): (r: Option<Id>)
    ensures r.Some? ==> r.value in subs && subs[r.value].challengeId == c && subs[r.value].userId == u
    ensures r.None? ==> forall i :: i in subs && i < next ==> !(subs[i].challengeId == c && subs[i].userId == u)
  {
    FindFirst(subs, next, (s: Submission) => s.challengeId == c && s.userId == u)
  }

  function FindResult(results: map<Id, ChallengeResult>, next: Id, c: Id): (r: Option<Id>)
    ensures r.Some? ==> r.value in results && results[r.value].challengeId == c
    ensures r.None? ==> forall i :: i in results && i < next ==> results[i].challengeId != c
  {
    FindFirst(results, next, (x: ChallengeResult) => x.challengeId == c)
  }

  /** `_count.participantsList`. */
  function ParticipantCount(parts: map<Id, Participant>, c: Id): nat
  {
    Count(parts, (p: Participant) => p.challengeId == c)
  }

  // ---------------------------------------------------------------------------
  // The store invariant

  ghost predicate StoreOk(challenges: map<Id, Challenge>, parts: map<Id, Participant>, posts: map<Id, ChallengePost>,
                          subs: map<Id, Submission>, results: map<Id, ChallengeResult>, next: Id)
  {
    Bounded(challenges, next) && Bounded(parts, next) && Bounded(posts, next)
    && Bounded(subs, next) && Bounded(results, next)
    && (forall i :: i in parts ==> parts[i].challengeId in challenges)
    && UniqueKey(parts, (p: Participant) => (p.challengeId, p.userId))
    && (forall i :: i in posts ==> posts[i].challengeId in challenges && posts[i].participantId in parts)
    && (forall i :: i in subs ==> subs[i].challengeId in challenges && subs[i].xpostId in posts)
    && UniqueKey(subs, (s: Submission) => (s.challengeId, s.userId))
    && (forall i :: i in results ==> results[i].challengeId in challenges)
    && UniqueKey(results, (x: ChallengeResult) => x.challengeId)
  }

  // ---------------------------------------------------------------------------
  // Guards

  function JoinCheck(users: set<Id>, challenges: map<Id, Challenge>, parts: map<Id, Participant>, next: Id, c: Id, u: Id)
    : (e: Option<Outcome<Id>>)
    ensures e.Some? ==> e.value.IsFailure()
    ensures e.None? <==> (c in challenges && challenges[c].isActive == ACTIVE
      && ParticipantCount(parts, c) < challenges[c].participants
      && u in users && FindParticipant(parts, next, c, u).None?)
    ensures c !in challenges ==> e == Some(NotFound("Challenge not found"))
    ensures c in challenges && challenges[c].isActive != ACTIVE ==> e == Some(BadRequest("Challenge is not active"))
  {
    if c !in challenges then Some(NotFound("Challenge not found"))
    else if challenges[c].isActive != ACTIVE then Some(BadRequest("Challenge is not active"))
    else if ParticipantCount(parts, c) >= challenges[c].participants then Some(BadRequest("Challenge is full"))
    // the create's unique-key or foreign-key violation is caught and reported as one message
    else if FindParticipant(parts, next, c, u).Some? || u !in users then Some(BadRequest("Already joined"))
    else None
  }

  function SubmitCheck(challenges: map<Id, Challenge>, parts: map<Id, Participant>, subs: map<Id, Submission>, next: Id,
                       c: Id, u: Id): (e: Option<Outcome<Id>>)
    ensures e.Some? ==> e.value.IsFailure()
    ensures e.None? <==> (c in challenges && challenges[c].isActive == ACTIVE
      && FindActiveParticipant(parts, next, c, u).Some? && FindSubmission(subs, next, c, u).None?)
    ensures (c in challenges && challenges[c].isActive == ACTIVE && FindActiveParticipant(parts, next, c, u).None?)
      ==> e == Some(Forbidden("You are not a participant of this challenge"))
    ensures (c in challenges && challenges[c].isActive == ACTIVE && FindActiveParticipant(parts, next, c, u).Some?
      && FindSubmission(subs, next, c, u).Some?) ==> e == Some(BadRequest("You already submitted in this challenge"))
  {
    if c !in challenges then Some(NotFound("Challenge not found"))
    else if challenges[c].isActive != ACTIVE then Some(BadRequest("Challenge is not active"))
    else if FindActiveParticipant(parts, next, c, u).None? then Some(Forbidden("You are not a participant of this challenge"))
    else if FindSubmission(subs, next, c, u).Some? then Some(BadRequest("You already submitted in this challenge"))
    else None
  }

  // ---------------------------------------------------------------------------
  // The winning post: most likes, then earliest, then lowest id

  function PostsOf(posts: map<Id, ChallengePost>, next: Id, c: Id): (r: seq<Id>)
    ensures forall i :: i in r <==> i < next && i in posts && posts[i].challengeId == c
  {
    IdsBelow(posts, next, (p: ChallengePost) => p.challengeId == c)
  }

  function PostRank(posts: map<Id, ChallengePost>): nat -> (int, int)
  {
    (i: nat) => if i in posts then (-(posts[i].like as int), posts[i].createdAt) else (0, 0)
  }

  /** `xPost.findFirst` ordered by likes descending, then createdAt ascending. */
  function TopPost(posts: map<Id, ChallengePost>, next: Id, c: Id): (w: Option<Id>)
    ensures w.None? <==> PostsOf(posts, next, c) == []
    ensures w.Some? ==> w.value in posts && w.value < next && posts[w.value].challengeId == c
  {
    var ids := PostsOf(posts, next, c);
    if ids == [] then None else Some(Sorting.BestByRank(ids, PostRank(posts)))
  }

  /** The winning post has the most likes, and is the earliest of those with as many. */
  lemma TopPostWins(posts: map<Id, ChallengePost>, next: Id, c: Id, p: Id)
    requires TopPost(posts, next, c).Some?
    requires p in posts && p < next && posts[p].challengeId == c
    ensures var w := TopPost(posts, next, c).value;
      posts[w].like > posts[p].like
      || (posts[w].like == posts[p].like && posts[w].createdAt <= posts[p].createdAt)
  {
    Sorting.BestByRankWins(PostsOf(posts, next, c), PostRank(posts), p);
  }

  function FinalizeCheck(challenges: map<Id, Challenge>, posts: map<Id, ChallengePost>, results: map<Id, ChallengeResult>,
                         next: Id, c: Id): (e: Option<Outcome<(Id, Id, nat)>>)
    ensures e.Some? ==> e.value.IsFailure()
    ensures e.None? <==> (c in challenges && FindResult(results, next, c).None? && PostsOf(posts, next, c) != [])
    ensures (c in challenges && FindResult(results, next, c).Some?) ==> e == Some(BadRequest("Challenge already finalized"))
    ensures (c in challenges && FindResult(results, next, c).None? && PostsOf(posts, next, c) == [])
      ==> e == Some(BadRequest("No submissions found"))
  {
    if c !in challenges then Some(NotFound("Challenge not found"))
    else if FindResult(results, next, c).Some? then Some(BadRequest("Challenge already finalized"))
    else if PostsOf(posts, next, c) == [] then Some(BadRequest("No submissions found"))
    else None
  }

  // ---------------------------------------------------------------------------
  // Successful writes keep the invariant, and cannot be repeated

  lemma JoinKeepsOk(users: set<Id>, challenges: map<Id, Challenge>, parts: map<Id, Participant>, posts: map<Id, ChallengePost>,
                    subs: map<Id, Submission>, results: map<Id, ChallengeResult>, next: Id, c: Id, u: Id, now: int)
    requires StoreOk(challenges, parts, posts, subs, results, next)
    requires JoinCheck(users, challenges, parts, next, c, u).None?
    ensures StoreOk(challenges, parts[next := Participant(c, u, now, true)], posts, subs, results, next + 1)
  {
    UniqueInsert(parts, next, Participant(c, u, now, true), (p: Participant) => (p.challengeId, p.userId));
  }

  /** A join adds one participant within the cap, and the same user cannot join again. */
  lemma JoinOnce(users: set<Id>, challenges: map<Id, Challenge>, parts: map<Id, Participant>, next: Id, c: Id, u: Id, now: int)
    requires Bounded(parts, next)
    requires JoinCheck(users, challenges, parts, next, c, u).None?
    ensures var parts' := parts[next := Participant(c, u, now, true)];
      ParticipantCount(parts', c) == ParticipantCount(parts, c) + 1 <= challenges[c].participants
      && JoinCheck(users, challenges, parts', next + 1, c, u).Some?
  {
    var parts' := parts[next := Participant(c, u, now, true)];
    CountInsert(parts, next, Participant(c, u, now, true), (p: Participant) => p.challengeId == c);
    FindFirstSees(parts', next + 1, (p: Participant) => p.challengeId == c && p.userId == u, next);
  }

  /** The post a submission creates, with no likes yet. */
  function SubmittedPost(u: Id, pid: Id, dto: SubmitChallengePostDto, now: int): (p: ChallengePost)
    ensures p.like == 0 && p.userId == u && p.challengeId == dto.challengeId && p.participantId == pid
  {
    ChallengePost(u, dto.challengeId, pid, dto.mediaUrl, dto.caption, 0, now)
  }

  lemma SubmitKeepsOk(challenges: map<Id, Challenge>, parts: map<Id, Participant>, posts: map<Id, ChallengePost>,
                      subs: map<Id, Submission>, results: map<Id, ChallengeResult>, next: Id,
                      u: Id, dto: SubmitChallengePostDto, now: int)
    requires StoreOk(challenges, parts, posts, subs, results, next)
    requires SubmitCheck(challenges, parts, subs, next, dto.challengeId, u).None?
    ensures var pid := FindActiveParticipant(parts, next, dto.challengeId, u).value;
      StoreOk(challenges, parts, posts[next := SubmittedPost(u, pid, dto, now)],
              subs[next + 1 := Submission(dto.challengeId, u, next)], results, next + 2)
  {
    UniqueInsert(subs, next + 1, Submission(dto.challengeId, u, next), (s: Submission) => (s.challengeId, s.userId));
  }

  /** After a submission the same user's next one is refused. */
  lemma SubmitOnce(challenges: map<Id, Challenge>, parts: map<Id, Participant>, subs: map<Id, Submission>, next: Id,
                   u: Id, c: Id)
    requires Bounded(parts, next) && Bounded(subs, next)
    requires SubmitCheck(challenges, parts, subs, next, c, u).None?
    ensures SubmitCheck(challenges, parts, subs[next + 1 := Submission(c, u, next)], next + 2, c, u)
      == Some(BadRequest("You already submitted in this challenge"))
  {
    FindFirstBeyond(parts, next, next + 2, (p: Participant) => p.challengeId == c && p.userId == u && p.isActive);
    FindFirstSees(subs[next + 1 := Submission(c, u, next)], next + 2, (s: Submission) => s.challengeId == c && s.userId == u, next + 1);
  }

  lemma FinalizeKeepsOk(challenges: map<Id, Challenge>, parts: map<Id, Participant>, posts: map<Id, ChallengePost>,
                        subs: map<Id, Submission>, results: map<Id, ChallengeResult>, next: Id, c: Id, winner: Id)
    requires StoreOk(challenges, parts, posts, subs, results, next)
    requires c in challenges && FindResult(results, next, c).None?
    ensures StoreOk(challenges, parts, posts, subs, results[next := ChallengeResult(c, winner)], next + 1)
  {
    UniqueInsert(results, next, ChallengeResult(c, winner), (x: ChallengeResult) => x.challengeId);
  }

  /** A challenge is finalized at most once. */
  lemma FinalizeOnce(challenges: map<Id, Challenge>, posts: map<Id, ChallengePost>, results: map<Id, ChallengeResult>,
                     next: Id, c: Id, winner: Id)
    requires FinalizeCheck(challenges, posts, results, next, c).None?
    ensures FinalizeCheck(challenges, posts, results[next := ChallengeResult(c, winner)], next + 1, c)
      == Some(BadRequest("Challenge already finalized"))
  {
    FindFirstSees(results[next := ChallengeResult(c, winner)], next + 1, (x: ChallengeResult) => x.challengeId == c, next);
  }

  // ---------------------------------------------------------------------------

  class ChallengeStore {
    /** The ids of the user table, which these services only read. */
    var users: set<Id>
    var challenges: map<Id, Challenge>
    var participants: map<Id, Participant>
    var posts: map<Id, ChallengePost>
    var submissions: map<Id, Submission>
    var results: map<Id, ChallengeResult>
    var nextId: Id

    ghost predicate Valid()
      reads this
    {
      StoreOk(challenges, participants, posts, submissions, results, nextId)
    }

    constructor (users: set<Id>)
      ensures Valid() && this.users == users
      ensures challenges == map[] && participants == map[] && posts == map[] && submissions == map[] && results == map[]
    {
      this.users := users;
      challenges, participants, posts, submissions, results := map[], map[], map[], map[], map[];
      nextId := 0;
    }

    method CreateChallenge(adminUserId: Id, dto: CreateChallengeDto, initial: Activity) returns (r: Outcome<Id>)
      requires Valid()
      requires dto.participants.None? || dto.participants.value >= 1
      modifies this`challenges, this`nextId
      ensures Valid()
      ensures adminUserId !in users ==> r == Internal("Foreign key constraint failed") && unchanged(this)
      ensures adminUserId in users ==> (r == Ok(old(nextId)) && nextId == old(nextId) + 1
        && challenges == old(challenges)[old(nextId) := NewChallenge(adminUserId, dto, initial)])
    {
      if adminUserId !in users {
        return Internal("Foreign key constraint failed");
      }
      r := Ok(nextId);
      challenges, nextId := challenges[nextId := NewChallenge(adminUserId, dto, initial)], nextId + 1;
    }

    method JoinChallenge(c: Id, u: Id, now: int) returns (r: Outcome<Id>)
      requires Valid()
      modifies this`participants, this`nextId
      ensures Valid()
      ensures old(JoinCheck(users, challenges, participants, nextId, c, u)).Some? ==>
        r == old(JoinCheck(users, challenges, participants, nextId, c, u)).value && unchanged(this)
      ensures old(JoinCheck(users, challenges, participants, nextId, c, u)).None? ==>
        r == Ok(old(nextId)) && nextId == old(nextId) + 1
        && participants == old(participants)[old(nextId) := Participant(c, u, now, true)]
      ensures r.Ok? ==> ParticipantCount(participants, c) <= challenges[c].participants
      ensures r.Ok? ==> JoinCheck(users, challenges, participants, nextId, c, u).Some?
    {
      var err := JoinCheck(users, challenges, participants, nextId, c, u);
      if err.Some? {
        return err.value;
      }
      JoinKeepsOk(users, challenges, participants, posts, submissions, results, nextId, c, u, now);
      JoinOnce(users, challenges, participants, nextId, c, u, now);
      r := Ok(nextId);
      participants, nextId := participants[nextId := Participant(c, u, now, true)], nextId + 1;
    }

    /** submitChallengePost: the post and its submission row; the post's id is returned. */
    method SubmitChallengePost(u: Id, dto: SubmitChallengePostDto, now: int) returns (r: Outcome<Id>)
      requires Valid()
      modifies this`posts, this`submissions, this`nextId
      ensures Valid()
      ensures old(SubmitCheck(challenges, participants, submissions, nextId, dto.challengeId, u)).Some? ==>
        r == old(SubmitCheck(challenges, participants, submissions, nextId, dto.challengeId, u)).value && unchanged(this)
      ensures old(SubmitCheck(challenges, participants, submissions, nextId, dto.challengeId, u)).None? ==>
        var n := old(nextId);
        var pid := old(FindActiveParticipant(participants, nextId, dto.challengeId, u)).value;
        r == Ok(n) && nextId == n + 2
        && posts == old(posts)[n := SubmittedPost(u, pid, dto, now)]
        && submissions == old(submissions)[n + 1 := Submission(dto.challengeId, u, n)]
    {
      var err := SubmitCheck(challenges, participants, submissions, nextId, dto.challengeId, u);
      if err.Some? {
        return err.value;
      }
      var pid := FindActiveParticipant(participants, nextId, dto.challengeId, u).value;
      SubmitKeepsOk(challenges, participants, posts, submissions, results, nextId, u, dto, now);
      r := Ok(nextId);
      posts, submissions, nextId :=
        posts[nextId := SubmittedPost(u, pid, dto, now)],
        submissions[nextId + 1 := Submission(dto.challengeId, u, nextId)],
        nextId + 2;
    }

    /**
     * finalizeChallenge: records the top post's author as the winner;
     * returns the result, the winning post and its likes. Any caller may
     * finalize (the source leaves the admin check to the route).
     */
    method FinalizeChallenge(c: Id) returns (r: Outcome<(Id, Id, nat)>)
      requires Valid()
      modifies this`results, this`nextId
      ensures Valid()
      ensures old(FinalizeCheck(challenges, posts, results, nextId, c)).Some? ==>
        r == old(FinalizeCheck(challenges, posts, results, nextId, c)).value && unchanged(this)
      ensures old(FinalizeCheck(challenges, posts, results, nextId, c)).None? ==>
        var w := old(TopPost(posts, nextId, c)).value;
        r == Ok((old(nextId), w, posts[w].like)) && nextId == old(nextId) + 1
        && results == old(results)[old(nextId) := ChallengeResult(c, posts[w].userId)]
      ensures r.Ok? ==> FinalizeCheck(challenges, posts, results, nextId, c).Some?
    {
      var err := FinalizeCheck(challenges, posts, results, nextId, c);
      if err.Some? {
        return err.value;
      }
      var w := TopPost(posts, nextId, c).value;
      FinalizeOnce(challenges, posts, results, nextId, c, posts[w].userId);
      r := Ok((nextId, w, posts[w].like));
      RecordResult(c, posts[w].userId);
    }

    /** The `challengeResult` row of a finalization. */
    method RecordResult(c: Id, winner: Id)
      requires Valid() && c in challenges && FindResult(results, nextId, c).None?
      modifies this`results, this`nextId
      ensures Valid()
      ensures nextId == old(nextId) + 1 && results == old(results)[old(nextId) := ChallengeResult(c, winner)]
    {
      FinalizeKeepsOk(challenges, participants, posts, submissions, results, nextId, c, winner);
      results, nextId := results[nextId := ChallengeResult(c, winner)], nextId + 1;
    }
  }
}

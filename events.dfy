/**
 * Events: users join and leave approved events; each event keeps a
 * `joinedCount` that the service moves by one on every join and leave.
 */
module Events {

  import opened Outcomes
  import opened Tables

  datatype EventStatus = PENDING | APPROVED | OtherStatus(name: string)

  datatype Event = Event(
    ownerId: Id,
    title: string,
    eventStatus: EventStatus,
    maxParticipants: int,
    joinedCount: int,
    startDate: Option<int>,
    endDate: Option<int>)

  datatype EventParticipant = EventParticipant(eventId: Id, userId: Id)

  datatype CreateEventDto = CreateEventDto(title: string, maxParticipants: int, startDate: Option<int>, endDate: Option<int>)

  /** The fields an update may carry; an absent field is left alone, a present one (even an empty string) is written. */
  datatype UpdateEventDto = UpdateEventDto(
    title: Option<string>,
    maxParticipants: Option<int>,
    startDate: Option<int>,
    endDate: Option<int>)

  /** The tables the event service touches. */
  datatype Db = Db(users: set<Id>, events: map<Id, Event>, participants: map<Id, EventParticipant>, nextId: Id)

  /** `joinedCount` of every event is the number of its participant rows. */
  ghost predicate CountsOk(events: map<Id, Event>, participants: map<Id, EventParticipant>)
  {
    forall e :: e in events ==> events[e].joinedCount == Count(participants, (p: EventParticipant) => p.eventId == e)
  }

  ghost predicate DbOk(db: Db)
  {
    Bounded(db.events, db.nextId) && Bounded(db.participants, db.nextId)
    && (forall i :: i in db.participants ==> db.participants[i].eventId in db.events && db.participants[i].userId in db.users)
    && UniqueKey(db.participants, (p: EventParticipant) => (p.eventId, p.userId))
    && CountsOk(db.events, db.participants)
  }

  /** `eventParticipant.findUnique({ eventId_userId })`. */
  function FindJoin(db: Db, e: Id, u: Id): (r: Option<Id>)
    ensures r.Some? ==> r.value in db.participants && db.participants[r.value] == EventParticipant(e, u)
    ensures r.None? ==> forall i :: i in db.participants && i < db.nextId ==> db.participants[i] != EventParticipant(e, u)
  {
    FindFirst(db.participants, db.nextId, (p: EventParticipant) => p == EventParticipant(e, u))
  }

  // ---------------------------------------------------------------------------
  // Queries

  /** getEvents: the APPROVED events. */
  function ApprovedEvents(db: Db): (r: seq<Id>)
    ensures forall i :: i in r <==> i < db.nextId && i in db.events && db.events[i].eventStatus == APPROVED
  {
    IdsBelow(db.events, db.nextId, (ev: Event) => ev.eventStatus == APPROVED)
  }

  /** getParticipants: the participant rows of one event. */
  function Participants(db: Db, e: Id): (r: seq<Id>)
    ensures forall i :: i in r <==> i < db.nextId && i in db.participants && db.participants[i].eventId == e
  {
    IdsBelow(db.participants, db.nextId, (p: EventParticipant) => p.eventId == e)
  }

  /** The participant listing of an event is exactly `joinedCount` long. */
  lemma ParticipantsMatchCount(db: Db, e: Id)
    requires DbOk(db) && e in db.events
    ensures |Participants(db, e)| == db.events[e].joinedCount
  {
    IdsBelowCount(db.participants, db.nextId, (p: EventParticipant) => p.eventId == e);
  }

  // ---------------------------------------------------------------------------
  // Create and update

  /** The row createEvent inserts: the DTO's fields, the caller as owner, no one joined yet. */
  function NewEvent(ownerId: Id, dto: CreateEventDto, initial: EventStatus): (ev: Event)
    ensures ev.ownerId == ownerId && ev.joinedCount == 0 && ev.eventStatus == initial
    ensures ev.maxParticipants == dto.maxParticipants && ev.startDate == dto.startDate && ev.endDate == dto.endDate
  {
    Event(ownerId, dto.title, initial, dto.maxParticipants, 0, dto.startDate, dto.endDate)
  }

  function UpdateCheck(db: Db, userId: Id, e: Id, dto: UpdateEventDto): (err: Option<Outcome<Event>>)
    ensures err.Some? ==> err.value.IsFailure()
    ensures err.None? <==> (e in db.events && db.events[e].ownerId == userId
      && !(dto.startDate.Some? && dto.endDate.Some? && dto.endDate.value <= dto.startDate.value))
    ensures e !in db.events ==> err == Some(NotFound("Event not found"))
    ensures (e in db.events && db.events[e].ownerId != userId)
      ==> err == Some(Forbidden("You are not allowed to update this event"))
  {
    if e !in db.events then Some(NotFound("Event not found"))
    else if db.events[e].ownerId != userId then Some(Forbidden("You are not allowed to update this event"))
    else if dto.startDate.Some? && dto.endDate.Some? && dto.endDate.value <= dto.startDate.value then
      Some(BadRequest("End date must be after start date"))
    else None
  }

  /** `event.update({ data: dto })`: the supplied fields replace the stored ones. */
  function ApplyUpdate(ev: Event, dto: UpdateEventDto): (ev': Event)
    ensures ev'.ownerId == ev.ownerId && ev'.eventStatus == ev.eventStatus && ev'.joinedCount == ev.joinedCount
    ensures ev'.title == dto.title.GetOr(ev.title)
    ensures ev'.maxParticipants == dto.maxParticipants.GetOr(ev.maxParticipants)
    ensures ev'.startDate == (if dto.startDate.Some? then dto.startDate else ev.startDate)
    ensures ev'.endDate == (if dto.endDate.Some? then dto.endDate else ev.endDate)
  {
    ev.(title := dto.title.GetOr(ev.title),
        maxParticipants := dto.maxParticipants.GetOr(ev.maxParticipants),
        startDate := if dto.startDate.Some? then dto.startDate else ev.startDate,
        endDate := if dto.endDate.Some? then dto.endDate else ev.endDate)
  }

  /** An update that carries no field leaves the event as it was. */
  lemma EmptyUpdateIsIdentity(ev: Event)
    ensures ApplyUpdate(ev, UpdateEventDto(None, None, None, None)) == ev
  {
  }

  /**
   * The date check looks at the DTO alone: an update that carries only an
   * end date is accepted even when it lands before the stored start date.
   */
  lemma UpdateMayInvertDates(db: Db, userId: Id, e: Id, end: int)
    requires e in db.events && db.events[e].ownerId == userId
    requires db.events[e].startDate.Some? && end <= db.events[e].startDate.value
    ensures var dto := UpdateEventDto(None, None, None, Some(end));
      UpdateCheck(db, userId, e, dto).None?
      && ApplyUpdate(db.events[e], dto).endDate.value <= ApplyUpdate(db.events[e], dto).startDate.value
  {
  }

  // ---------------------------------------------------------------------------
  // Join and leave

  function JoinCheck(db: Db, e: Id, u: Id): (err: Option<Outcome<string>>)
    ensures err.Some? ==> err.value.IsFailure()
    ensures err.None? <==> (e in db.events && db.events[e].eventStatus == APPROVED
      && db.events[e].joinedCount < db.events[e].maxParticipants
      && FindJoin(db, e, u).None? && u in db.users)
    ensures e !in db.events ==> err == Some(NotFound("Event not found"))
    ensures (e in db.events && db.events[e].eventStatus != APPROVED) ==> err == Some(BadRequest("Event is not open"))
    ensures (e in db.events && db.events[e].eventStatus == APPROVED && db.events[e].joinedCount >= db.events[e].maxParticipants)
      ==> err == Some(BadRequest("Event is full"))
  {
    if e !in db.events then Some(NotFound("Event not found"))
    else if db.events[e].eventStatus != APPROVED then Some(BadRequest("Event is not open"))
    else if db.events[e].joinedCount >= db.events[e].maxParticipants then Some(BadRequest("Event is full"))
    else if FindJoin(db, e, u).Some? then Some(BadRequest("Already joined"))
    // the participant row's foreign key on the user
    else if u !in db.users then Some(Internal("Foreign key constraint failed"))
    else None
  }

  function WithCount(db: Db, e: Id, delta: int): Db
    requires e in db.events
  {
    db.(events := db.events[e := db.events[e].(joinedCount := db.events[e].joinedCount + delta)])
  }

  /** The tables after a successful join: one new row, and the count up by one. */
  function Joined(db: Db, e: Id, u: Id): Db
    requires e in db.events
  {
    WithCount(db, e, 1).(participants := db.participants[db.nextId := EventParticipant(e, u)], nextId := db.nextId + 1)
  }

  function LeaveCheck(db: Db, e: Id, u: Id): (err: Option<Outcome<string>>)
    ensures err.Some? <==> FindJoin(db, e, u).None?
    ensures err.Some? ==> err == Some(NotFound("You are not joined"))
  {
    if FindJoin(db, e, u).None? then Some(NotFound("You are not joined")) else None
  }

  /** The tables after a successful leave: the row gone, and the count down by one. */
  function Left(db: Db, e: Id, u: Id): Db
    requires FindJoin(db, e, u).Some? && e in db.events
  {
    WithCount(db, e, -1).(participants := db.participants - {FindJoin(db, e, u).value})
  }

  /** A join keeps every table invariant, `joinedCount` included. */
  lemma JoinKeepsOk(db: Db, e: Id, u: Id)
    requires DbOk(db) && JoinCheck(db, e, u).None?
    ensures DbOk(Joined(db, e, u))
  {
    var v := EventParticipant(e, u);
    var db' := Joined(db, e, u);
    forall f | f in db'.events
      ensures db'.events[f].joinedCount == Count(db'.participants, (p: EventParticipant) => p.eventId == f)
    {
      CountInsert(db.participants, db.nextId, v, (p: EventParticipant) => p.eventId == f);
    }
    UniqueInsert(db.participants, db.nextId, v, (p: EventParticipant) => (p.eventId, p.userId));
  }

  /** A leave keeps every table invariant, `joinedCount` included. */
  lemma LeaveKeepsOk(db: Db, e: Id, u: Id)
    requires DbOk(db) && LeaveCheck(db, e, u).None?
    ensures e in db.events && DbOk(Left(db, e, u))
  {
    var k := FindJoin(db, e, u).value;
    var db' := Left(db, e, u);
    forall f | f in db'.events
      ensures db'.events[f].joinedCount == Count(db'.participants, (p: EventParticipant) => p.eventId == f)
    {
      CountRemove(db.participants, k, (p: EventParticipant) => p.eventId == f);
    }
  }

  /** After a join the same user's next join is refused, and a leave is allowed. */
  lemma JoinOnce(db: Db, e: Id, u: Id)
    requires DbOk(db) && JoinCheck(db, e, u).None?
    ensures JoinCheck(Joined(db, e, u), e, u).Some?
    ensures LeaveCheck(Joined(db, e, u), e, u).None?
  {
    var db' := Joined(db, e, u);
    FindFirstSees(db'.participants, db'.nextId, (p: EventParticipant) => p == EventParticipant(e, u), db.nextId);
  }

  /** After a leave the user is no longer joined, since the pair was unique. */
  lemma LeaveOnce(db: Db, e: Id, u: Id)
    requires DbOk(db) && LeaveCheck(db, e, u).None?
    ensures e in db.events && LeaveCheck(Left(db, e, u), e, u).Some?
  {
    var k := FindJoin(db, e, u).value;
    var db' := Left(db, e, u);
    forall i | i in db'.participants ensures db'.participants[i] != EventParticipant(e, u) {
      assert i != k && i in db.participants;
    }
  }

  /** Joining and then leaving gives back exactly the tables one started from. */
  lemma JoinThenLeave(db: Db, e: Id, u: Id)
    requires DbOk(db) && JoinCheck(db, e, u).None?
    ensures LeaveCheck(Joined(db, e, u), e, u).None?
    ensures Left(Joined(db, e, u), e, u) == db.(nextId := db.nextId + 1)
  {
    JoinOnce(db, e, u);
    var db' := Joined(db, e, u);
    var k := FindJoin(db', e, u).value;
    assert k == db.nextId;
    assert db'.participants - {k} == db.participants;
    assert db'.events[e := db'.events[e].(joinedCount := db'.events[e].joinedCount - 1)] == db.events;
  }

  // ---------------------------------------------------------------------------

  class EventStore {
    var users: set<Id>
    var events: map<Id, Event>
    var participants: map<Id, EventParticipant>
    var nextId: Id

    function State(): Db
      reads this
    {
      Db(users, events, participants, nextId)
    }

    ghost predicate Valid()
      reads this
    {
      DbOk(State())
    }

    constructor (users: set<Id>)
      ensures Valid() && State() == Db(users, map[], map[], 0)
    {
      this.users, events, participants, nextId := users, map[], map[], 0;
    }

    method CreateEvent(userId: Id, dto: CreateEventDto, initial: EventStatus) returns (r: Outcome<Id>)
      requires Valid()
      modifies this`events, this`nextId
      ensures Valid()
      ensures userId !in users ==> r == Internal("Foreign key constraint failed") && unchanged(this)
      ensures userId in users ==> (r == Ok(old(nextId)) && nextId == old(nextId) + 1
        && events == old(events)[old(nextId) := NewEvent(userId, dto, initial)])
    {
      if userId !in users {
        return Internal("Foreign key constraint failed");
      }
      r := Ok(nextId);
      events, nextId := events[nextId := NewEvent(userId, dto, initial)], nextId + 1;
    }

    method UpdateEvent(userId: Id, e: Id, dto: UpdateEventDto) returns (r: Outcome<Event>)
      requires Valid()
      modifies this`events
      ensures Valid()
      ensures old(UpdateCheck(State(), userId, e, dto)).Some? ==>
        r == old(UpdateCheck(State(), userId, e, dto)).value && unchanged(this)
      ensures old(UpdateCheck(State(), userId, e, dto)).None? ==>
        r == Ok(ApplyUpdate(old(events)[e], dto)) && events == old(events)[e := ApplyUpdate(old(events)[e], dto)]
    {
      var err := UpdateCheck(State(), userId, e, dto);
      if err.Some? {
        return err.value;
      }
      var ev := ApplyUpdate(events[e], dto);
      var db := State();
      forall f | f in db.events
        ensures db.events[e := ev][f].joinedCount == Count(db.participants, (p: EventParticipant) => p.eventId == f)
      {
      }
      r := Ok(ev);
      events := events[e := ev];
    }

    method JoinEvent(userId: Id, e: Id) returns (r: Outcome<string>)
      requires Valid()
      modifies this`events, this`participants, this`nextId
      ensures Valid()
      ensures old(JoinCheck(State(), e, userId)).Some? ==>
        r == old(JoinCheck(State(), e, userId)).value && unchanged(this)
      ensures old(JoinCheck(State(), e, userId)).None? ==>
        r == Ok("Joined event successfully") && State() == Joined(old(State()), e, userId)
    {
      var err := JoinCheck(State(), e, userId);
      if err.Some? {
        return err.value;
      }
      JoinKeepsOk(State(), e, userId);
      var db := Joined(State(), e, userId);
      r := Ok("Joined event successfully");
      events, participants, nextId := db.events, db.participants, db.nextId;
    }

    method LeaveEvent(userId: Id, e: Id) returns (r: Outcome<string>)
      requires Valid()
      modifies this`events, this`participants
      ensures Valid()
      ensures old(LeaveCheck(State(), e, userId)).Some? ==>
        r == NotFound("You are not joined") && unchanged(this)
      ensures old(LeaveCheck(State(), e, userId)).None? ==>
        r == Ok("Left event successfully") && e in old(events) && State() == Left(old(State()), e, userId)
    {
      var err := LeaveCheck(State(), e, userId);
      if err.Some? {
        return err.value;
      }
      LeaveKeepsOk(State(), e, userId);
      var db := Left(State(), e, userId);
      r := Ok("Left event successfully");
      events, participants := db.events, db.participants;
    }
  }
}

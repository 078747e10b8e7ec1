/**
 * Legal notices an admin files against a car on behalf of a profile, and
 * the listings that read them back, newest first.
 */
module LegalNotices {

  import opened Outcomes
  import opened Tables
  import Profiles
  import Listing
  import opened Property

  /** `CreateLegalNoticeDto`, with `date` already parsed to an instant. */
  datatype NoticeDto = NoticeDto(
    profileId: Option<Id>,
    carId: Id,
    location: string,
    date: int,
    description: Option<string>,
    media: Option<string>,
    witnessName: Option<string>,
    witnessEmail: Option<string>,
    witnessPhone: Option<string>)

  /** create's guards in order: a profile id, the profile, the car, then the car's owner. */
  function CreateCheck(db: Db, pdb: Profiles.ProfileDb, dto: NoticeDto): (err: Option<Outcome<Notice>>)
    ensures err.None? <==> (dto.profileId.Some? && dto.profileId.value in pdb.profiles
      && dto.carId in db.cars && db.cars[dto.carId].profileId == dto.profileId.value)
    ensures dto.profileId.None? ==> err == Some(Forbidden("profileId is required"))
    ensures dto.profileId.Some? && dto.profileId.value !in pdb.profiles ==> err == Some(NotFound("Profile not found"))
    ensures dto.profileId.Some? && dto.profileId.value in pdb.profiles && dto.carId !in db.cars ==> err == Some(NotFound("Car not found"))
    ensures dto.profileId.Some? && dto.carId in db.cars && err.Some? && err.value.Forbidden? ==>
      err == Some(Forbidden("Car does not belong to the provided profile"))
  {
    if dto.profileId.None? then Some(Forbidden("profileId is required"))
    else if dto.profileId.value !in pdb.profiles then Some(NotFound("Profile not found"))
    else if dto.carId !in db.cars then Some(NotFound("Car not found"))
    else if db.cars[dto.carId].profileId != dto.profileId.value then Some(Forbidden("Car does not belong to the provided profile"))
    else None
  }

  function NoticeOf(dto: NoticeDto, now: int): (n: Notice)
    requires dto.profileId.Some?
    ensures n.profileId == dto.profileId.value && n.carId == dto.carId && n.createdAt == now
  {
    Notice(dto.profileId.value, dto.carId, dto.location, dto.date, dto.description, dto.media,
           dto.witnessName, dto.witnessEmail, dto.witnessPhone, now)
  }

  /** The one row create inserts. */
  function Filed(db: Db, dto: NoticeDto, now: int): Db
    requires dto.profileId.Some?
  {
    db.(notices := db.notices[db.nextId := NoticeOf(dto, now)], nextId := db.nextId + 1)
  }

  lemma FiledKeepsOk(db: Db, dto: NoticeDto, now: int)
    requires DbOk(db) && dto.profileId.Some?
    ensures DbOk(Filed(db, dto, now))
  {
  }

  function NoticeCreatedAt(n: Notice): int { n.createdAt }

  function OfProfile(profileId: Option<Id>): Notice -> bool
  {
    (n: Notice) => profileId.None? || n.profileId == profileId.value
  }

  function OfCar(c: Id): Notice -> bool { (n: Notice) => n.carId == c }

  /** list: every notice, or the given profile's, newest first. */
  function List(db: Db, profileId: Option<Id>): (r: seq<Id>)
    ensures forall k :: k in r <==> k in db.notices && k < db.nextId && (profileId.None? || db.notices[k].profileId == profileId.value)
    ensures forall a, b :: 0 <= a < b < |r| ==> db.notices[r[a]].createdAt >= db.notices[r[b]].createdAt
  {
    Listing.ByDate(db.notices, db.nextId, OfProfile(profileId), NoticeCreatedAt, true)
  }

  /** getByCar: the car's notices, newest first; a missing car is NotFound. */
  function GetByCar(db: Db, c: Id): (r: Outcome<seq<Id>>)
    ensures r.Ok? <==> c in db.cars
    ensures !r.Ok? ==> r == NotFound("Car not found")
    ensures r.Ok? ==> forall k :: k in r.value <==> k in db.notices && k < db.nextId && db.notices[k].carId == c
    ensures r.Ok? ==> forall a, b :: 0 <= a < b < |r.value| ==> db.notices[r.value[a]].createdAt >= db.notices[r.value[b]].createdAt
  {
    if c !in db.cars then NotFound("Car not found")
    else Ok(Listing.ByDate(db.notices, db.nextId, OfCar(c), NoticeCreatedAt, true))
  }

  /** getOne. */
  function GetOne(db: Db, k: Id): (r: Outcome<Notice>)
    ensures r.Ok? <==> k in db.notices
    ensures r.Ok? ==> r.value == db.notices[k]
    ensures !r.Ok? ==> r == NotFound("Legal notice not found")
  {
    if k in db.notices then Ok(db.notices[k]) else NotFound("Legal notice not found")
  }

  /** A filed notice is read back by id, under its profile and under its car. */
  lemma FiledIsFound(db: Db, pdb: Profiles.ProfileDb, dto: NoticeDto, now: int)
    requires CreateCheck(db, pdb, dto).None?
    ensures var db' := Filed(db, dto, now);
      GetOne(db', db.nextId) == Ok(NoticeOf(dto, now))
      && db.nextId in List(db', dto.profileId)
      && GetByCar(db', dto.carId).Ok? && db.nextId in GetByCar(db', dto.carId).value
  {
  }

  /** Create adds exactly one notice for the car and no other. */
  lemma FiledOnce(db: Db, dto: NoticeDto, now: int, c: Id)
    requires DbOk(db) && dto.profileId.Some?
    ensures Count(Filed(db, dto, now).notices, OfCar(c)) == Count(db.notices, OfCar(c)) + (if c == dto.carId then 1 else 0)
  {
    CountInsert(db.notices, db.nextId, NoticeOf(dto, now), OfCar(c));
  }
}

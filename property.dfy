/**
 * Garages, cars, each car's advanced-data record and its seven section
 * tables, guarded by who owns the profile they hang from. The profile table
 * is read here and never written, so it is a parameter of every operation.
 */
module Property {

  import opened Outcomes
  import opened Tables
  import Profiles
  import Listing
  import Sorting

  /** The columns a DTO supplies, by name; an update overwrites exactly these. */
  type Columns = map<string, string>

  datatype Garage = Garage(profileId: Id, garageName: string, description: Option<string>, location: Option<string>)

  datatype Car = Car(profileId: Id, garageId: Id, columns: Columns)

  /** The seven tables keyed by `advancedCarDataId`. */
  datatype Section = EnginePower | Drivetrain | ChassisBrakes | TuningAero | InteriorSafety | UsageNotes | WheelsTires

  /** A legal notice an admin files against a car. */
  datatype Notice = Notice(
    profileId: Id,
    carId: Id,
    location: string,
    date: int,
    description: Option<string>,
    media: Option<string>,
    witnessName: Option<string>,
    witnessEmail: Option<string>,
    witnessPhone: Option<string>,
    createdAt: int)

  /**
   * `advanced` maps each advanced-data record to its car; a section row is
   * keyed by its table and its record, as `advancedCarDataId` is unique in
   * each section table.
   */
  datatype Db = Db(
    garages: map<Id, Garage>,
    cars: map<Id, Car>,
    advanced: map<Id, Id>,
    sections: map<(Section, Id), Columns>,
    notices: map<Id, Notice>,
    nextId: Id)

  /** Ids are below the counter, advanced records point at allocated cars, section rows at advanced records. */
  ghost predicate DbOk(db: Db)
  {
    && Bounded(db.garages, db.nextId) && Bounded(db.cars, db.nextId) && Bounded(db.notices, db.nextId)
    && Bounded(db.advanced, db.nextId)
    && (forall a :: a in db.advanced ==> db.advanced[a] < db.nextId)
    && (forall key :: key in db.sections ==> key.1 in db.advanced)
  }

  // ---------------------------------------------------------------------------
  // Whose profile

  /** `profile.findUnique({ where: { userId } })`: the user's profile, the lowest id if several. */
  function UserProfile(pdb: Profiles.ProfileDb, u: Id): (r: Option<Id>)
    ensures r.Some? ==> r.value in pdb.profiles && pdb.profiles[r.value].userId == u
    ensures r.None? ==> forall k :: k in pdb.profiles && k < pdb.nextId ==> pdb.profiles[k].userId != u
  {
    FindFirst(pdb.profiles, pdb.nextId, Profiles.OwnedBy(u))
  }

  /** `x.profile.userId === userId` for the profile a row hangs from. */
  predicate OwnedByUser(pdb: Profiles.ProfileDb, profileId: Id, u: Id)
  {
    profileId in pdb.profiles && pdb.profiles[profileId].userId == u
  }

  // ---------------------------------------------------------------------------
  // Garages

  datatype GarageDto = GarageDto(garageName: string, description: Option<string>, location: Option<string>)

  /** The fields an update supplies; the others keep their value. */
  datatype GarageUpdate = GarageUpdate(garageName: Option<string>, description: Option<string>, location: Option<string>)

  function SomeOr<T>(field: Option<T>, current: Option<T>): Option<T>
  {
    if field.Some? then field else current
  }

  /** createGarage: the garage hangs from the caller's profile. */
  function GarageCreated(db: Db, profileId: Id, dto: GarageDto): (db': Db)
    ensures db'.garages == db.garages[db.nextId := Garage(profileId, dto.garageName, dto.description, dto.location)]
    ensures db'.nextId == db.nextId + 1
    ensures db'.cars == db.cars && db'.advanced == db.advanced && db'.sections == db.sections && db'.notices == db.notices
  {
    db.(garages := db.garages[db.nextId := Garage(profileId, dto.garageName, dto.description, dto.location)],
        nextId := db.nextId + 1)
  }

  /** createGarage's guard. */
  function CreateGarageCheck(pdb: Profiles.ProfileDb, u: Id): (err: Option<Outcome<Id>>)
    ensures err.None? <==> UserProfile(pdb, u).Some?
    ensures err.Some? ==> err == Some(NotFound("Profile not found"))
  {
    if UserProfile(pdb, u).None? then Some(NotFound("Profile not found")) else None
  }

  function AtProfile(profileId: Id): Garage -> bool { (g: Garage) => g.profileId == profileId }

  /** `orderBy: { id: 'desc' }` over ids listed in ascending order. */
  function Reversed(s: seq<Id>): (r: seq<Id>)
    ensures |r| == |s| && forall i :: 0 <= i < |s| ==> r[i] == s[|s| - 1 - i]
    ensures forall x :: x in r <==> x in s
  {
    var r := seq(|s|, i requires 0 <= i < |s| => s[|s| - 1 - i]);
    forall x | x in s ensures x in r {
      var i :| 0 <= i < |s| && s[i] == x;
      assert r[|s| - 1 - i] == x;
    }
    r
  }

  /** Reversing twice gives the ascending ids back. */
  lemma ReversedTwice(s: seq<Id>)
    ensures Reversed(Reversed(s)) == s
  {
    var r := Reversed(Reversed(s));
    assert forall i :: 0 <= i < |s| ==> r[i] == Reversed(s)[|s| - 1 - i];
  }

  /** Reversing a strictly increasing listing makes it strictly decreasing. */
  lemma ReversedDescending(s: seq<Id>)
    requires forall a, b :: 0 <= a < b < |s| ==> s[a] < s[b]
    ensures var r := Reversed(s); forall a, b :: 0 <= a < b < |r| ==> r[a] > r[b]
  {
    var r := Reversed(s);
    forall a, b | 0 <= a < b < |r| ensures r[a] > r[b] {
      assert r[a] == s[|s| - 1 - a] && r[b] == s[|s| - 1 - b];
    }
  }

  /** getUserGarages: the caller's profile's garages, highest id first. */
  function UserGarages(db: Db, pdb: Profiles.ProfileDb, u: Id): (r: Outcome<seq<Id>>)
    ensures !r.Ok? <==> UserProfile(pdb, u).None?
    ensures !r.Ok? ==> r == NotFound("Profile not found")
    ensures r.Ok? ==> forall g :: g in r.value <==> g in db.garages && g < db.nextId && db.garages[g].profileId == UserProfile(pdb, u).value
    ensures r.Ok? ==> forall a, b :: 0 <= a < b < |r.value| ==> r.value[a] > r.value[b]
  {
    var p := UserProfile(pdb, u);
    if p.None? then NotFound("Profile not found")
    else
      var ids := IdsBelow(db.garages, db.nextId, AtProfile(p.value));
      ReversedDescending(ids);
      Ok(Reversed(ids))
  }

  function InGarage(g: Id): Car -> bool { (c: Car) => c.garageId == g }

  /** getGarage: the garage with its cars. */
  function GetGarage(db: Db, g: Id): (r: Outcome<(Garage, seq<Id>)>)
    ensures r.Ok? <==> g in db.garages
    ensures !r.Ok? ==> r == NotFound("Garage not found")
    ensures r.Ok? ==> r.value.0 == db.garages[g]
    ensures r.Ok? ==> forall c :: c in r.value.1 <==> c in db.cars && c < db.nextId && db.cars[c].garageId == g
  {
    if g !in db.garages then NotFound("Garage not found")
    else Ok((db.garages[g], IdsBelow(db.cars, db.nextId, InGarage(g))))
  }

  /** The guard of updateGarage and deleteGarage. */
  function GarageOwnerCheck(db: Db, pdb: Profiles.ProfileDb, u: Id, g: Id): (err: Option<Outcome<Garage>>)
    ensures err.None? <==> g in db.garages && OwnedByUser(pdb, db.garages[g].profileId, u)
    ensures g !in db.garages ==> err == Some(NotFound("Garage not found"))
    ensures g in db.garages && err.Some? ==> err == Some(Forbidden("You are not the owner of this garage"))
  {
    if g !in db.garages then Some(NotFound("Garage not found"))
    else if !OwnedByUser(pdb, db.garages[g].profileId, u) then Some(Forbidden("You are not the owner of this garage"))
    else None
  }

  function EditedGarage(x: Garage, dto: GarageUpdate): (y: Garage)
    ensures y.profileId == x.profileId
    ensures dto.garageName.Some? ==> y.garageName == dto.garageName.value
    ensures dto.garageName.None? ==> y.garageName == x.garageName
    ensures y.description == (if dto.description.Some? then dto.description else x.description)
    ensures y.location == (if dto.location.Some? then dto.location else x.location)
  {
    x.(garageName := if dto.garageName.Some? then dto.garageName.value else x.garageName,
       description := SomeOr(dto.description, x.description),
       location := SomeOr(dto.location, x.location))
  }

  function GarageUpdated(db: Db, g: Id, dto: GarageUpdate): Db
    requires g in db.garages
  {
    db.(garages := db.garages[g := EditedGarage(db.garages[g], dto)])
  }

  function GarageDeleted(db: Db, g: Id): Db
  {
    db.(garages := db.garages - {g})
  }

  /** An update keeps the garage with its owner, and repeating it changes nothing more. */
  lemma GarageUpdateStable(db: Db, pdb: Profiles.ProfileDb, u: Id, g: Id, dto: GarageUpdate)
    requires GarageOwnerCheck(db, pdb, u, g).None?
    ensures var db' := GarageUpdated(db, g, dto);
      GarageOwnerCheck(db', pdb, u, g).None? && GarageUpdated(db', g, dto) == db'
  {
    var x := db.garages[g];
    var y := EditedGarage(x, dto);
    assert EditedGarage(y, dto) == y;
    assert db.garages[g := y][g := y] == db.garages[g := y];
  }

  /** After a delete the garage is gone for every reader and writer; other garages stay. */
  lemma GarageDeleteFinal(db: Db, pdb: Profiles.ProfileDb, u: Id, v: Id, g: Id)
    ensures var db' := GarageDeleted(db, g);
      GetGarage(db', g) == NotFound("Garage not found")
      && GarageOwnerCheck(db', pdb, v, g) == Some(NotFound("Garage not found"))
      && forall h :: h != g && h in db.garages ==> h in db'.garages && db'.garages[h] == db.garages[h]
  {
  }

  lemma GarageKeepsOk(db: Db, profileId: Id, dto: GarageDto, g: Id, edit: GarageUpdate)
    requires DbOk(db)
    ensures DbOk(GarageCreated(db, profileId, dto)) && DbOk(GarageDeleted(db, g))
    ensures g in db.garages ==> DbOk(GarageUpdated(db, g, edit))
  {
  }

  // ---------------------------------------------------------------------------
  // Cars

  datatype CarDto = CarDto(garageId: Id, columns: Columns)

  /** validateOwnership. */
  function OwnershipCheck(db: Db, pdb: Profiles.ProfileDb, u: Id, c: Id): (err: Option<Outcome<Car>>)
    ensures err.None? <==> c in db.cars && OwnedByUser(pdb, db.cars[c].profileId, u)
    ensures c !in db.cars ==> err == Some(NotFound("Car not found"))
    ensures c in db.cars && err.Some? ==> err == Some(Forbidden("Not your car"))
  {
    if c !in db.cars then Some(NotFound("Car not found"))
    else if !OwnedByUser(pdb, db.cars[c].profileId, u) then Some(Forbidden("Not your car"))
    else None
  }

  /** create's guards: the caller's profile, then the garage among that profile's garages. */
  function CreateCarCheck(db: Db, pdb: Profiles.ProfileDb, u: Id, dto: CarDto): (err: Option<Outcome<Id>>)
    ensures err.None? <==> (UserProfile(pdb, u).Some? && dto.garageId in db.garages
      && db.garages[dto.garageId].profileId == UserProfile(pdb, u).value)
    ensures UserProfile(pdb, u).None? ==> err == Some(NotFound("Profile not found"))
    ensures UserProfile(pdb, u).Some? && err.Some? ==> err == Some(Forbidden("Not your garage"))
  {
    var p := UserProfile(pdb, u);
    if p.None? then Some(NotFound("Profile not found"))
    else if dto.garageId !in db.garages || db.garages[dto.garageId].profileId != p.value then Some(Forbidden("Not your garage"))
    else None
  }

  /** The new car, and one empty advanced-data record for it, under the next two ids. */
  function CarCreated(db: Db, profileId: Id, dto: CarDto): Db
  {
    db.(cars := db.cars[db.nextId := Car(profileId, dto.garageId, dto.columns)],
        advanced := db.advanced[db.nextId + 1 := db.nextId],
        nextId := db.nextId + 2)
  }

  function CarUpdated(db: Db, c: Id, columns: Columns): Db
    requires c in db.cars
  {
    db.(cars := db.cars[c := db.cars[c].(columns := db.cars[c].columns + columns)])
  }

  function CarDeleted(db: Db, c: Id): Db
  {
    db.(cars := db.cars - {c})
  }

  predicate IsFor(c: Id, car: Id) { car == c }

  function ForCar(c: Id): Id -> bool { (car: Id) => IsFor(c, car) }

  /** `car.advancedCarDatas`: the car's advanced-data records. */
  function AdvancedOf(db: Db, c: Id): (r: set<Id>)
    ensures forall a :: a in r <==> a in db.advanced && db.advanced[a] == c
  {
    Matching(db.advanced, ForCar(c))
  }

  /** A new car has exactly one advanced-data record, and no section row yet. */
  lemma CreateGivesOneAdvanced(db: Db, profileId: Id, dto: CarDto)
    requires DbOk(db)
    ensures var db' := CarCreated(db, profileId, dto);
      AdvancedOf(db', db.nextId) == {db.nextId + 1}
      && SectionsOf(db', db.nextId + 1) == map[]
  {
    var db' := CarCreated(db, profileId, dto);
    forall a | a in AdvancedOf(db', db.nextId)
      ensures a == db.nextId + 1
    {
      assert a == db.nextId + 1 || a in db.advanced;
    }
  }

  /** An owner's update merges the supplied columns, and keeps the car theirs. */
  lemma CarUpdateMerges(db: Db, pdb: Profiles.ProfileDb, u: Id, c: Id, columns: Columns)
    requires OwnershipCheck(db, pdb, u, c).None?
    ensures var db' := CarUpdated(db, c, columns);
      OwnershipCheck(db', pdb, u, c).None?
      && (forall k :: k in columns ==> k in db'.cars[c].columns && db'.cars[c].columns[k] == columns[k])
      && (forall k :: k in db.cars[c].columns && k !in columns ==> db'.cars[c].columns[k] == db.cars[c].columns[k])
  {
  }

  lemma CarKeepsOk(db: Db, profileId: Id, dto: CarDto, c: Id, columns: Columns)
    requires DbOk(db)
    ensures DbOk(CarCreated(db, profileId, dto)) && DbOk(CarDeleted(db, c))
    ensures c in db.cars ==> DbOk(CarUpdated(db, c, columns))
  {
  }

  /** A car `get` reads: the row with its advanced-data records; `None` for a missing car. */
  function GetCar(db: Db, c: Id): (r: Option<(Car, seq<Id>)>)
    ensures r.Some? <==> c in db.cars
    ensures r.Some? ==> r.value.0 == db.cars[c] && forall a :: a in r.value.1 <==> a < db.nextId && a in AdvancedOf(db, c)
  {
    if c in db.cars then Some((db.cars[c], IdsBelow(db.advanced, db.nextId, ForCar(c)))) else None
  }

  /** The section rows of one advanced-data record, by table. */
  function SectionsOf(db: Db, a: Id): (r: map<Section, Columns>)
    ensures forall s :: s in r <==> (s, a) in db.sections
    ensures forall s :: s in r ==> r[s] == db.sections[(s, a)]
  {
    map s | (s, a) in db.sections :: db.sections[(s, a)]
  }

  // ---------------------------------------------------------------------------
  // Section upserts

  /** `car.advancedCarDatas[0]`: the car's first advanced-data record. */
  function FirstAdvanced(db: Db, c: Id): (r: Option<Id>)
    ensures r.Some? ==> r.value in AdvancedOf(db, c)
    ensures r.None? ==> forall a :: a in db.advanced && a < db.nextId ==> db.advanced[a] != c
  {
    FindFirst(db.advanced, db.nextId, ForCar(c))
  }

  /**
   * The guard of the seven section updates: ownership, then the record to
   * key the section by; a car without one fails reading `advanced.id`.
   */
  function SectionCheck(db: Db, pdb: Profiles.ProfileDb, u: Id, c: Id): (err: Option<Outcome<Columns>>)
    ensures err.None? <==> OwnershipCheck(db, pdb, u, c).None? && FirstAdvanced(db, c).Some?
    ensures OwnershipCheck(db, pdb, u, c).Some? ==> err == Some(OwnershipCheck(db, pdb, u, c).value.PropagateFailure())
    ensures OwnershipCheck(db, pdb, u, c).None? && err.Some? ==> err == Some(Internal("Cannot read properties of undefined (reading 'id')"))
  {
    var e := OwnershipCheck(db, pdb, u, c);
    if e.Some? then Some(e.value.PropagateFailure())
    else if FirstAdvanced(db, c).None? then Some(Internal("Cannot read properties of undefined (reading 'id')"))
    else None
  }

  /** `upsert({ where: { advancedCarDataId }, update: dto, create: { ...dto, advancedCarDataId } })`. */
  function Upserted(db: Db, s: Section, a: Id, dto: Columns): Db
  {
    var row := if (s, a) in db.sections then db.sections[(s, a)] + dto else dto;
    db.(sections := db.sections[(s, a) := row])
  }

  /** The row the upsert writes: the supplied columns over the existing row, or the supplied columns alone. */
  lemma UpsertRow(db: Db, s: Section, a: Id, dto: Columns)
    ensures var row := Upserted(db, s, a, dto).sections[(s, a)];
      (forall k :: k in dto ==> k in row && row[k] == dto[k])
      && ((s, a) !in db.sections ==> row == dto)
      && ((s, a) in db.sections ==> forall k :: k in db.sections[(s, a)] && k !in dto ==> row[k] == db.sections[(s, a)][k])
  {
  }

  /** Repeating an upsert changes nothing: the section is never duplicated. */
  lemma UpsertIdempotent(db: Db, s: Section, a: Id, dto: Columns)
    ensures Upserted(Upserted(db, s, a, dto), s, a, dto) == Upserted(db, s, a, dto)
  {
    var row := Upserted(db, s, a, dto).sections[(s, a)];
    assert row + dto == row;
  }

  /** An upsert touches only its own table's row for its record; cars, garages and notices stay. */
  lemma UpsertOnlyOwnRow(db: Db, s: Section, a: Id, dto: Columns, t: Section, b: Id)
    requires (t, b) != (s, a)
    ensures var db' := Upserted(db, s, a, dto);
      ((t, b) in db'.sections <==> (t, b) in db.sections)
      && ((t, b) in db.sections ==> db'.sections[(t, b)] == db.sections[(t, b)])
      && db'.cars == db.cars && db'.garages == db.garages && db'.advanced == db.advanced && db'.notices == db.notices
  {
  }

  lemma UpsertKeepsOk(db: Db, s: Section, a: Id, dto: Columns)
    requires DbOk(db) && a in db.advanced
    ensures DbOk(Upserted(db, s, a, dto))
  {
  }

  /** The creator of a car can fill each section at once, and the section then holds what they supplied. */
  lemma CreateThenSection(db: Db, pdb: Profiles.ProfileDb, u: Id, dto: CarDto, s: Section, cols: Columns)
    requires DbOk(db) && CreateCarCheck(db, pdb, u, dto).None?
    ensures var db' := CarCreated(db, UserProfile(pdb, u).value, dto);
      SectionCheck(db', pdb, u, db.nextId).None?
      && FirstAdvanced(db', db.nextId) == Some(db.nextId + 1)
      && Upserted(db', s, db.nextId + 1, cols).sections[(s, db.nextId + 1)] == cols
  {
    var db' := CarCreated(db, UserProfile(pdb, u).value, dto);
    CreateGivesOneAdvanced(db, UserProfile(pdb, u).value, dto);
    assert db.nextId + 1 in AdvancedOf(db', db.nextId);
  }
}

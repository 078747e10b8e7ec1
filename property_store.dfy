/**
 * The garage, car and legal-notice services as one mutable store. Every
 * method runs its guard first and leaves the store unchanged when it fails.
 */
module PropertyStore {

  import opened Outcomes
  import opened Tables
  import Profiles
  import opened Property
  import LegalNotices

  class Store {
    var garages: map<Id, Garage>
    var cars: map<Id, Car>
    var advanced: map<Id, Id>
    var sections: map<(Section, Id), Columns>
    var notices: map<Id, Notice>
    var nextId: Id

    function State(): Db
      reads this
    {
      Db(garages, cars, advanced, sections, notices, nextId)
    }

    ghost predicate Valid()
      reads this
    {
      DbOk(State())
    }

    constructor ()
      ensures Valid()
      ensures State() == Db(map[], map[], map[], map[], map[], 0)
    {
      garages, cars, advanced, sections, notices, nextId := map[], map[], map[], map[], map[], 0;
    }

    method Commit(db: Db)
      requires DbOk(db)
      modifies this
      ensures State() == db && Valid()
    {
      garages, cars, advanced, sections, notices, nextId := db.garages, db.cars, db.advanced, db.sections, db.notices, db.nextId;
    }

    /** createGarage: returns the new garage's id. */
    method CreateGarage(pdb: Profiles.ProfileDb, u: Id, dto: GarageDto) returns (r: Outcome<Id>)
      requires Valid()
      modifies this
      ensures Valid()
      ensures var db := old(State()); var e := CreateGarageCheck(pdb, u);
        if e.Some? then r == e.value && State() == db
        else r == Ok(db.nextId) && State() == GarageCreated(db, UserProfile(pdb, u).value, dto)
    {
      var db := State();
      var e := CreateGarageCheck(pdb, u);
      if e.Some? {
        return e.value;
      }
      var p := UserProfile(pdb, u).value;
      GarageKeepsOk(db, p, dto, 0, GarageUpdate(None, None, None));
      r := Ok(db.nextId);
      Commit(GarageCreated(db, p, dto));
    }

    /** updateGarage: returns the updated row. */
    method UpdateGarage(pdb: Profiles.ProfileDb, u: Id, g: Id, dto: GarageUpdate) returns (r: Outcome<Garage>)
      requires Valid()
      modifies this
      ensures Valid()
      ensures var db := old(State()); var e := GarageOwnerCheck(db, pdb, u, g);
        if e.Some? then r == e.value && State() == db
        else r == Ok(EditedGarage(db.garages[g], dto)) && State() == GarageUpdated(db, g, dto)
    {
      var db := State();
      var e := GarageOwnerCheck(db, pdb, u, g);
      if e.Some? {
        return e.value;
      }
      GarageKeepsOk(db, 0, GarageDto("", None, None), g, dto);
      r := Ok(EditedGarage(db.garages[g], dto));
      Commit(GarageUpdated(db, g, dto));
    }

    /** deleteGarage: returns the deleted row. */
    method DeleteGarage(pdb: Profiles.ProfileDb, u: Id, g: Id) returns (r: Outcome<Garage>)
      requires Valid()
      modifies this
      ensures Valid()
      ensures var db := old(State()); var e := GarageOwnerCheck(db, pdb, u, g);
        if e.Some? then r == e.value && State() == db
        else r == Ok(db.garages[g]) && State() == GarageDeleted(db, g)
    {
      var db := State();
      var e := GarageOwnerCheck(db, pdb, u, g);
      if e.Some? {
        return e.value;
      }
      GarageKeepsOk(db, 0, GarageDto("", None, None), g, GarageUpdate(None, None, None));
      r := Ok(db.garages[g]);
      Commit(GarageDeleted(db, g));
    }

    /** create: returns the new car's id; its advanced-data record takes the next id. */
    method CreateCar(pdb: Profiles.ProfileDb, u: Id, dto: CarDto) returns (r: Outcome<Id>)
      requires Valid()
      modifies this
      ensures Valid()
      ensures var db := old(State()); var e := CreateCarCheck(db, pdb, u, dto);
        if e.Some? then r == e.value && State() == db
        else r == Ok(db.nextId) && State() == CarCreated(db, UserProfile(pdb, u).value, dto)
    {
      var db := State();
      var e := CreateCarCheck(db, pdb, u, dto);
      if e.Some? {
        return e.value;
      }
      var p := UserProfile(pdb, u).value;
      CarKeepsOk(db, p, dto, 0, map[]);
      r := Ok(db.nextId);
      Commit(CarCreated(db, p, dto));
    }

    /** update: returns the updated row. */
    method UpdateCar(pdb: Profiles.ProfileDb, u: Id, c: Id, columns: Columns) returns (r: Outcome<Car>)
      requires Valid()
      modifies this
      ensures Valid()
      ensures var db := old(State()); var e := OwnershipCheck(db, pdb, u, c);
        if e.Some? then r == e.value && State() == db
        else State() == CarUpdated(db, c, columns) && r == Ok(State().cars[c])
    {
      var db := State();
      var e := OwnershipCheck(db, pdb, u, c);
      if e.Some? {
        return e.value;
      }
      CarKeepsOk(db, 0, CarDto(0, map[]), c, columns);
      Commit(CarUpdated(db, c, columns));
      r := Ok(cars[c]);
    }

    /** delete: returns the deleted row. */
    method DeleteCar(pdb: Profiles.ProfileDb, u: Id, c: Id) returns (r: Outcome<Car>)
      requires Valid()
      modifies this
      ensures Valid()
      ensures var db := old(State()); var e := OwnershipCheck(db, pdb, u, c);
        if e.Some? then r == e.value && State() == db
        else r == Ok(db.cars[c]) && State() == CarDeleted(db, c)
    {
      var db := State();
      var e := OwnershipCheck(db, pdb, u, c);
      if e.Some? {
        return e.value;
      }
      CarKeepsOk(db, 0, CarDto(0, map[]), c, map[]);
      r := Ok(db.cars[c]);
      Commit(CarDeleted(db, c));
    }

    /**
     * updateEnginePower, updateDrivetrain, updateChassisBrakes,
     * updateTuningAero, updateInteriorSafety, updateUsageNotes and
     * updateWheelsTires, told apart by `s`: returns the upserted row.
     */
    method UpdateSection(pdb: Profiles.ProfileDb, u: Id, c: Id, s: Section, dto: Columns) returns (r: Outcome<Columns>)
      requires Valid()
      modifies this
      ensures Valid()
      ensures var db := old(State()); var e := SectionCheck(db, pdb, u, c);
        if e.Some? then r == e.value && State() == db
        else
          var a := FirstAdvanced(db, c).value;
          State() == Upserted(db, s, a, dto) && r == Ok(State().sections[(s, a)])
    {
      var db := State();
      var e := SectionCheck(db, pdb, u, c);
      if e.Some? {
        return e.value;
      }
      var a := FirstAdvanced(db, c).value;
      UpsertKeepsOk(db, s, a, dto);
      Commit(Upserted(db, s, a, dto));
      r := Ok(sections[(s, a)]);
    }

    /** The admin's create: returns the filed notice. */
    method CreateLegalNotice(pdb: Profiles.ProfileDb, dto: LegalNotices.NoticeDto, now: int) returns (r: Outcome<Notice>)
      requires Valid()
      modifies this
      ensures Valid()
      ensures var db := old(State()); var e := LegalNotices.CreateCheck(db, pdb, dto);
        if e.Some? then r == e.value && State() == db
        else r == Ok(LegalNotices.NoticeOf(dto, now)) && State() == LegalNotices.Filed(db, dto, now)
    {
      var db := State();
      var e := LegalNotices.CreateCheck(db, pdb, dto);
      if e.Some? {
        return e.value;
      }
      LegalNotices.FiledKeepsOk(db, dto, now);
      r := Ok(LegalNotices.NoticeOf(dto, now));
      Commit(LegalNotices.Filed(db, dto, now));
    }
  }
}

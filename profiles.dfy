/**
 * User profiles: the payload-versus-type validator, profile creation with
 * its type-specific sub-profile, base-field updates, and changing a
 * profile's type by upserting the matching sub-profile.
 */
module Profiles {

  import opened Outcomes
  import opened Tables

  datatype ProfileType = Spotter | Owner | ContentCreator | ProBusiness | ProDriver | SimRacingDriver

  /** The enum value's name, as requests spell it. */
  function TypeName(t: ProfileType): string
  {
    match t
    case Spotter => "SPOTTER"
    case Owner => "OWNER"
    case ContentCreator => "CONTENT_CREATOR"
    case ProBusiness => "PRO_BUSSINESS"
    case ProDriver => "PRO_DRIVER"
    case SimRacingDriver => "SIM_RACING_DRIVER"
  }

  /** The validator's key lookup: the type whose name is `s`, if any. */
  function ParseType(s: string): (r: Option<ProfileType>)
    ensures r.Some? ==> TypeName(r.value) == s
  {
    if s == "SPOTTER" then Some(Spotter)
    else if s == "OWNER" then Some(Owner)
    else if s == "CONTENT_CREATOR" then Some(ContentCreator)
    else if s == "PRO_BUSSINESS" then Some(ProBusiness)
    else if s == "PRO_DRIVER" then Some(ProDriver)
    else if s == "SIM_RACING_DRIVER" then Some(SimRacingDriver)
    else None
  }

  /** Every type's name parses back to it, so exactly the six names are known. */
  lemma ParseTypeName(t: ProfileType)
    ensures ParseType(TypeName(t)) == Some(t)
  {
  }

  /** The known keys, in the order the rejection message lists them. */
  const AllowedTypes := "SPOTTER, OWNER, CONTENT_CREATOR, PRO_BUSSINESS, PRO_DRIVER, SIM_RACING_DRIVER"

  /** The fields of a nested settings object, each a string or a flag. */
  datatype Value = Str(s: string) | Flag(b: bool)
  type Fields = map<string, Value>

  datatype CreatorDto = CreatorDto(creatorCategory: Option<string>, youtubeChanel: Option<string>, portfolioWebsite: Option<string>)

  /** `businessName` and `location` are empty strings when absent: the service tests them for falsiness. */
  datatype BusinessDto = BusinessDto(businessCategory: Option<string>, businessName: string, location: string)

  datatype DriverDto = DriverDto(racingDiscipline: Option<string>, location: string)

  datatype SimDto = SimDto(
    hardwareSetup: Option<Fields>,
    displayAndPcSetup: Option<Fields>,
    drivingAssistant: Option<Fields>,
    racing: Option<Fields>,
    setupDescription: Option<Fields>)

  /** The six optional sub-payloads; an object, even an empty one, is present. */
  datatype Payloads = Payloads(
    spotter: bool,
    owner: bool,
    creator: Option<CreatorDto>,
    business: Option<BusinessDto>,
    proDriver: Option<DriverDto>,
    simRacing: Option<SimDto>)

  /** The payload that belongs to type `t` is present. */
  predicate Provided(pl: Payloads, t: ProfileType)
  {
    match t
    case Spotter => pl.spotter
    case Owner => pl.owner
    case ContentCreator => pl.creator.Some?
    case ProBusiness => pl.business.Some?
    case ProDriver => pl.proDriver.Some?
    case SimRacingDriver => pl.simRacing.Some?
  }

  predicate AnyProvided(pl: Payloads)
  {
    pl.spotter || pl.owner || pl.creator.Some? || pl.business.Some? || pl.proDriver.Some? || pl.simRacing.Some?
  }

  /** assertPayloadMatchesType: the parsed type, or the request's rejection. */
  function CheckPayload(profileType: string, pl: Payloads): (r: Outcome<ProfileType>)
    ensures r.Ok? <==> ParseType(profileType).Some? && (!AnyProvided(pl) || Provided(pl, ParseType(profileType).value))
    ensures r.Ok? ==> r.value == ParseType(profileType).value
    ensures ParseType(profileType).None?
      ==> r == BadRequest("Invalid profileType: " + profileType + ". Allowed: " + AllowedTypes)
    ensures (ParseType(profileType).Some? && AnyProvided(pl) && !Provided(pl, ParseType(profileType).value))
      ==> r == BadRequest("Payload does not match profileType: " + profileType)
  {
    var t := ParseType(profileType);
    if t.None? then BadRequest("Invalid profileType: " + profileType + ". Allowed: " + AllowedTypes)
    else if AnyProvided(pl) && !Provided(pl, t.value) then BadRequest("Payload does not match profileType: " + profileType)
    else Ok(t.value)
  }

  /** With no sub-payload at all, every known type passes. */
  lemma NoPayloadAccepted(t: ProfileType, pl: Payloads)
    requires !AnyProvided(pl)
    ensures CheckPayload(TypeName(t), pl) == Ok(t)
  {
  }

  /** The matching payload is enough: others sent alongside it are not rejected. */
  lemma MatchingPayloadAccepted(t: ProfileType, pl: Payloads)
    requires Provided(pl, t)
    ensures CheckPayload(TypeName(t), pl) == Ok(t)
  {
  }

  // ---------------------------------------------------------------------------
  // Profiles and sub-profiles

  datatype Profile = Profile(
    userId: Id,
    userName: Option<string>,
    bio: Option<string>,
    imageUrl: Option<string>,
    instagramHandler: Option<string>,
    preference: Option<string>,
    accountType: string,
    profileType: Option<ProfileType>,
    isActive: string,
    suspend: bool)

  /** A category left `None` is the column's own default. */
  datatype Creator = Creator(creatorCategory: Option<string>, youtubeChanel: Option<string>, portfolioWebsite: Option<string>)
  datatype Business = Business(businessCategory: Option<string>, businessName: string, location: string)
  datatype Driver = Driver(racingDiscipline: Option<string>, location: string)
  datatype Sim = Sim(
    hardwareSetup: Option<Fields>,
    displayAndPcSetup: Option<Fields>,
    drivingAssistant: Option<Fields>,
    racing: Option<Fields>,
    setupDescription: Option<Fields>)

  /** Profiles, and each sub-profile table keyed by its profile's id (`profileId` is unique). */
  datatype ProfileDb = ProfileDb(
    profiles: map<Id, Profile>,
    spotters: set<Id>,
    owners: set<Id>,
    creators: map<Id, Creator>,
    businesses: map<Id, Business>,
    drivers: map<Id, Driver>,
    sims: map<Id, Sim>,
    nextId: Id)

  const DefaultAccountType := "PUBLIC"
  const ActiveStatus := "ACTIVE"
  const DefaultCreatorCategory := "PHOTOGRAPHY"
  const DefaultBusinessCategory := "Detailling_Care"
  const DefaultRacingDiscipline := "GT_Racing"

  const BusinessRequired := "businessName and location are required for BUSINESS profile"
  const DriverRequired := "location is required for PRO_DRIVER profile"

  /** The business and driver types' required fields, checked inside the transaction. */
  function RequiredCheck(t: ProfileType, pl: Payloads): (err: Option<string>)
    ensures err.None? <==> ((t == ProBusiness ==> pl.business.Some? && pl.business.value.businessName != "" && pl.business.value.location != "")
      && (t == ProDriver ==> pl.proDriver.Some? && pl.proDriver.value.location != ""))
    ensures err.Some? ==> (t == ProBusiness && err.value == BusinessRequired) || (t == ProDriver && err.value == DriverRequired)
  {
    match t
    case ProBusiness =>
      if pl.business.None? || pl.business.value.businessName == "" || pl.business.value.location == "" then Some(BusinessRequired) else None
    case ProDriver =>
      if pl.proDriver.None? || pl.proDriver.value.location == "" then Some(DriverRequired) else None
    case _ => None
  }

  datatype CreateProfileDto = CreateProfileDto(
    userName: Option<string>,
    bio: Option<string>,
    imageUrl: Option<string>,
    instagramHandler: Option<string>,
    accountType: Option<string>,
    profileType: string,
    payloads: Payloads)

  /** The user already owns a profile row. */
  predicate HasProfile(db: ProfileDb, u: Id)
  {
    exists k :: k in db.profiles && db.profiles[k].userId == u
  }

  /**
   * createProfile's guards in order: the validator, the user, the type's
   * required fields, and finally the insert, which the one-to-one relation
   * between a user and its profile refuses when the user already has one.
   */
  function CreateCheck(db: ProfileDb, users: set<Id>, u: Id, dto: CreateProfileDto): (r: Outcome<ProfileType>)
    ensures r.Ok? <==> (CheckPayload(dto.profileType, dto.payloads).Ok? && u in users
      && RequiredCheck(CheckPayload(dto.profileType, dto.payloads).value, dto.payloads).None?
      && !HasProfile(db, u))
    ensures r.Ok? ==> r.value == CheckPayload(dto.profileType, dto.payloads).value
    ensures !CheckPayload(dto.profileType, dto.payloads).Ok? ==> r == CheckPayload(dto.profileType, dto.payloads)
    ensures (CheckPayload(dto.profileType, dto.payloads).Ok? && u !in users) ==> r == NotFound("User not found")
    ensures (CheckPayload(dto.profileType, dto.payloads).Ok? && u in users
      && RequiredCheck(CheckPayload(dto.profileType, dto.payloads).value, dto.payloads).None? && HasProfile(db, u))
      ==> r == Internal("Unique constraint failed on the fields: (`userId`)")
  {
    var t := CheckPayload(dto.profileType, dto.payloads);
    if !t.Ok? then t
    else if u !in users then NotFound("User not found")
    else
      var e := RequiredCheck(t.value, dto.payloads);
      if e.Some? then BadRequest(e.value)
      else if HasProfile(db, u) then Internal("Unique constraint failed on the fields: (`userId`)")
      else t
  }

  /** A new profile: public, active, not suspended. */
  function NewProfile(u: Id, dto: CreateProfileDto, t: ProfileType): (p: Profile)
    ensures p.userId == u && p.profileType == Some(t)
    ensures dto.accountType.None? ==> p.accountType == DefaultAccountType
    ensures p.isActive == ActiveStatus && !p.suspend
  {
    Profile(u, dto.userName, dto.bio, dto.imageUrl, dto.instagramHandler, None,
            dto.accountType.GetOr(DefaultAccountType), Some(t), ActiveStatus, false)
  }

  /** A sim-racing sub-profile with the nested sections the payload carries. */
  function NewSim(sim: Option<SimDto>): Sim
  {
    if sim.None? then Sim(None, None, None, None, None)
    else Sim(sim.value.hardwareSetup, sim.value.displayAndPcSetup, sim.value.drivingAssistant,
             sim.value.racing, sim.value.setupDescription)
  }

  /** The created profile `k`'s one sub-profile, with createProfile's defaults. */
  function WithNewSub(db: ProfileDb, k: Id, t: ProfileType, pl: Payloads): ProfileDb
    requires RequiredCheck(t, pl).None?
  {
    match t
    case Spotter => db.(spotters := db.spotters + {k})
    case Owner => db.(owners := db.owners + {k})
    case ContentCreator =>
      var c := pl.creator;
      db.(creators := db.creators[k := Creator(
        Some(if c.Some? && c.value.creatorCategory.Some? then c.value.creatorCategory.value else DefaultCreatorCategory),
        if c.Some? then c.value.youtubeChanel else None,
        if c.Some? then c.value.portfolioWebsite else None)])
    case ProBusiness =>
      var b := pl.business.value;
      db.(businesses := db.businesses[k := Business(Some(b.businessCategory.GetOr(DefaultBusinessCategory)), b.businessName, b.location)])
    case ProDriver =>
      var d := pl.proDriver.value;
      db.(drivers := db.drivers[k := Driver(Some(d.racingDiscipline.GetOr(DefaultRacingDiscipline)), d.location)])
    case SimRacingDriver => db.(sims := db.sims[k := NewSim(pl.simRacing)])
  }

  function Created(db: ProfileDb, u: Id, dto: CreateProfileDto, t: ProfileType): ProfileDb
    requires RequiredCheck(t, dto.payloads).None?
  {
    var db1 := db.(profiles := db.profiles[db.nextId := NewProfile(u, dto, t)], nextId := db.nextId + 1);
    WithNewSub(db1, db.nextId, t, dto.payloads)
  }

  /** The sub-profile of type `t` exists for profile `k`. */
  predicate HasSub(db: ProfileDb, k: Id, t: ProfileType)
  {
    match t
    case Spotter => k in db.spotters
    case Owner => k in db.owners
    case ContentCreator => k in db.creators
    case ProBusiness => k in db.businesses
    case ProDriver => k in db.drivers
    case SimRacingDriver => k in db.sims
  }

  /** Sub-profiles belong to existing profiles, and ids are below `nextId`. */
  ghost predicate DbOk(db: ProfileDb)
  {
    Bounded(db.profiles, db.nextId)
    && (forall k :: k in db.spotters ==> k in db.profiles)
    && (forall k :: k in db.owners ==> k in db.profiles)
    && (forall k :: k in db.creators ==> k in db.profiles)
    && (forall k :: k in db.businesses ==> k in db.profiles)
    && (forall k :: k in db.drivers ==> k in db.profiles)
    && (forall k :: k in db.sims ==> k in db.profiles)
  }

  /** Adding a sub-profile for an existing profile keeps the tables consistent. */
  lemma NewSubKeepsOk(db: ProfileDb, k: Id, t: ProfileType, pl: Payloads)
    requires DbOk(db) && k in db.profiles && RequiredCheck(t, pl).None?
    ensures DbOk(WithNewSub(db, k, t, pl)) && HasSub(WithNewSub(db, k, t, pl), k, t)
  {
  }

  /**
   * A created profile carries the requested type, its sub-profile of that
   * type, and createProfile's defaults.
   */
  lemma CreateGivesSub(db: ProfileDb, users: set<Id>, u: Id, dto: CreateProfileDto)
    requires DbOk(db) && CreateCheck(db, users, u, dto).Ok?
    ensures var t := CreateCheck(db, users, u, dto).value; var db' := Created(db, u, dto, t);
      db.nextId in db'.profiles && db'.profiles[db.nextId] == NewProfile(u, dto, t)
      && HasSub(db', db.nextId, t) && DbOk(db')
  {
    CreatedKeepsOk(db, u, dto, CreateCheck(db, users, u, dto).value);
  }

  lemma CreatedKeepsOk(db: ProfileDb, u: Id, dto: CreateProfileDto, t: ProfileType)
    requires DbOk(db) && RequiredCheck(t, dto.payloads).None?
    ensures var db' := Created(db, u, dto, t);
      db.nextId in db'.profiles && db'.profiles[db.nextId] == NewProfile(u, dto, t)
      && HasSub(db', db.nextId, t) && DbOk(db')
  {
    var db1 := db.(profiles := db.profiles[db.nextId := NewProfile(u, dto, t)], nextId := db.nextId + 1);
    NewSubKeepsOk(db1, db.nextId, t, dto.payloads);
  }

  /** After a successful create the user owns exactly one profile: the new one. */
  lemma CreateLeavesOneProfile(db: ProfileDb, users: set<Id>, u: Id, dto: CreateProfileDto)
    requires DbOk(db) && CreateCheck(db, users, u, dto).Ok?
    ensures var db' := Created(db, u, dto, CreateCheck(db, users, u, dto).value);
      forall k :: k in db'.profiles && db'.profiles[k].userId == u <==> k == db.nextId
  {
    var t := CreateCheck(db, users, u, dto).value;
    CreateGivesSub(db, users, u, dto);
  }

  /** A creator profile created without a category gets `PHOTOGRAPHY`. */
  lemma CreateCreatorDefault(db: ProfileDb, u: Id, dto: CreateProfileDto)
    requires RequiredCheck(ContentCreator, dto.payloads).None?
    requires dto.payloads.creator.None? || dto.payloads.creator.value.creatorCategory.None?
    ensures Created(db, u, dto, ContentCreator).creators[db.nextId].creatorCategory == Some(DefaultCreatorCategory)
  {
  }

  /** The new profile has no other sub-profile: only the requested type's table gains a row. */
  lemma CreateOnlyOneSub(db: ProfileDb, users: set<Id>, u: Id, dto: CreateProfileDto, other: ProfileType)
    requires DbOk(db) && CreateCheck(db, users, u, dto).Ok? && other != CreateCheck(db, users, u, dto).value
    ensures !HasSub(Created(db, u, dto, CreateCheck(db, users, u, dto).value), db.nextId, other)
  {
  }

  // ---------------------------------------------------------------------------
  // Reading and updating

  /** getProfileById. */
  function ProfileById(db: ProfileDb, k: Id): (r: Outcome<Profile>)
    ensures r.Ok? <==> k in db.profiles
    ensures r.Ok? ==> r.value == db.profiles[k]
    ensures !r.Ok? ==> r == NotFound("Profile not found")
  {
    if k in db.profiles then Ok(db.profiles[k]) else NotFound("Profile not found")
  }

  function OwnedBy(u: Id): Profile -> bool { (p: Profile) => p.userId == u }

  /** getProfilesByUserId: the user's profiles, or NotFound when there are none. */
  function ProfilesOf(db: ProfileDb, u: Id): (r: Outcome<seq<Id>>)
    ensures r.Ok? ==> |r.value| > 0 && forall k :: k in r.value <==> k < db.nextId && k in db.profiles && db.profiles[k].userId == u
    ensures !r.Ok? ==> r == NotFound("Profile not found") && forall k :: k < db.nextId && k in db.profiles ==> db.profiles[k].userId != u
  {
    var ids := IdsBelow(db.profiles, db.nextId, OwnedBy(u));
    if |ids| == 0 then NotFound("Profile not found") else Ok(ids)
  }

  /** The owner check of updateProfileBase and changeProfileType. */
  function AccessCheck(db: ProfileDb, k: Id, u: Id): (err: Option<Outcome<Profile>>)
    ensures err.None? <==> k in db.profiles && db.profiles[k].userId == u
    ensures k !in db.profiles ==> err == Some(NotFound("Profile not found"))
    ensures k in db.profiles && db.profiles[k].userId != u ==> err == Some(Forbidden("No access"))
  {
    if k !in db.profiles then Some(NotFound("Profile not found"))
    else if db.profiles[k].userId != u then Some(Forbidden("No access"))
    else None
  }

  datatype BaseDto = BaseDto(
    userName: Option<string>,
    bio: Option<string>,
    imageUrl: Option<string>,
    instagramHandler: Option<string>,
    accountType: Option<string>)

  /** updateProfileBase's row: the given base fields, everything else as it was. */
  function ApplyBase(p: Profile, dto: BaseDto): (r: Profile)
    ensures r.userId == p.userId && r.profileType == p.profileType && r.preference == p.preference
    ensures r.isActive == p.isActive && r.suspend == p.suspend
  {
    p.(userName := if dto.userName.Some? then dto.userName else p.userName,
       bio := if dto.bio.Some? then dto.bio else p.bio,
       imageUrl := if dto.imageUrl.Some? then dto.imageUrl else p.imageUrl,
       instagramHandler := if dto.instagramHandler.Some? then dto.instagramHandler else p.instagramHandler,
       accountType := dto.accountType.GetOr(p.accountType))
  }

  /** Applying the same base update twice changes nothing more. */
  lemma ApplyBaseIdempotent(p: Profile, dto: BaseDto)
    ensures ApplyBase(ApplyBase(p, dto), dto) == ApplyBase(p, dto)
  {
  }

  function BaseUpdated(db: ProfileDb, k: Id, dto: BaseDto): ProfileDb
    requires k in db.profiles
  {
    db.(profiles := db.profiles[k := ApplyBase(db.profiles[k], dto)])
  }

  // ---------------------------------------------------------------------------
  // Changing the type

  datatype ChangeTypeDto = ChangeTypeDto(profileType: string, payloads: Payloads)

  /**
   * changeProfileType's guards in order: the validator, the profile and its
   * owner, then the type's required fields. A failure at the last step
   * aborts the transaction, so the type written before it is rolled back.
   */
  function ChangeCheck(db: ProfileDb, k: Id, u: Id, dto: ChangeTypeDto): (r: Outcome<ProfileType>)
    ensures r.Ok? <==> (CheckPayload(dto.profileType, dto.payloads).Ok? && AccessCheck(db, k, u).None?
      && RequiredCheck(CheckPayload(dto.profileType, dto.payloads).value, dto.payloads).None?)
    ensures r.Ok? ==> r.value == CheckPayload(dto.profileType, dto.payloads).value
    ensures !CheckPayload(dto.profileType, dto.payloads).Ok? ==> r == CheckPayload(dto.profileType, dto.payloads)
    ensures (CheckPayload(dto.profileType, dto.payloads).Ok? && AccessCheck(db, k, u).Some?)
      ==> r == AccessCheck(db, k, u).value.PropagateFailure()
  {
    var t := CheckPayload(dto.profileType, dto.payloads);
    if !t.Ok? then t
    else if AccessCheck(db, k, u).Some? then AccessCheck(db, k, u).value.PropagateFailure()
    else
      var e := RequiredCheck(t.value, dto.payloads);
      if e.Some? then BadRequest(e.value) else t
  }

  /** `upsert` of a nested section from a spread payload: the given fields overwrite, the rest stay. */
  function MergeSection(current: Option<Fields>, given: Option<Fields>): (r: Option<Fields>)
    ensures given.None? ==> r == current
    ensures given.Some? ==> (r.Some? && given.value.Keys <= r.value.Keys
      && forall f :: f in given.value ==> r.value[f] == given.value[f])
    ensures current.Some? && given.Some? ==> current.value.Keys <= r.value.Keys
  {
    if given.None? then current
    else if current.None? then given
    else Some(current.value + given.value)
  }

  function MergeSim(s: Sim, pl: Option<SimDto>): Sim
  {
    if pl.None? then s
    else Sim(MergeSection(s.hardwareSetup, pl.value.hardwareSetup),
             MergeSection(s.displayAndPcSetup, pl.value.displayAndPcSetup),
             MergeSection(s.drivingAssistant, pl.value.drivingAssistant),
             MergeSection(s.racing, pl.value.racing),
             MergeSection(s.setupDescription, pl.value.setupDescription))
  }

  function SomeOr<T>(field: Option<T>, current: Option<T>): Option<T>
  {
    if field.Some? then field else current
  }

  /** The upsert for type `t`: create the sub-profile with defaults, or update the existing one. */
  function UpsertSub(db: ProfileDb, k: Id, t: ProfileType, pl: Payloads): ProfileDb
    requires RequiredCheck(t, pl).None?
  {
    match t
    case Spotter => db.(spotters := db.spotters + {k})
    case Owner => db.(owners := db.owners + {k})
    case ContentCreator =>
      var c := pl.creator.GetOr(CreatorDto(None, None, None));
      if k in db.creators then
        var cur := db.creators[k];
        db.(creators := db.creators[k := Creator(SomeOr(c.creatorCategory, cur.creatorCategory),
                                                  SomeOr(c.youtubeChanel, cur.youtubeChanel),
                                                  SomeOr(c.portfolioWebsite, cur.portfolioWebsite))])
      else
        db.(creators := db.creators[k := Creator(Some(c.creatorCategory.GetOr(DefaultCreatorCategory)), c.youtubeChanel, c.portfolioWebsite)])
    case ProBusiness =>
      var b := pl.business.value;
      var category := if k in db.businesses then SomeOr(b.businessCategory, db.businesses[k].businessCategory)
                      else Some(b.businessCategory.GetOr(DefaultBusinessCategory));
      db.(businesses := db.businesses[k := Business(category, b.businessName, b.location)])
    case ProDriver =>
      var d := pl.proDriver.value;
      var discipline := if k in db.drivers then SomeOr(d.racingDiscipline, db.drivers[k].racingDiscipline)
                        else Some(d.racingDiscipline.GetOr(DefaultRacingDiscipline));
      db.(drivers := db.drivers[k := Driver(discipline, d.location)])
    case SimRacingDriver =>
      var s := if k in db.sims then db.sims[k] else Sim(None, None, None, None, None);
      db.(sims := db.sims[k := MergeSim(s, pl.simRacing)])
  }

  function TypeChanged(db: ProfileDb, k: Id, t: ProfileType, pl: Payloads): ProfileDb
    requires k in db.profiles && RequiredCheck(t, pl).None?
  {
    UpsertSub(db.(profiles := db.profiles[k := db.profiles[k].(profileType := Some(t))]), k, t, pl)
  }

  /** An upsert for an existing profile keeps the tables consistent and leaves the sub-profile in place. */
  lemma UpsertKeepsOk(db: ProfileDb, k: Id, t: ProfileType, pl: Payloads)
    requires DbOk(db) && k in db.profiles && RequiredCheck(t, pl).None?
    ensures DbOk(UpsertSub(db, k, t, pl)) && HasSub(UpsertSub(db, k, t, pl), k, t)
    ensures UpsertSub(db, k, t, pl).profiles == db.profiles
  {
  }

  /** An upsert touches only its own type's table. */
  lemma UpsertKeepsOtherSubs(db: ProfileDb, k: Id, t: ProfileType, pl: Payloads, other: ProfileType)
    requires RequiredCheck(t, pl).None? && other != t
    ensures HasSub(UpsertSub(db, k, t, pl), k, other) <==> HasSub(db, k, other)
  {
  }

  /**
   * After a change the profile has the new type and its sub-profile, and
   * other profiles are untouched.
   */
  lemma ChangeGivesSub(db: ProfileDb, k: Id, u: Id, dto: ChangeTypeDto)
    requires DbOk(db) && ChangeCheck(db, k, u, dto).Ok?
    ensures var t := ChangeCheck(db, k, u, dto).value; var db' := TypeChanged(db, k, t, dto.payloads);
      db'.profiles[k].profileType == Some(t) && HasSub(db', k, t) && DbOk(db')
      && forall j :: j in db.profiles && j != k ==> j in db'.profiles && db'.profiles[j] == db.profiles[j]
  {
    var t := ChangeCheck(db, k, u, dto).value;
    var db1 := db.(profiles := db.profiles[k := db.profiles[k].(profileType := Some(t))]);
    UpsertKeepsOk(db1, k, t, dto.payloads);
  }

  /** The sub-profiles of other types, the old type's included, are kept: a change never deletes one. */
  lemma ChangeKeepsOtherSubs(db: ProfileDb, k: Id, u: Id, dto: ChangeTypeDto, other: ProfileType)
    requires ChangeCheck(db, k, u, dto).Ok? && other != ChangeCheck(db, k, u, dto).value
    ensures var t := ChangeCheck(db, k, u, dto).value;
      HasSub(TypeChanged(db, k, t, dto.payloads), k, other) <==> HasSub(db, k, other)
  {
    var t := ChangeCheck(db, k, u, dto).value;
    var db1 := db.(profiles := db.profiles[k := db.profiles[k].(profileType := Some(t))]);
    UpsertKeepsOtherSubs(db1, k, t, dto.payloads, other);
  }

  /** A spotter or owner upsert has an empty update: an existing sub-profile stays exactly as it was. */
  lemma ChangeKeepsEmptyUpsert(db: ProfileDb, k: Id, t: ProfileType, pl: Payloads)
    requires k in db.profiles && (t == Spotter || t == Owner) && HasSub(db, k, t)
    ensures var db' := TypeChanged(db, k, t, pl);
      db'.spotters == db.spotters && db'.owners == db.owners
  {
  }

  /**
   * Repeating a change with the same request leaves the tables as the
   * first change left them: upserts never add a second sub-profile.
   */
  lemma ChangeTwiceIsOnce(db: ProfileDb, k: Id, t: ProfileType, pl: Payloads)
    requires k in db.profiles && RequiredCheck(t, pl).None? && (t == Spotter || t == Owner || t == ProDriver || t == ProBusiness)
    ensures var db' := TypeChanged(db, k, t, pl);
      TypeChanged(db', k, t, pl) == db'
  {
  }

  /** A sim-racing change only adds or overwrites the given fields of the given sections. */
  lemma ChangeMergesSim(db: ProfileDb, k: Id, pl: Payloads)
    requires k in db.profiles && k in db.sims && pl.simRacing.Some? && db.sims[k].hardwareSetup.Some?
    ensures var db' := TypeChanged(db, k, SimRacingDriver, pl);
      db'.sims[k].hardwareSetup.Some? && db.sims[k].hardwareSetup.value.Keys <= db'.sims[k].hardwareSetup.value.Keys
  {
  }

  // ---------------------------------------------------------------------------
  // The profile that signup creates

  /**
   * What signup copies into the profile: the preference, and the `bio`,
   * `imageUrl`, `instagramHandler` and `accountType` of the request body,
   * which the sign-up DTO class does not declare.
   */
  datatype SignupFields = SignupFields(
    preference: Option<string>,
    bio: Option<string>,
    imageUrl: Option<string>,
    instagramHandler: Option<string>,
    accountType: Option<string>)

  /** Signup writes no profile type and no user name; absent fields are null, the account type `PUBLIC`. */
  function SignupProfile(u: Id, f: SignupFields): (p: Profile)
    ensures p.userId == u && p.isActive == ActiveStatus && !p.suspend
    ensures p.profileType.None? && p.userName.None?
    ensures p.preference == f.preference && p.bio == f.bio && p.imageUrl == f.imageUrl
      && p.instagramHandler == f.instagramHandler
    ensures f.accountType.None? ==> p.accountType == DefaultAccountType
    ensures f.accountType.Some? ==> p.accountType == f.accountType.value
  {
    Profile(u, None, f.bio, f.imageUrl, f.instagramHandler, f.preference,
            f.accountType.GetOr(DefaultAccountType), None, ActiveStatus, false)
  }

  /**
   * Signup's profile is the one createProfile would write from the same
   * fields and no user name, with the preference instead of a profile type.
   */
  lemma SignupLikeCreate(u: Id, f: SignupFields, dto: CreateProfileDto, t: ProfileType)
    requires dto.userName.None? && dto.bio == f.bio && dto.imageUrl == f.imageUrl
    requires dto.instagramHandler == f.instagramHandler && dto.accountType == f.accountType
    ensures SignupProfile(u, f) == NewProfile(u, dto, t).(preference := f.preference, profileType := None)
  {
  }

  /**
   * Signup's sub-profile: categories are left to the column defaults, and a
   * sim-racing profile starts with no sections.
   */
  function WithSignupSub(db: ProfileDb, k: Id, t: ProfileType, pl: Payloads): ProfileDb
    requires RequiredCheck(t, pl).None?
  {
    match t
    case Spotter => db.(spotters := db.spotters + {k})
    case Owner => db.(owners := db.owners + {k})
    case ContentCreator =>
      var c := pl.creator.GetOr(CreatorDto(None, None, None));
      db.(creators := db.creators[k := Creator(c.creatorCategory, c.youtubeChanel, c.portfolioWebsite)])
    case ProBusiness =>
      var b := pl.business.value;
      db.(businesses := db.businesses[k := Business(b.businessCategory, b.businessName, b.location)])
    case ProDriver =>
      var d := pl.proDriver.value;
      db.(drivers := db.drivers[k := Driver(d.racingDiscipline, d.location)])
    case SimRacingDriver => db.(sims := db.sims[k := Sim(None, None, None, None, None)])
  }

  function SignedUp(db: ProfileDb, u: Id, f: SignupFields, t: ProfileType, pl: Payloads): ProfileDb
    requires RequiredCheck(t, pl).None?
  {
    var db1 := db.(profiles := db.profiles[db.nextId := SignupProfile(u, f)], nextId := db.nextId + 1);
    WithSignupSub(db1, db.nextId, t, pl)
  }

  lemma SignupKeepsOk(db: ProfileDb, u: Id, f: SignupFields, t: ProfileType, pl: Payloads)
    requires DbOk(db) && RequiredCheck(t, pl).None?
    ensures var db' := SignedUp(db, u, f, t, pl);
      DbOk(db') && HasSub(db', db.nextId, t) && db'.profiles[db.nextId] == SignupProfile(u, f)
  {
  }
}

/**
 * The account tables shared by sign-up and login, the ambassador and
 * official-partner applications, and the profile service: users with their
 * credentials and one-time codes, applications, and profiles.
 */
module Accounts {

  import opened Outcomes
  import opened Tables
  import Profiles

  datatype Role = User | Admin | Ambassador | OfficialPartner

  /** An application's review status, shared by both programs. */
  datatype Review = Pending | Approved | Rejected

  /**
   * A stored password or refresh-token hash. Hashing is modelled as a
   * perfect hash: a raw value matches exactly the digest made from it.
   */
  datatype Digest = Digest(raw: string)

  predicate Matches(raw: string, d: Digest) { d == Digest(raw) }

  datatype Account = Account(
    username: string,
    email: string,
    password: Digest,
    isEmailVerified: bool,
    emailOtp: Option<string>,
    emailOtpExpiresAt: Option<int>,
    resetOtp: Option<string>,
    resetOtpExpiresAt: Option<int>,
    role: Role,
    activeRole: Option<Role>,
    refreshTokenHash: Option<Digest>,
    activeProfileId: Option<Id>)

  datatype Program = AmbassadorProgram | PartnerProgram

  /** What an ambassador applicant submits; the optional columns are null when not given. */
  datatype AmbassadorForm = AmbassadorForm(
    motorspotName: string,
    contactName: string,
    email: string,
    country: string,
    instagramProfile: Option<string>,
    tiktokProfile: Option<string>,
    youTubeChanel: Option<string>,
    totalFollower: nat,
    mainCar: Option<string>,
    whyDoYouWant: string,
    releventExperience: Option<string>,
    profilePhoto: Option<string>)

  /** What an official-partner applicant submits. */
  datatype PartnerForm = PartnerForm(
    brandLogo: Option<string>,
    brandName: string,
    contactName: string,
    contactEmail: string,
    brandDescription: Option<string>,
    websiteUrl: Option<string>,
    industry: Option<string>,
    country: Option<string>,
    companyRegistrationNumber: Option<string>)

  datatype Form = OfAmbassador(ambassador: AmbassadorForm) | OfPartner(partner: PartnerForm)

  /** The form kind each program's table holds. */
  predicate FormFits(p: Program, f: Form)
  {
    match p
    case AmbassadorProgram => f.OfAmbassador?
    case PartnerProgram => f.OfPartner?
  }

  /** A row of the ambassador-program or the official-partner table, told apart by `program`. */
  datatype Application = Application(program: Program, userId: Id, status: Review, form: Form, createdAt: int)

  datatype Db = Db(accounts: map<Id, Account>, applications: map<Id, Application>, profiles: Profiles.ProfileDb, nextId: Id)

  /** `findUnique({ where: { email } })`. */
  function ByEmail(email: string): Account -> bool { (a: Account) => a.email == email }

  function FindByEmail(db: Db, email: string): (r: Option<Id>)
    ensures r.Some? ==> r.value in db.accounts && db.accounts[r.value].email == email
    ensures r.None? ==> forall i :: i in db.accounts && i < db.nextId ==> db.accounts[i].email != email
  {
    FindFirst(db.accounts, db.nextId, ByEmail(email))
  }

  /** `findUnique({ where: { userId } })` on one program's table. */
  function ApplicationOf(p: Program, u: Id): Application -> bool
  {
    (a: Application) => a.program == p && a.userId == u
  }

  function FindApplication(db: Db, p: Program, u: Id): (r: Option<Id>)
    ensures r.Some? ==> r.value in db.applications && ApplicationOf(p, u)(db.applications[r.value])
    ensures r.None? ==> forall i :: i in db.applications && i < db.nextId ==> !ApplicationOf(p, u)(db.applications[i])
  {
    FindFirst(db.applications, db.nextId, ApplicationOf(p, u))
  }

  ghost predicate EmailsUnique(accounts: map<Id, Account>)
  {
    forall i, j :: i in accounts && j in accounts && i != j ==> accounts[i].email != accounts[j].email
  }

  /** `userId` is unique in each program's table. */
  ghost predicate OnePerUser(apps: map<Id, Application>)
  {
    forall i, j :: i in apps && j in apps && i != j && apps[i].program == apps[j].program ==>
      apps[i].userId != apps[j].userId
  }

  ghost predicate AppsOk(db: Db)
  {
    forall i :: i in db.applications ==>
      db.applications[i].userId in db.accounts && FormFits(db.applications[i].program, db.applications[i].form)
  }

  ghost predicate DbOk(db: Db)
  {
    Bounded(db.accounts, db.nextId) && Bounded(db.applications, db.nextId)
    && EmailsUnique(db.accounts) && OnePerUser(db.applications) && AppsOk(db)
    && Profiles.DbOk(db.profiles)
  }

  /** With unique emails, the account `findUnique` returns is the only one with that email. */
  lemma FindByEmailUnique(db: Db, email: string, i: Id)
    requires DbOk(db) && i in db.accounts && db.accounts[i].email == email
    ensures FindByEmail(db, email) == Some(i)
  {
    FindFirstSees(db.accounts, db.nextId, ByEmail(email), i);
  }

  /** With one application per user, the row `findUnique` returns is the user's only one. */
  lemma FindApplicationUnique(db: Db, p: Program, u: Id, i: Id)
    requires DbOk(db) && i in db.applications && db.applications[i].program == p && db.applications[i].userId == u
    ensures FindApplication(db, p, u) == Some(i)
  {
    FindFirstSees(db.applications, db.nextId, ApplicationOf(p, u), i);
  }
}

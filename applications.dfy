/**
 * The ambassador program and the official-partner requests: one application
 * per user and program, edited by its owner while pending, reviewed by an
 * admin, and the review's effect on the applicant's role.
 */
module Applications {

  import opened Outcomes
  import opened Tables
  import opened Accounts
  import Paging
  import Listing
  import Sorting
  import Text

  /** The duplicate-application message. */
  function AlreadyMessage(p: Program): string
  {
    match p
    case AmbassadorProgram => "You already submitted an ambassador application."
    case PartnerProgram => "You already have an official partner request."
  }

  function MissingMessage(p: Program): string
  {
    match p
    case AmbassadorProgram => "Ambassador application not found."
    case PartnerProgram => "Official partner request not found."
  }

  const PendingOnly := "You can update only while status is PENDING."

  /** The role an approval grants. */
  function GrantedRole(p: Program): Role
  {
    match p
    case AmbassadorProgram => Ambassador
    case PartnerProgram => OfficialPartner
  }

  // ---------------------------------------------------------------------------
  // The applicant's operations

  /** apply / createRequest: refused when the user already has a row in this program's table. */
  function ApplyCheck(db: Db, p: Program, u: Id): (err: Option<Outcome<Id>>)
    ensures err.Some? ==> err.value.IsFailure()
    ensures err.None? <==> FindApplication(db, p, u).None? && u in db.accounts
    ensures FindApplication(db, p, u).Some? ==> err == Some(BadRequest(AlreadyMessage(p)))
  {
    if FindApplication(db, p, u).Some? then Some(BadRequest(AlreadyMessage(p)))
    else if u !in db.accounts then Some(Internal("Foreign key constraint violated"))
    else None
  }

  /** The new row: pending, with the submitted form. */
  function Applied(db: Db, p: Program, u: Id, form: Form, now: int): Db
  {
    db.(applications := db.applications[db.nextId := Application(p, u, Pending, form, now)], nextId := db.nextId + 1)
  }

  lemma ApplyKeepsOk(db: Db, p: Program, u: Id, form: Form, now: int)
    requires DbOk(db) && ApplyCheck(db, p, u).None? && FormFits(p, form)
    ensures DbOk(Applied(db, p, u, form, now))
  {
    var db' := Applied(db, p, u, form, now);
    forall i, j | i in db'.applications && j in db'.applications && i != j
        && db'.applications[i].program == db'.applications[j].program
      ensures db'.applications[i].userId != db'.applications[j].userId
    {
      if i == db.nextId {
        assert !ApplicationOf(p, u)(db.applications[j]);
      } else if j == db.nextId {
        assert !ApplicationOf(p, u)(db.applications[i]);
      }
    }
  }

  /** A second application in the same program is refused with nothing changed. */
  lemma ApplyOnce(db: Db, p: Program, u: Id, form: Form, now: int)
    requires DbOk(db) && ApplyCheck(db, p, u).None?
    ensures ApplyCheck(Applied(db, p, u, form, now), p, u) == Some(BadRequest(AlreadyMessage(p)))
  {
    var db' := Applied(db, p, u, form, now);
    FindFirstSees(db'.applications, db'.nextId, ApplicationOf(p, u), db.nextId);
  }

  /** getMine / getMyRequest. */
  function Mine(db: Db, p: Program, u: Id): (r: Outcome<Application>)
    ensures r.Ok? <==> FindApplication(db, p, u).Some?
    ensures r.Ok? ==> r.value.program == p && r.value.userId == u
    ensures !r.Ok? ==> r == NotFound(MissingMessage(p))
  {
    var k := FindApplication(db, p, u);
    if k.None? then NotFound(MissingMessage(p)) else Ok(db.applications[k.value])
  }

  /** After applying, the applicant reads back a pending application with the submitted form. */
  lemma ApplyThenMine(db: Db, p: Program, u: Id, form: Form, now: int)
    requires DbOk(db) && ApplyCheck(db, p, u).None? && FormFits(p, form)
    ensures Mine(Applied(db, p, u, form, now), p, u) == Ok(Application(p, u, Pending, form, now))
  {
    ApplyKeepsOk(db, p, u, form, now);
    FindApplicationUnique(Applied(db, p, u, form, now), p, u, db.nextId);
  }

  /** The edit bodies: a missing field keeps the stored value. */
  datatype AmbassadorPatch = AmbassadorPatch(
    motorspotName: Option<string>,
    contactName: Option<string>,
    email: Option<string>,
    country: Option<string>,
    instagramProfile: Option<string>,
    tiktokProfile: Option<string>,
    youTubeChanel: Option<string>,
    totalFollower: Option<nat>,
    mainCar: Option<string>,
    whyDoYouWant: Option<string>,
    releventExperience: Option<string>,
    profilePhoto: Option<string>)

  datatype PartnerPatch = PartnerPatch(
    brandLogo: Option<string>,
    brandName: Option<string>,
    contactName: Option<string>,
    contactEmail: Option<string>,
    brandDescription: Option<string>,
    websiteUrl: Option<string>,
    industry: Option<string>,
    country: Option<string>,
    companyRegistrationNumber: Option<string>)

  datatype Patch = EditAmbassador(a: AmbassadorPatch) | EditPartner(b: PartnerPatch)

  function SomeOr<T>(field: Option<T>, current: Option<T>): Option<T>
  {
    if field.Some? then field else current
  }

  function PatchAmbassador(f: AmbassadorForm, e: AmbassadorPatch): AmbassadorForm
  {
    AmbassadorForm(e.motorspotName.GetOr(f.motorspotName), e.contactName.GetOr(f.contactName),
                   e.email.GetOr(f.email), e.country.GetOr(f.country),
                   SomeOr(e.instagramProfile, f.instagramProfile), SomeOr(e.tiktokProfile, f.tiktokProfile),
                   SomeOr(e.youTubeChanel, f.youTubeChanel), e.totalFollower.GetOr(f.totalFollower),
                   SomeOr(e.mainCar, f.mainCar), e.whyDoYouWant.GetOr(f.whyDoYouWant),
                   SomeOr(e.releventExperience, f.releventExperience), SomeOr(e.profilePhoto, f.profilePhoto))
  }

  function PatchPartner(f: PartnerForm, e: PartnerPatch): PartnerForm
  {
    PartnerForm(SomeOr(e.brandLogo, f.brandLogo), e.brandName.GetOr(f.brandName), e.contactName.GetOr(f.contactName),
                e.contactEmail.GetOr(f.contactEmail), SomeOr(e.brandDescription, f.brandDescription),
                SomeOr(e.websiteUrl, f.websiteUrl), SomeOr(e.industry, f.industry), SomeOr(e.country, f.country),
                SomeOr(e.companyRegistrationNumber, f.companyRegistrationNumber))
  }

  /** The form after an edit; an edit for the other program's form does not apply. */
  function Patched(f: Form, e: Patch): (r: Form)
    ensures r.OfAmbassador? == f.OfAmbassador?
  {
    match (f, e)
    case (OfAmbassador(a), EditAmbassador(x)) => OfAmbassador(PatchAmbassador(a, x))
    case (OfPartner(b), EditPartner(y)) => OfPartner(PatchPartner(b, y))
    case _ => f
  }

  /** An edit applied twice acts once. */
  lemma PatchedIdempotent(f: Form, e: Patch)
    ensures Patched(Patched(f, e), e) == Patched(f, e)
  {
  }

  /** updateMine / updateMyRequest: only the applicant's own pending row. */
  function UpdateCheck(db: Db, p: Program, u: Id): (err: Option<Outcome<Application>>)
    ensures err.Some? ==> err.value.IsFailure()
    ensures err.None? <==> FindApplication(db, p, u).Some? && db.applications[FindApplication(db, p, u).value].status == Pending
    ensures FindApplication(db, p, u).None? ==> err == Some(NotFound(MissingMessage(p)))
    ensures (FindApplication(db, p, u).Some? && db.applications[FindApplication(db, p, u).value].status != Pending)
      ==> err == Some(Forbidden(PendingOnly))
  {
    var k := FindApplication(db, p, u);
    if k.None? then Some(NotFound(MissingMessage(p)))
    else if db.applications[k.value].status != Pending then Some(Forbidden(PendingOnly))
    else None
  }

  function Updated(db: Db, k: Id, e: Patch): Db
    requires k in db.applications
  {
    db.(applications := db.applications[k := db.applications[k].(form := Patched(db.applications[k].form, e))])
  }

  /** An edit keeps the row's program, owner, status and date, so the tables stay consistent. */
  lemma UpdateKeepsOk(db: Db, k: Id, e: Patch)
    requires DbOk(db) && k in db.applications
    ensures DbOk(Updated(db, k, e))
    ensures var a, a' := db.applications[k], Updated(db, k, e).applications[k];
      a'.program == a.program && a'.userId == a.userId && a'.status == a.status && a'.createdAt == a.createdAt
  {
  }

  /** deleteMine / deleteMyRequest: allowed in every status. */
  function DeleteCheck(db: Db, p: Program, u: Id): (err: Option<Outcome<bool>>)
    ensures err.None? <==> FindApplication(db, p, u).Some?
    ensures err.Some? ==> err == Some(NotFound(MissingMessage(p)))
  {
    if FindApplication(db, p, u).None? then Some(NotFound(MissingMessage(p))) else None
  }

  function Deleted(db: Db, k: Id): Db
  {
    db.(applications := db.applications - {k})
  }

  lemma DeleteKeepsOk(db: Db, k: Id)
    requires DbOk(db)
    ensures DbOk(Deleted(db, k))
  {
  }

  /** Once the row is deleted the user may apply again, whatever its status was. */
  lemma DeleteThenApply(db: Db, p: Program, u: Id)
    requires DbOk(db) && DeleteCheck(db, p, u).None? && u in db.accounts
    ensures ApplyCheck(Deleted(db, FindApplication(db, p, u).value), p, u).None?
  {
    var k := FindApplication(db, p, u).value;
    var db' := Deleted(db, k);
    var r := FindApplication(db', p, u);
    if r.Some? {
      assert false;
    }
  }

  // ---------------------------------------------------------------------------
  // The admin's operations

  /** getById: a row of this program's table. */
  function ById(db: Db, p: Program, k: Id): (r: Outcome<Application>)
    ensures r.Ok? <==> k in db.applications && db.applications[k].program == p
    ensures r.Ok? ==> r.value == db.applications[k]
    ensures !r.Ok? ==> r == NotFound(MissingMessage(p))
  {
    if k in db.applications && db.applications[k].program == p then Ok(db.applications[k]) else NotFound(MissingMessage(p))
  }

  /** The applicant's role after a review. */
  function RoleAfter(p: Program, s: Review, current: Role): (r: Role)
    ensures s == Approved ==> r == GrantedRole(p)
    ensures s == Rejected ==> r == User
    ensures s == Pending ==> r == current
  {
    match s
    case Approved => GrantedRole(p)
    case Rejected => User
    case Pending => current
  }

  /**
   * updateStatus: any status may follow any other; the row gets the new
   * status and its applicant the role the review implies.
   */
  function Reviewed(db: Db, k: Id, s: Review): Db
    requires k in db.applications
  {
    var a := db.applications[k];
    var db1 := db.(applications := db.applications[k := a.(status := s)]);
    if a.userId in db.accounts then
      db1.(accounts := db.accounts[a.userId := db.accounts[a.userId].(role := RoleAfter(a.program, s, db.accounts[a.userId].role))])
    else db1
  }

  lemma ReviewKeepsOk(db: Db, k: Id, s: Review)
    requires DbOk(db) && k in db.applications
    ensures DbOk(Reviewed(db, k, s))
  {
  }

  /**
   * A review sets the status it is given, whatever the previous one was, and
   * changes no user's role but the applicant's.
   */
  lemma ReviewSetsStatus(db: Db, k: Id, s: Review, v: Id)
    requires DbOk(db) && k in db.applications
    ensures var db' := Reviewed(db, k, s); var a := db.applications[k];
      db'.applications[k].status == s && db'.accounts[a.userId].role == RoleAfter(a.program, s, db.accounts[a.userId].role)
      && (v in db.accounts && v != a.userId ==> v in db'.accounts && db'.accounts[v] == db.accounts[v])
  {
  }

  /**
   * Rejection sets the role to `USER` whatever it was: rejecting an
   * ambassador application also takes away an admin's or an approved
   * official partner's role.
   */
  lemma RejectResetsAnyRole(db: Db, k: Id)
    requires DbOk(db) && k in db.applications
    ensures Reviewed(db, k, Rejected).accounts[db.applications[k].userId].role == User
  {
  }

  /** After approval the applicant holds the program's role and its row is no longer editable. */
  lemma ApproveThenEdit(db: Db, k: Id)
    requires DbOk(db) && k in db.applications
    ensures var a := db.applications[k]; var db' := Reviewed(db, k, Approved);
      db'.accounts[a.userId].role == GrantedRole(a.program)
      && UpdateCheck(db', a.program, a.userId) == Some(Forbidden(PendingOnly))
  {
    var a := db.applications[k];
    var db' := Reviewed(db, k, Approved);
    ReviewKeepsOk(db, k, Approved);
    FindApplicationUnique(db', a.program, a.userId, k);
  }

  // ---------------------------------------------------------------------------
  // The admin listing

  datatype ListQuery = ListQuery(page: Option<int>, limit: Option<int>, status: Option<Review>, search: Option<string>)

  /** `Math.max(parseInt(page ?? '1'), 1)`. */
  function PageOf(q: ListQuery): (r: nat)
    ensures r >= 1
    ensures q.page.None? ==> r == 1
    ensures q.page.Some? && q.page.value >= 1 ==> r == q.page.value
  {
    Paging.Max(q.page.GetOr(1), 1)
  }

  /** `Math.min(Math.max(parseInt(limit ?? '10'), 1), 100)`. */
  function LimitOf(q: ListQuery): (r: nat)
    ensures 1 <= r <= 100
    ensures q.limit.None? ==> r == 10
    ensures q.limit.Some? && 1 <= q.limit.value <= 100 ==> r == q.limit.value
  {
    Paging.Min(Paging.Max(q.limit.GetOr(10), 1), 100)
  }

  /** The searched columns: names and the contact email. */
  function SearchColumns(f: Form): seq<string>
  {
    match f
    case OfAmbassador(a) => [a.motorspotName, a.contactName, a.email]
    case OfPartner(b) => [b.brandName, b.contactName, b.contactEmail]
  }

  predicate SearchHit(f: Form, term: string)
  {
    var c := SearchColumns(f);
    Text.ContainsFold(c[0], term) || Text.ContainsFold(c[1], term) || Text.ContainsFold(c[2], term)
  }

  /** The listing's `where`: this program, the status filter and the search. */
  function ListWhere(p: Program, q: ListQuery): Application -> bool
  {
    var term := Text.SearchTerm(q.search);
    (a: Application) => a.program == p && (q.status.None? || a.status == q.status.value)
      && (term.None? || SearchHit(a.form, term.value))
  }

  datatype ListPage = ListPage(page: nat, limit: nat, total: nat, items: seq<Id>)

  function AppCreatedAt(a: Application): int { a.createdAt }

  /** Every application of the program matching the query, newest first. */
  function Matches(db: Db, p: Program, q: ListQuery): seq<Id>
  {
    Listing.FindMany(db.applications, db.nextId, ListWhere(p, q), Listing.NewestFirst(db.applications, AppCreatedAt))
  }

  /** list: one page, newest first, with the count of all matching rows. */
  function List(db: Db, p: Program, q: ListQuery): (r: ListPage)
    ensures r.page == PageOf(q) && r.limit == LimitOf(q) && |r.items| <= r.limit
    ensures r.total == Count(db.applications, ListWhere(p, q))
    ensures r.items == Paging.Window(Matches(db, p, q), Paging.PageSkip(r.page, r.limit), r.limit)
    ensures forall k :: 0 <= k < |r.items| ==> r.items[k] in db.applications && ListWhere(p, q)(db.applications[r.items[k]])
    ensures forall a, b :: 0 <= a < b < |r.items| ==>
      db.applications[r.items[a]].createdAt >= db.applications[r.items[b]].createdAt
  {
    var page, limit := PageOf(q), LimitOf(q);
    var rank := Listing.NewestFirst(db.applications, AppCreatedAt);
    var items := Listing.FindPage(db.applications, db.nextId, ListWhere(p, q), rank, Paging.PageSkip(page, limit), limit);
    Listing.NewestPage(db.applications, db.nextId, ListWhere(p, q), AppCreatedAt, Paging.PageSkip(page, limit), limit);
    ListPage(page, limit, Count(db.applications, ListWhere(p, q)), items)
  }

  /** The pages partition the matching applications: each is listed on exactly one page. */
  lemma ListCovers(db: Db, p: Program, q: ListQuery, k: Id)
    requires Bounded(db.applications, db.nextId)
    requires k in db.applications && ListWhere(p, q)(db.applications[k])
    ensures exists page: nat :: page >= 1 && k in Paging.Window(Matches(db, p, q), Paging.PageSkip(page, LimitOf(q)), LimitOf(q))
    ensures List(db, p, q).total == |Matches(db, p, q)|
  {
    Paging.PagesPartition(Matches(db, p, q), LimitOf(q), k);
    Listing.FindManyCount(db.applications, db.nextId, ListWhere(p, q), Listing.NewestFirst(db.applications, AppCreatedAt));
  }
}

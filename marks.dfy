/**
 * Saved posts, hidden posts and reports: keyed sets of rows that a user
 * adds to and removes from, with a duplicate error on add and a missing
 * error on remove.
 */
module Marks {

  import opened Outcomes
  import opened Tables
  import opened SocialDb
  import Listing

  /** The two `(userId, postId)` tables: `savePost` and `hidePost`. */
  datatype MarkKind = Saved | Hidden

  function Table(db: Db, kind: MarkKind): map<Id, Mark>
  {
    if kind == Saved then db.saves else db.hides
  }

  function WithTable(db: Db, kind: MarkKind, m: map<Id, Mark>): (db': Db)
    ensures Table(db', kind) == m
  {
    if kind == Saved then db.(saves := m) else db.(hides := m)
  }

  /** `findUnique` on the `(userId, postId)` key. */
  function FindMark(db: Db, kind: MarkKind, u: Id, p: Id): (r: Option<Id>)
    ensures r.Some? ==> r.value in Table(db, kind) && r.value < db.nextId && MarkKey(Table(db, kind)[r.value]) == (u, p)
    ensures r.None? ==> forall i :: i in Table(db, kind) && i < db.nextId ==> MarkKey(Table(db, kind)[i]) != (u, p)
  {
    FindFirst(Table(db, kind), db.nextId, (x: Mark) => MarkKey(x) == (u, p))
  }

  /** isPostSaved / isPostHidden. */
  function IsMarked(db: Db, kind: MarkKind, u: Id, p: Id): bool
  {
    FindMark(db, kind, u, p).Some?
  }

  /** savePost / hidePost refuse a pair already in the table. */
  function MarkCheck(db: Db, kind: MarkKind, u: Id, p: Id): (err: Option<Outcome<Id>>)
    ensures err.Some? ==> err.value.IsFailure()
    ensures err.None? <==> !IsMarked(db, kind, u, p)
    ensures IsMarked(db, kind, u, p) && kind == Saved ==> err == Some(BadRequest("Post already saved"))
    ensures IsMarked(db, kind, u, p) && kind == Hidden ==> err == Some(BadRequest("Post already hidden"))
  {
    if !IsMarked(db, kind, u, p) then None
    else if kind == Saved then Some(BadRequest("Post already saved"))
    else Some(BadRequest("Post already hidden"))
  }

  /** The tables after savePost / hidePost: one row at id `nextId`. */
  function Marked(db: Db, kind: MarkKind, u: Id, p: Id, now: int): Db
  {
    WithTable(db, kind, Table(db, kind)[db.nextId := Mark(u, p, now)]).(nextId := db.nextId + 1)
  }

  /** unsavePost / unhidePost refuse a pair not in the table. */
  function UnmarkCheck(db: Db, kind: MarkKind, u: Id, p: Id): (err: Option<Outcome<bool>>)
    ensures err.Some? ==> err.value.IsFailure()
    ensures err.None? <==> IsMarked(db, kind, u, p)
    ensures !IsMarked(db, kind, u, p) && kind == Saved ==> err == Some(NotFound("Saved post not found"))
    ensures !IsMarked(db, kind, u, p) && kind == Hidden ==> err == Some(NotFound("Hidden post not found"))
  {
    if IsMarked(db, kind, u, p) then None
    else if kind == Saved then Some(NotFound("Saved post not found"))
    else Some(NotFound("Hidden post not found"))
  }

  /** The tables after unsavePost / unhidePost: that one row is gone. */
  function Unmarked(db: Db, kind: MarkKind, u: Id, p: Id): Db
    requires IsMarked(db, kind, u, p)
  {
    WithTable(db, kind, Table(db, kind) - {FindMark(db, kind, u, p).value})
  }

  lemma MarkKeepsOk(db: Db, kind: MarkKind, u: Id, p: Id, now: int)
    requires DbOk(db) && !IsMarked(db, kind, u, p)
    ensures DbOk(Marked(db, kind, u, p, now))
  {
    UniqueInsert(Table(db, kind), db.nextId, Mark(u, p, now), MarkKey);
  }

  lemma UnmarkKeepsOk(db: Db, kind: MarkKind, u: Id, p: Id)
    requires DbOk(db) && IsMarked(db, kind, u, p)
    ensures DbOk(Unmarked(db, kind, u, p))
  {
  }

  /** After a save (or hide) the pair is marked and a second attempt is refused. */
  lemma MarkOnce(db: Db, kind: MarkKind, u: Id, p: Id, now: int)
    ensures var db' := Marked(db, kind, u, p, now);
      IsMarked(db', kind, u, p) && MarkCheck(db', kind, u, p).Some?
  {
    var db' := Marked(db, kind, u, p, now);
    FindFirstSees(Table(db', kind), db'.nextId, (x: Mark) => MarkKey(x) == (u, p), db.nextId);
  }

  /** On a fresh pair, the new row is the one the key finds. */
  lemma FindsNewMark(db: Db, kind: MarkKind, u: Id, p: Id, now: int)
    requires Bounded(Table(db, kind), db.nextId) && !IsMarked(db, kind, u, p)
    ensures FindMark(Marked(db, kind, u, p, now), kind, u, p) == Some(db.nextId)
  {
    var db' := Marked(db, kind, u, p, now);
    FindFirstSees(Table(db', kind), db'.nextId, (x: Mark) => MarkKey(x) == (u, p), db.nextId);
  }

  /** A save (or hide) leaves every other pair of the same table as it was. */
  lemma MarkKeepsOthers(db: Db, kind: MarkKind, u: Id, p: Id, now: int, u': Id, p': Id)
    requires (u', p') != (u, p)
    ensures IsMarked(Marked(db, kind, u, p, now), kind, u', p') == IsMarked(db, kind, u', p')
  {
    var db' := Marked(db, kind, u, p, now);
    var q := (x: Mark) => MarkKey(x) == (u', p');
    if FindMark(db', kind, u', p').Some? {
      var i := FindMark(db', kind, u', p').value;
      assert i != db.nextId;
      FindFirstSees(Table(db, kind), db.nextId, q, i);
    }
    if FindMark(db, kind, u', p').Some? {
      FindFirstSees(Table(db', kind), db'.nextId, q, FindMark(db, kind, u', p').value);
    }
  }

  /** Saving does not hide, and hiding does not save. */
  lemma MarkLeavesOtherKind(db: Db, kind: MarkKind, u: Id, p: Id, now: int, other: MarkKind, u': Id, p': Id)
    requires other != kind && Bounded(Table(db, other), db.nextId)
    ensures IsMarked(Marked(db, kind, u, p, now), other, u', p') == IsMarked(db, other, u', p')
  {
    FindFirstBeyond(Table(db, other), db.nextId, db.nextId + 1, (x: Mark) => MarkKey(x) == (u', p'));
  }

  /**
   * An unsave (or unhide) removes exactly the one pair: afterwards it is no
   * longer marked, and under unique keys every other pair reads as before.
   */
  lemma UnmarkOnce(db: Db, kind: MarkKind, u: Id, p: Id, u': Id, p': Id)
    requires UniqueKey(Table(db, kind), MarkKey) && IsMarked(db, kind, u, p)
    ensures var db' := Unmarked(db, kind, u, p);
      !IsMarked(db', kind, u, p)
      && ((u', p') != (u, p) ==> IsMarked(db', kind, u', p') == IsMarked(db, kind, u', p'))
  {
    var db' := Unmarked(db, kind, u, p);
    if (u', p') != (u, p) && IsMarked(db, kind, u', p') {
      var j := FindMark(db, kind, u', p').value;
      FindFirstSees(Table(db', kind), db'.nextId, (x: Mark) => MarkKey(x) == (u', p'), j);
    }
  }

  /** Saving and then unsaving gives the table back. */
  lemma MarkThenUnmark(db: Db, kind: MarkKind, u: Id, p: Id, now: int)
    requires Bounded(Table(db, kind), db.nextId) && !IsMarked(db, kind, u, p)
    ensures var db' := Marked(db, kind, u, p, now);
      IsMarked(db', kind, u, p) && Table(Unmarked(db', kind, u, p), kind) == Table(db, kind)
  {
    var db' := Marked(db, kind, u, p, now);
    FindsNewMark(db, kind, u, p, now);
    assert Table(db', kind) - {db.nextId} == Table(db, kind);
  }

  function MarksOf(u: Id): Mark -> bool { (x: Mark) => x.userId == u }

  /** getMySavedPosts / getMyHiddenPosts: the caller's rows, newest first. */
  function MyMarks(db: Db, kind: MarkKind, u: Id): (r: seq<Id>)
    ensures forall i :: i in r <==> i < db.nextId && i in Table(db, kind) && Table(db, kind)[i].userId == u
    ensures forall a, b :: 0 <= a < b < |r| ==> Table(db, kind)[r[a]].createdAt >= Table(db, kind)[r[b]].createdAt
    ensures forall a, b :: 0 <= a < b < |r| ==> r[a] != r[b]
  {
    Listing.ByDate(Table(db, kind), db.nextId, MarksOf(u), (x: Mark) => x.createdAt, true)
  }

  // ---------------------------------------------------------------------------
  // Reports

  datatype ReportDto = ReportDto(targetType: string, targetId: Id, description: Option<string>)

  /** `findUnique` on the `(userId, targetId, targetType)` key. */
  function FindReport(db: Db, u: Id, target: Id, targetType: string): (r: Option<Id>)
    ensures r.Some? ==> r.value in db.reports && r.value < db.nextId && ReportKey(db.reports[r.value]) == (u, target, targetType)
    ensures r.None? ==> forall i :: i in db.reports && i < db.nextId ==> ReportKey(db.reports[i]) != (u, target, targetType)
  {
    FindFirst(db.reports, db.nextId, (x: Report) => ReportKey(x) == (u, target, targetType))
  }

  function ReportCheck(db: Db, u: Id, dto: ReportDto): (err: Option<Outcome<Id>>)
    ensures err.Some? ==> err.value.IsFailure()
    ensures err.None? <==> FindReport(db, u, dto.targetId, dto.targetType).None?
    ensures err.Some? ==> err == Some(BadRequest("You have already reported this item"))
  {
    if FindReport(db, u, dto.targetId, dto.targetType).Some? then Some(BadRequest("You have already reported this item"))
    else None
  }

  /** The tables after createReport: one row, the description null when absent. */
  function Reported(db: Db, u: Id, dto: ReportDto, now: int): Db
  {
    db.(reports := db.reports[db.nextId := Report(u, dto.targetId, dto.targetType, dto.description, now)],
        nextId := db.nextId + 1)
  }

  /** removeReport answers a missing report with BadRequest, not NotFound. */
  function RemoveCheck(db: Db, u: Id, target: Id, targetType: string): (err: Option<Outcome<bool>>)
    ensures err.Some? ==> err.value.IsFailure()
    ensures err.None? <==> FindReport(db, u, target, targetType).Some?
    ensures err.Some? ==> err == Some(BadRequest("Report not found"))
  {
    if FindReport(db, u, target, targetType).None? then Some(BadRequest("Report not found")) else None
  }

  function Removed(db: Db, u: Id, target: Id, targetType: string): Db
    requires FindReport(db, u, target, targetType).Some?
  {
    db.(reports := db.reports - {FindReport(db, u, target, targetType).value})
  }

  lemma ReportKeys(db: Db, u: Id, dto: ReportDto, now: int)
    requires KeysOk(db) && Bounded(db.reports, db.nextId) && ReportCheck(db, u, dto).None?
    ensures KeysOk(Reported(db, u, dto, now))
  {
    UniqueInsert(db.reports, db.nextId, Report(u, dto.targetId, dto.targetType, dto.description, now), ReportKey);
  }

  lemma ReportKeepsOk(db: Db, u: Id, dto: ReportDto, now: int)
    requires DbOk(db) && ReportCheck(db, u, dto).None?
    ensures DbOk(Reported(db, u, dto, now))
  {
    ReportKeys(db, u, dto, now);
  }

  /** The new report is the one the key finds. */
  lemma FindsNewReport(db: Db, u: Id, dto: ReportDto, now: int)
    requires Bounded(db.reports, db.nextId) && ReportCheck(db, u, dto).None?
    ensures FindReport(Reported(db, u, dto, now), u, dto.targetId, dto.targetType) == Some(db.nextId)
  {
    var db' := Reported(db, u, dto, now);
    FindFirstSees(db'.reports, db'.nextId, (x: Report) => ReportKey(x) == (u, dto.targetId, dto.targetType), db.nextId);
  }

  lemma RemoveKeepsOk(db: Db, u: Id, target: Id, targetType: string)
    requires DbOk(db) && FindReport(db, u, target, targetType).Some?
    ensures DbOk(Removed(db, u, target, targetType))
  {
  }

  /** A report is refused the second time, and removing it gives the report table back. */
  lemma ReportThenRemove(db: Db, u: Id, dto: ReportDto, now: int)
    requires Bounded(db.reports, db.nextId) && ReportCheck(db, u, dto).None?
    ensures var db' := Reported(db, u, dto, now);
      ReportCheck(db', u, dto).Some? && RemoveCheck(db', u, dto.targetId, dto.targetType).None?
      && Removed(db', u, dto.targetId, dto.targetType).reports == db.reports
  {
    var db' := Reported(db, u, dto, now);
    FindsNewReport(db, u, dto, now);
    assert db'.reports - {db.nextId} == db.reports;
  }

  function ReportsOf(u: Id): Report -> bool { (x: Report) => x.userId == u }

  /** getUserReports: the caller's reports, newest first. */
  function UserReports(db: Db, u: Id): (r: seq<Id>)
    ensures forall i :: i in r <==> i < db.nextId && i in db.reports && db.reports[i].userId == u
    ensures forall a, b :: 0 <= a < b < |r| ==> db.reports[r[a]].createdAt >= db.reports[r[b]].createdAt
    ensures forall a, b :: 0 <= a < b < |r| ==> r[a] != r[b]
  {
    Listing.ByDate(db.reports, db.nextId, ReportsOf(u), (x: Report) => x.createdAt, true)
  }
}

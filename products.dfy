/**
 * The marketplace: product listings, their paid highlights, and the public
 * feed that shows highlighted products first within each page.
 */
module Products {

  import opened Outcomes
  import opened Tables
  import Sorting
  import Paging
  import Listing
  import Text

  /** One hour in the milliseconds a JavaScript `Date` counts. */
  const MillisPerHour: int := 60 * 60 * 1000

  datatype HighlightStatus = Pending | Active | Expired | Cancelled

  /** The enum value as the database stores it, as it appears in messages. */
  function StatusName(s: HighlightStatus): string
  {
    match s
    case Pending => "PENDING"
    case Active => "ACTIVE"
    case Expired => "EXPIRED"
    case Cancelled => "CANCELLED"
  }

  datatype Product = Product(
    ownerId: Id,
    title: string,
    productImage: Option<string>,
    description: Option<string>,
    category: string,
    tags: seq<string>,
    carBrand: Option<string>,
    carModel: Option<string>,
    price: nat,
    quantity: nat,
    showWhatsappNo: bool,
    createdAt: int)

  datatype Highlight = Highlight(
    productId: Id,
    durationHours: nat,
    chargeAmount: nat,
    status: HighlightStatus,
    paidAt: Option<int>,
    startDate: Option<int>,
    endDate: Option<int>)

  datatype ProductDb = ProductDb(products: map<Id, Product>, highlights: map<Id, Highlight>, nextId: Id)

  /** Ids are below `nextId`, and an active highlight has its dates. */
  ghost predicate DbOk(db: ProductDb)
  {
    Bounded(db.products, db.nextId) && Bounded(db.highlights, db.nextId)
    && forall h :: h in db.highlights && db.highlights[h].status == Active ==>
      db.highlights[h].startDate.Some? && db.highlights[h].endDate.Some?
  }

  // ---------------------------------------------------------------------------
  // Products

  datatype CreateProductDto = CreateProductDto(
    title: string,
    productImage: Option<string>,
    description: Option<string>,
    category: Option<string>,
    tags: Option<seq<string>>,
    carBrand: Option<string>,
    carModel: Option<string>,
    price: nat,
    quantity: nat,
    showWhatsappNo: Option<bool>)

  const DefaultCategory := "Car_Parts"

  /** createProduct's row: category `Car_Parts`, no tags and the WhatsApp number hidden unless given. */
  function NewProduct(owner: Id, dto: CreateProductDto, now: int): (p: Product)
    ensures dto.category.None? ==> p.category == DefaultCategory
    ensures dto.tags.None? ==> p.tags == []
    ensures dto.showWhatsappNo.None? ==> !p.showWhatsappNo
    ensures p.ownerId == owner && p.title == dto.title && p.price == dto.price && p.quantity == dto.quantity
  {
    Product(owner, dto.title, dto.productImage, dto.description, dto.category.GetOr(DefaultCategory),
            dto.tags.GetOr([]), dto.carBrand, dto.carModel, dto.price, dto.quantity,
            dto.showWhatsappNo.GetOr(false), now)
  }

  function Created(db: ProductDb, owner: Id, dto: CreateProductDto, now: int): ProductDb
  {
    db.(products := db.products[db.nextId := NewProduct(owner, dto, now)], nextId := db.nextId + 1)
  }

  /** The update body: a field that is missing or null is left alone. */
  datatype UpdateProductDto = UpdateProductDto(
    title: Option<string>,
    productImage: Option<string>,
    description: Option<string>,
    category: Option<string>,
    tags: Option<seq<string>>,
    carBrand: Option<string>,
    carModel: Option<string>,
    price: Option<nat>,
    quantity: Option<nat>,
    showWhatsappNo: Option<bool>)

  function SomeOr<T>(field: Option<T>, current: Option<T>): Option<T>
  {
    if field.Some? then field else current
  }

  /** The product after updateProduct copies the given fields. */
  function Apply(p: Product, dto: UpdateProductDto): (r: Product)
    ensures r.ownerId == p.ownerId && r.createdAt == p.createdAt
  {
    p.(title := dto.title.GetOr(p.title),
       productImage := SomeOr(dto.productImage, p.productImage),
       description := SomeOr(dto.description, p.description),
       category := dto.category.GetOr(p.category),
       tags := dto.tags.GetOr(p.tags),
       carBrand := SomeOr(dto.carBrand, p.carBrand),
       carModel := SomeOr(dto.carModel, p.carModel),
       price := dto.price.GetOr(p.price),
       quantity := dto.quantity.GetOr(p.quantity),
       showWhatsappNo := dto.showWhatsappNo.GetOr(p.showWhatsappNo))
  }

  /** A field can be set but never cleared: a present value stays present. */
  lemma ApplyNeverClears(p: Product, dto: UpdateProductDto)
    ensures var r := Apply(p, dto);
      (p.productImage.Some? ==> r.productImage.Some?) && (p.description.Some? ==> r.description.Some?)
      && (p.carBrand.Some? ==> r.carBrand.Some?) && (p.carModel.Some? ==> r.carModel.Some?)
  {
  }

  /** An empty body leaves the product as it was, and a body applied twice acts once. */
  lemma ApplyIdempotent(p: Product, dto: UpdateProductDto)
    ensures Apply(Apply(p, dto), dto) == Apply(p, dto)
    ensures Apply(p, UpdateProductDto(None, None, None, None, None, None, None, None, None, None)) == p
  {
  }

  /** The owner check of updateProduct, deleteProduct and requestHighlight. */
  function OwnerCheck(db: ProductDb, u: Id, k: Id): (err: Option<Outcome<Id>>)
    ensures err.Some? ==> err.value.IsFailure()
    ensures err.None? <==> (k in db.products && db.products[k].ownerId == u)
    ensures k !in db.products ==> err == Some(NotFound("Product not found"))
    ensures k in db.products && db.products[k].ownerId != u ==> err == Some(Forbidden("Not your product"))
  {
    if k !in db.products then Some(NotFound("Product not found"))
    else if db.products[k].ownerId != u then Some(Forbidden("Not your product"))
    else None
  }

  function Updated(db: ProductDb, k: Id, dto: UpdateProductDto): ProductDb
    requires k in db.products
  {
    db.(products := db.products[k := Apply(db.products[k], dto)])
  }

  /** deleteProduct removes the listing; its highlight rows are left as they are. */
  function Deleted(db: ProductDb, k: Id): ProductDb
  {
    db.(products := db.products - {k})
  }

  /** getSingleProduct. */
  function SingleProduct(db: ProductDb, k: Id): (r: Outcome<Product>)
    ensures k !in db.products <==> r == NotFound("Product not found")
    ensures r.Ok? ==> k in db.products && r.value == db.products[k]
  {
    if k !in db.products then NotFound("Product not found") else Ok(db.products[k])
  }

  function OwnedBy(u: Id): Product -> bool { (p: Product) => p.ownerId == u }

  /** getMyProducts: the owner's listings, newest first. */
  function MyProducts(db: ProductDb, u: Id): (r: seq<Id>)
    ensures forall k :: k in r <==> k < db.nextId && k in db.products && db.products[k].ownerId == u
    ensures forall a, b :: 0 <= a < b < |r| ==> db.products[r[a]].createdAt >= db.products[r[b]].createdAt
    ensures forall a, b :: 0 <= a < b < |r| ==> r[a] != r[b]
  {
    Listing.ByDate(db.products, db.nextId, OwnedBy(u), (p: Product) => p.createdAt, true)
  }

  /** getSingleProduct returns the listing createProduct stored, and getMyProducts lists it. */
  lemma CreateThenGet(db: ProductDb, owner: Id, dto: CreateProductDto, now: int)
    ensures var db' := Created(db, owner, dto, now);
      SingleProduct(db', db.nextId) == Ok(NewProduct(owner, dto, now)) && db.nextId in MyProducts(db', owner)
  {
  }

  /** Only the owner may update: any other user is refused, and the owner's update keeps the row's owner. */
  lemma UpdateByOwnerOnly(db: ProductDb, u: Id, k: Id, dto: UpdateProductDto)
    requires OwnerCheck(db, u, k).None?
    ensures var db' := Updated(db, k, dto);
      k in db'.products && db'.products[k].ownerId == u
      && forall v :: v != u ==> OwnerCheck(db', v, k) == Some(Forbidden("Not your product"))
  {
  }

  /** After a delete the product is gone: reading or deleting it again is `Product not found`. */
  lemma DeleteThenGet(db: ProductDb, u: Id, k: Id)
    ensures SingleProduct(Deleted(db, k), k) == NotFound("Product not found")
    ensures OwnerCheck(Deleted(db, k), u, k) == Some(NotFound("Product not found"))
  {
  }

  lemma CreateKeepsOk(db: ProductDb, owner: Id, dto: CreateProductDto, now: int)
    requires DbOk(db) && ActiveDisjoint(db)
    ensures DbOk(Created(db, owner, dto, now)) && ActiveDisjoint(Created(db, owner, dto, now))
  {
  }

  lemma UpdateKeepsOk(db: ProductDb, k: Id, dto: UpdateProductDto)
    requires DbOk(db) && ActiveDisjoint(db) && k in db.products
    ensures DbOk(Updated(db, k, dto)) && ActiveDisjoint(Updated(db, k, dto))
  {
  }

  lemma DeleteKeepsOk(db: ProductDb, k: Id)
    requires DbOk(db) && ActiveDisjoint(db)
    ensures DbOk(Deleted(db, k)) && ActiveDisjoint(Deleted(db, k))
  {
  }

  /** listPublic: every product, newest first. */
  function ListPublic(db: ProductDb): (r: seq<Id>)
    ensures forall k :: k in r <==> k < db.nextId && k in db.products
    ensures forall a, b :: 0 <= a < b < |r| ==> db.products[r[a]].createdAt >= db.products[r[b]].createdAt
    ensures forall a, b :: 0 <= a < b < |r| ==> r[a] != r[b]
  {
    Listing.ByDate(db.products, db.nextId, (p: Product) => true, (p: Product) => p.createdAt, true)
  }

  // ---------------------------------------------------------------------------
  // Highlights

  /** A highlight that puts its product first at time `now`: active and not yet ended. */
  predicate IsLive(h: Highlight, now: int)
  {
    h.status == Active && h.endDate.Some? && h.endDate.value > now
  }

  function LiveOf(p: Id, now: int): Highlight -> bool { (h: Highlight) => h.productId == p && IsLive(h, now) }

  /** requestHighlight's `findFirst` for a live highlight of the product. */
  function FindLive(db: ProductDb, p: Id, now: int): (r: Option<Id>)
    ensures r.Some? ==> r.value in db.highlights && db.highlights[r.value].productId == p && IsLive(db.highlights[r.value], now)
    ensures r.None? ==> forall h :: h in db.highlights && h < db.nextId && db.highlights[h].productId == p ==> !IsLive(db.highlights[h], now)
  {
    FindFirst(db.highlights, db.nextId, LiveOf(p, now))
  }

  datatype CreateHighlightDto = CreateHighlightDto(durationHours: nat, chargeAmount: nat)

  function RequestCheck(db: ProductDb, u: Id, p: Id, now: int): (err: Option<Outcome<Id>>)
    ensures err.Some? ==> err.value.IsFailure()
    ensures err.None? <==> (OwnerCheck(db, u, p).None? && FindLive(db, p, now).None?)
    ensures OwnerCheck(db, u, p).Some? ==> err == OwnerCheck(db, u, p)
    ensures (OwnerCheck(db, u, p).None? && FindLive(db, p, now).Some?)
      ==> err == Some(BadRequest("This product is already highlighted"))
  {
    if OwnerCheck(db, u, p).Some? then OwnerCheck(db, u, p)
    else if FindLive(db, p, now).Some? then Some(BadRequest("This product is already highlighted"))
    else None
  }

  /** requestHighlight's row: pending, with the requested duration and charge and no dates. */
  function Requested(db: ProductDb, p: Id, dto: CreateHighlightDto): ProductDb
  {
    db.(highlights := db.highlights[db.nextId := Highlight(p, dto.durationHours, dto.chargeAmount, Pending, None, None, None)],
        nextId := db.nextId + 1)
  }

  /**
   * The lookup both highlight transitions start with. A highlight whose
   * product row is gone has no owner to read, which fails as an internal
   * error.
   */
  function HighlightOwnerCheck(db: ProductDb, u: Id, h: Id, missing: string): (err: Option<Outcome<Highlight>>)
    ensures err.Some? ==> err.value.IsFailure()
    ensures err.None? <==> (h in db.highlights && db.highlights[h].productId in db.products
      && db.products[db.highlights[h].productId].ownerId == u)
    ensures h !in db.highlights ==> err == Some(NotFound(missing))
    ensures (h in db.highlights && db.highlights[h].productId in db.products
      && db.products[db.highlights[h].productId].ownerId != u) ==> err == Some(Forbidden("Not your product"))
  {
    if h !in db.highlights then Some(NotFound(missing))
    else if db.highlights[h].productId !in db.products then Some(Internal("Cannot read properties of null (reading 'ownerId')"))
    else if db.products[db.highlights[h].productId].ownerId != u then Some(Forbidden("Not your product"))
    else None
  }

  /** confirmHighlightPayment's guards as written: only a pending request can be paid. */
  function ConfirmCheckAsWritten(db: ProductDb, u: Id, h: Id): (err: Option<Outcome<Highlight>>)
    ensures err.Some? ==> err.value.IsFailure()
    ensures err.None? <==> (HighlightOwnerCheck(db, u, h, "Highlight request not found").None? && db.highlights[h].status == Pending)
    ensures (HighlightOwnerCheck(db, u, h, "Highlight request not found").None? && db.highlights[h].status != Pending)
      ==> err == Some(BadRequest("Cannot confirm payment from status " + StatusName(db.highlights[h].status)))
  {
    var e := HighlightOwnerCheck(db, u, h, "Highlight request not found");
    if e.Some? then e
    else if db.highlights[h].status != Pending then
      Some(BadRequest("Cannot confirm payment from status " + StatusName(db.highlights[h].status)))
    else None
  }

  /**
   * confirmHighlightPayment's guards with the check requestHighlight makes
   * repeated at payment time: a product already live again cannot be paid
   * for a second, overlapping highlight.
   */
  function ConfirmCheck(db: ProductDb, u: Id, h: Id, now: int): (err: Option<Outcome<Highlight>>)
    ensures err.Some? ==> err.value.IsFailure()
    ensures err.None? <==> (ConfirmCheckAsWritten(db, u, h).None? && FindLive(db, db.highlights[h].productId, now).None?)
    ensures ConfirmCheckAsWritten(db, u, h).Some? ==> err == ConfirmCheckAsWritten(db, u, h)
  {
    var e := ConfirmCheckAsWritten(db, u, h);
    if e.Some? then e
    else if FindLive(db, db.highlights[h].productId, now).Some? then Some(BadRequest("This product is already highlighted"))
    else None
  }

  /** The paid highlight: active from `now` for its duration in hours. */
  function Paid(x: Highlight, now: int): (r: Highlight)
    ensures r.status == Active && r.paidAt == Some(now) && r.startDate == Some(now)
    ensures r.endDate == Some(now + x.durationHours * MillisPerHour)
    ensures r.productId == x.productId && r.durationHours == x.durationHours && r.chargeAmount == x.chargeAmount
  {
    x.(status := Active, paidAt := Some(now), startDate := Some(now), endDate := Some(now + x.durationHours * MillisPerHour))
  }

  function Confirmed(db: ProductDb, h: Id, now: int): ProductDb
    requires h in db.highlights
  {
    db.(highlights := db.highlights[h := Paid(db.highlights[h], now)])
  }

  /** cancelHighlight's guards: anything but an expired highlight can be cancelled. */
  function CancelCheck(db: ProductDb, u: Id, h: Id): (err: Option<Outcome<Highlight>>)
    ensures err.Some? ==> err.value.IsFailure()
    ensures err.None? <==> (HighlightOwnerCheck(db, u, h, "Highlight not found").None? && db.highlights[h].status != Expired)
    ensures (HighlightOwnerCheck(db, u, h, "Highlight not found").None? && db.highlights[h].status == Expired)
      ==> err == Some(BadRequest("Already expired"))
  {
    var e := HighlightOwnerCheck(db, u, h, "Highlight not found");
    if e.Some? then e
    else if db.highlights[h].status == Expired then Some(BadRequest("Already expired"))
    else None
  }

  function Withdrawn(db: ProductDb, h: Id): ProductDb
    requires h in db.highlights
  {
    db.(highlights := db.highlights[h := db.highlights[h].(status := Cancelled)])
  }

  /** A paid highlight is live for exactly its duration: from its start until just before its end. */
  lemma PaidLiveWindow(x: Highlight, now: int, t: int)
    requires x.durationHours >= 1
    ensures IsLive(Paid(x, now), t) <==> t < now + x.durationHours * MillisPerHour
    ensures IsLive(Paid(x, now), now)
  {
  }

  /** After a cancel the highlight is no longer live at any time, and a second cancel succeeds again. */
  lemma CancelEnds(db: ProductDb, u: Id, h: Id, t: int)
    requires CancelCheck(db, u, h).None?
    ensures var db' := Withdrawn(db, h);
      !IsLive(db'.highlights[h], t) && db'.highlights[h].status == Cancelled && CancelCheck(db', u, h).None?
  {
  }

  /** A payment moves the request out of `PENDING`, so the same request cannot be paid twice. */
  lemma ConfirmOnce(db: ProductDb, u: Id, h: Id, now: int, later: int)
    requires ConfirmCheck(db, u, h, now).None?
    ensures ConfirmCheck(Confirmed(db, h, now), u, h, later).Some?
  {
  }

  /**
   * The request that requestHighlight stores can be paid by the owner, and
   * once paid the product is live from that moment.
   */
  lemma RequestThenConfirm(db: ProductDb, u: Id, p: Id, dto: CreateHighlightDto, now: int)
    requires DbOk(db) && RequestCheck(db, u, p, now).None?
    ensures var db' := Requested(db, p, dto);
      ConfirmCheck(db', u, db.nextId, now).None?
      && (dto.durationHours >= 1 ==> FindLive(Confirmed(db', db.nextId, now), p, now).Some?)
  {
    var db' := Requested(db, p, dto);
    var n := db.nextId;
    forall h | h in db'.highlights && h < db'.nextId
      ensures !LiveOf(p, now)(db'.highlights[h])
    {
      if h != n {
        assert h in db.highlights && h < db.nextId;
      }
    }
    if dto.durationHours >= 1 {
      var db'' := Confirmed(db', n, now);
      FindFirstSees(db''.highlights, db''.nextId, LiveOf(p, now), n);
    }
  }

  // ---------------------------------------------------------------------------
  // Overlapping highlights

  /** Two active highlights of the same product never cover the same instant. */
  ghost predicate ActiveDisjoint(db: ProductDb)
  {
    forall i, j :: i in db.highlights && j in db.highlights && i != j
      && db.highlights[i].productId == db.highlights[j].productId
      && db.highlights[i].status == Active && db.highlights[j].status == Active
      && db.highlights[i].startDate.Some? && db.highlights[i].endDate.Some?
      && db.highlights[j].startDate.Some? && db.highlights[j].endDate.Some?
      ==> db.highlights[i].endDate.value <= db.highlights[j].startDate.value
          || db.highlights[j].endDate.value <= db.highlights[i].startDate.value
  }

  /**
   * With the guards as written, two requests made while the product is not
   * live both pass, and paying for both leaves two active highlights live
   * at the same moment.
   */
  lemma OverlapAsWritten()
    ensures var u := 7;
      var db0 := ProductDb(map[0 := Product(u, "Wheel", None, None, DefaultCategory, [], None, None, 100, 1, false, 0)], map[], 1);
      var dto := CreateHighlightDto(24, 50);
      RequestCheck(db0, u, 0, 0).None?
      && var db1 := Requested(db0, 0, dto);
      RequestCheck(db1, u, 0, 0).None?
      && var db2 := Requested(db1, 0, dto);
      ConfirmCheckAsWritten(db2, u, 1).None?
      && var db3 := Confirmed(db2, 1, 0);
      ConfirmCheckAsWritten(db3, u, 2).None?
      && var db4 := Confirmed(db3, 2, 0);
      IsLive(db4.highlights[1], 0) && IsLive(db4.highlights[2], 0) && !ActiveDisjoint(db4)
  {
    var u := 7;
    var db0 := ProductDb(map[0 := Product(u, "Wheel", None, None, DefaultCategory, [], None, None, 100, 1, false, 0)], map[], 1);
    var dto := CreateHighlightDto(24, 50);
    assert FindLive(db0, 0, 0).None?;
    var db1 := Requested(db0, 0, dto);
    assert !IsLive(db1.highlights[1], 0);
    assert FindLive(db1, 0, 0).None?;
    var db2 := Requested(db1, 0, dto);
    var db3 := Confirmed(db2, 1, 0);
    var db4 := Confirmed(db3, 2, 0);
    assert db4.highlights[1].endDate.value > db4.highlights[2].startDate.value;
  }

  /** With the payment-time check, paying keeps the active highlights of a product apart. */
  lemma ConfirmKeepsDisjoint(db: ProductDb, u: Id, h: Id, now: int)
    requires DbOk(db) && ActiveDisjoint(db) && ConfirmCheck(db, u, h, now).None?
    ensures DbOk(Confirmed(db, h, now)) && ActiveDisjoint(Confirmed(db, h, now))
  {
    var db' := Confirmed(db, h, now);
    var p := db.highlights[h].productId;
    forall i | i in db.highlights && i != h && db.highlights[i].productId == p && db.highlights[i].status == Active
      ensures db.highlights[i].endDate.value <= now
    {
      assert !IsLive(db.highlights[i], now);
    }
  }

  lemma RequestKeepsOk(db: ProductDb, p: Id, dto: CreateHighlightDto)
    requires DbOk(db) && ActiveDisjoint(db)
    ensures DbOk(Requested(db, p, dto)) && ActiveDisjoint(Requested(db, p, dto))
  {
  }

  lemma CancelKeepsOk(db: ProductDb, h: Id)
    requires DbOk(db) && ActiveDisjoint(db) && h in db.highlights
    ensures DbOk(Withdrawn(db, h)) && ActiveDisjoint(Withdrawn(db, h))
  {
  }

  // ---------------------------------------------------------------------------
  // The feed

  datatype FeedQuery = FeedQuery(search: Option<string>, category: Option<string>, page: Option<nat>, limit: Option<nat>)

  /** The query DTO: `page` and `limit` from 1. */
  predicate FeedQueryOk(q: FeedQuery)
  {
    (q.page.Some? ==> q.page.value >= 1) && (q.limit.Some? ==> q.limit.value >= 1)
  }

  /** An optional column containing the term, ignoring case; a null column never matches. */
  predicate ColumnHas(column: Option<string>, term: string)
  {
    column.Some? && Text.ContainsFold(column.value, term)
  }

  /**
   * The feed's `where`: the search term in the title, description, brand or
   * model, and the category. An empty category string is falsy and filters
   * nothing.
   */
  function FeedWhere(q: FeedQuery): Product -> bool
  {
    var term := Text.SearchTerm(q.search);
    (p: Product) =>
      (term.None? || Text.ContainsFold(p.title, term.value) || ColumnHas(p.description, term.value)
        || ColumnHas(p.carBrand, term.value) || ColumnHas(p.carModel, term.value))
      && (q.category.None? || q.category.value == "" || p.category == q.category.value)
  }

  /** The in-memory sort: live highlights first, then newest first. */
  function HighlightRank(db: ProductDb, now: int): nat -> (int, int)
  {
    (i: nat) => if i in db.products then (if FindLive(db, i, now).Some? then -1 else 0, -db.products[i].createdAt) else (0, 0)
  }

  datatype FeedPage = FeedPage(page: nat, limit: nat, total: nat, data: seq<Id>)

  function ProductCreatedAt(p: Product): int { p.createdAt }

  /** Every product matching the query, newest first. */
  function FeedListing(db: ProductDb, q: FeedQuery): seq<Id>
  {
    Listing.FindMany(db.products, db.nextId, FeedWhere(q), Listing.NewestFirst(db.products, ProductCreatedAt))
  }

  /** The page the query fetches: newest first, `skip = (page - 1) * limit`, `take = limit`. */
  function FetchedRows(db: ProductDb, q: FeedQuery): (r: seq<Id>)
    requires FeedQueryOk(q)
    ensures r == Paging.Window(FeedListing(db, q), Paging.PageSkip(q.page.GetOr(1), q.limit.GetOr(10)), q.limit.GetOr(10))
    ensures forall x :: 0 <= x < |r| ==> r[x] in db.products && FeedWhere(q)(db.products[r[x]])
    ensures forall x, y :: 0 <= x < y < |r| ==> db.products[r[x]].createdAt >= db.products[r[y]].createdAt
  {
    var page := q.page.GetOr(1);
    var limit := q.limit.GetOr(10);
    var rank := Listing.NewestFirst(db.products, ProductCreatedAt);
    var r := Listing.FindPage(db.products, db.nextId, FeedWhere(q), rank, Paging.PageSkip(page, limit), limit);
    Listing.NewestPage(db.products, db.nextId, FeedWhere(q), ProductCreatedAt, Paging.PageSkip(page, limit), limit);
    r
  }

  /** getFeed: the fetched page rearranged, with the count of every matching product. */
  function Feed(db: ProductDb, q: FeedQuery, now: int): (r: FeedPage)
    requires FeedQueryOk(q)
    ensures r.page == q.page.GetOr(1) && r.limit == q.limit.GetOr(10)
    ensures r.total == Count(db.products, FeedWhere(q)) && |r.data| <= r.limit
    ensures multiset(r.data)
            == multiset(Paging.Window(FeedListing(db, q), Paging.PageSkip(r.page, r.limit), r.limit))
  {
    var rows := FetchedRows(db, q);
    FeedPage(q.page.GetOr(1), q.limit.GetOr(10), Count(db.products, FeedWhere(q)), Sorting.SortByRank(rows, HighlightRank(db, now)))
  }

  /** `p` may come before `q` on a feed page. */
  predicate FeedBefore(db: ProductDb, now: int, p: Id, q: Id)
    requires p in db.products && q in db.products
  {
    var lp, lq := FindLive(db, p, now).Some?, FindLive(db, q, now).Some?;
    (lp && !lq) || (lp == lq && db.products[p].createdAt >= db.products[q].createdAt)
  }

  lemma FeedPair(db: ProductDb, now: int, i: Id, j: Id)
    requires i in db.products && j in db.products
    requires Sorting.RankBefore(HighlightRank(db, now)(i), HighlightRank(db, now)(j), i, j)
    ensures FeedBefore(db, now, i, j)
  {
  }

  /**
   * Every product on a feed page matches the query, and the page shows its
   * highlighted products first and each group newest first.
   */
  lemma FeedOrdered(db: ProductDb, q: FeedQuery, now: int)
    requires FeedQueryOk(q)
    ensures var r := Feed(db, q, now).data;
      (forall x :: 0 <= x < |r| ==> r[x] in db.products && FeedWhere(q)(db.products[r[x]]))
      && forall x, y :: 0 <= x < y < |r| ==> FeedBefore(db, now, r[x], r[y])
  {
    var rows := FetchedRows(db, q);
    var r := Feed(db, q, now).data;
    forall x | 0 <= x < |r| ensures r[x] in db.products && FeedWhere(q)(db.products[r[x]]) {
      assert r[x] in multiset(rows);
    }
    forall x, y | 0 <= x < y < |r| ensures FeedBefore(db, now, r[x], r[y]) {
      FeedPair(db, now, r[x], r[y]);
    }
  }
}

/**
 * The product service as one mutable store. Payment uses the guarded
 * confirmation, so the store keeps the active highlights of each product
 * apart as well as `DbOk`.
 */
module ProductStore {

  import opened Outcomes
  import opened Tables
  import opened Products

  class Store {
    var users: set<Id>
    var products: map<Id, Product>
    var highlights: map<Id, Highlight>
    var nextId: Id

    function State(): ProductDb
      reads this
    {
      ProductDb(products, highlights, nextId)
    }

    ghost predicate Valid()
      reads this
    {
      DbOk(State()) && ActiveDisjoint(State())
    }

    constructor (users: set<Id>)
      ensures Valid() && this.users == users
      ensures State() == ProductDb(map[], map[], 0)
    {
      this.users := users;
      products, highlights, nextId := map[], map[], 0;
    }

    method Commit(db: ProductDb)
      requires DbOk(db) && ActiveDisjoint(db)
      modifies this
      ensures State() == db && Valid() && users == old(users)
    {
      products, highlights, nextId := db.products, db.highlights, db.nextId;
    }

    /**
     * createProduct: returns the new product's id. The row references the
     * owner's user row, so an unknown owner fails the foreign key.
     */
    method CreateProduct(owner: Id, dto: CreateProductDto, now: int) returns (r: Outcome<Id>)
      requires Valid()
      modifies this
      ensures Valid() && users == old(users)
      ensures owner !in old(users) ==> r == Internal("Foreign key constraint failed") && unchanged(this)
      ensures owner in old(users) ==>
        r == Ok(old(nextId)) && State() == Created(old(State()), owner, dto, now)
    {
      if owner !in users {
        return Internal("Foreign key constraint failed");
      }
      var db := State();
      CreateKeepsOk(db, owner, dto, now);
      r := Ok(db.nextId);
      Commit(Created(db, owner, dto, now));
    }

    /** updateProduct: returns the updated row. */
    method UpdateProduct(k: Id, owner: Id, dto: UpdateProductDto) returns (r: Outcome<Product>)
      requires Valid()
      modifies this
      ensures Valid() && users == old(users)
      ensures var db := old(State()); var e := OwnerCheck(db, owner, k);
        if e.Some? then r == e.value.PropagateFailure() && State() == db
        else r == Ok(Apply(db.products[k], dto)) && State() == Updated(db, k, dto)
    {
      var db := State();
      var e := OwnerCheck(db, owner, k);
      if e.Some? {
        return e.value.PropagateFailure();
      }
      UpdateKeepsOk(db, k, dto);
      r := Ok(Apply(db.products[k], dto));
      Commit(Updated(db, k, dto));
    }

    /** deleteProduct: `{ success: true }`. */
    method DeleteProduct(k: Id, owner: Id) returns (r: Outcome<bool>)
      requires Valid()
      modifies this
      ensures Valid() && users == old(users)
      ensures var db := old(State()); var e := OwnerCheck(db, owner, k);
        if e.Some? then r == e.value.PropagateFailure() && State() == db
        else r == Ok(true) && State() == Deleted(db, k)
    {
      var db := State();
      var e := OwnerCheck(db, owner, k);
      if e.Some? {
        return e.value.PropagateFailure();
      }
      DeleteKeepsOk(db, k);
      r := Ok(true);
      Commit(Deleted(db, k));
    }

    /** requestHighlight: returns the pending request's id. */
    method RequestHighlight(owner: Id, p: Id, dto: CreateHighlightDto, now: int) returns (r: Outcome<Id>)
      requires Valid()
      modifies this
      ensures Valid() && users == old(users)
      ensures var db := old(State()); var e := RequestCheck(db, owner, p, now);
        if e.Some? then r == e.value && State() == db
        else r == Ok(db.nextId) && State() == Requested(db, p, dto)
    {
      var db := State();
      var e := RequestCheck(db, owner, p, now);
      if e.Some? {
        return e.value;
      }
      RequestKeepsOk(db, p, dto);
      r := Ok(db.nextId);
      Commit(Requested(db, p, dto));
    }

    /** confirmHighlightPayment, with the payment-time check: returns the paid highlight. */
    method ConfirmHighlightPayment(owner: Id, h: Id, now: int) returns (r: Outcome<Highlight>)
      requires Valid()
      modifies this
      ensures Valid() && users == old(users)
      ensures var db := old(State()); var e := ConfirmCheck(db, owner, h, now);
        if e.Some? then r == e.value && State() == db
        else r == Ok(Paid(db.highlights[h], now)) && State() == Confirmed(db, h, now)
    {
      var db := State();
      var e := ConfirmCheck(db, owner, h, now);
      if e.Some? {
        return e.value;
      }
      ConfirmKeepsDisjoint(db, owner, h, now);
      r := Ok(Paid(db.highlights[h], now));
      Commit(Confirmed(db, h, now));
    }

    /** cancelHighlight: returns the cancelled highlight. */
    method CancelHighlight(owner: Id, h: Id) returns (r: Outcome<Highlight>)
      requires Valid()
      modifies this
      ensures Valid() && users == old(users)
      ensures var db := old(State()); var e := CancelCheck(db, owner, h);
        if e.Some? then r == e.value && State() == db
        else r == Ok(db.highlights[h].(status := Cancelled)) && State() == Withdrawn(db, h)
    {
      var db := State();
      var e := CancelCheck(db, owner, h);
      if e.Some? {
        return e.value;
      }
      CancelKeepsOk(db, h);
      r := Ok(db.highlights[h].(status := Cancelled));
      Commit(Withdrawn(db, h));
    }
  }
}

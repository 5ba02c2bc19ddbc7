/** What the order-service transactions mean: who may change a status, what a repeated creation returns, and
    what a reconciliation verdict says about the order it leaves behind. */
module OrderLaws {
  import opened Domain
  import opened Items
  import opened Money
  import opened OrderStatusMachine
  import opened OrderDb

  /** Administrators may touch every order; customers may cancel their own before it is paid. */
  predicate MayChange(x: Order, target: OrderStatus, user: UserId, admin: bool) {
    admin || (x.user == user && target == CANCELLED && x.status in {PENDING, CONFIRMED})
  }

  /** The checks of updateOrderStatus pass exactly for an existing order whose change is both permitted to the
      caller and an edge of the table; each way to fail has its own error, and ownership is tested first. */
  lemma CheckExactly(db: Orders, o: OrderId, target: OrderStatus, user: UserId, admin: bool)
    ensures var r := CheckUpdate(db, o, target, user, admin);
            if o !in db.orders then r == Err(NotFoundError)
            else
              var x := db.orders[o];
              && (r == Ok(x.status) <==> MayChange(x, target, user, admin) && CanTransition(x.status, target))
              && (r == Err(ForbiddenError) <==> !MayChange(x, target, user, admin))
              && (r == Err(ValidationError) <==> admin && !CanTransition(x.status, target))
              && (r.Ok? || r.error in {ForbiddenError, ValidationError})
  {
  }

  /** The two halves of updateOrderStatus with any other writer between them: the write succeeds exactly if
      the order still has the status that was checked, and then the change is one the caller may make, which
      for a customer is a cancellation before payment. */
  lemma CheckedWriteIsSound(before: Orders, now: Orders, o: OrderId, target: OrderStatus, user: UserId, admin: bool)
    requires CheckUpdate(before, o, target, user, admin).Ok? && o in now.orders
    requires now.orders[o] == before.orders[o].(status := now.orders[o].status)
    ensures var seen := CheckUpdate(before, o, target, user, admin).value;
            var (after, won) := CompareAndSet(now, o, {seen}, target);
            && (won <==> now.orders[o].status == before.orders[o].status)
            && (won ==> MayChange(now.orders[o], target, user, admin) && CanTransition(now.orders[o].status, target)
                        && (admin || (target == CANCELLED && Rank(now.orders[o].status) <= 1))
                        && after.orders == now.orders[o := now.orders[o].(status := target)])
            && (!won ==> after == now)
  {
    CheckExactly(before, o, target, user, admin);
  }

  /** Once a keyed creation committed, every later one with its user and key returns the same order or the
      conflict, by its items alone, and changes nothing. */
  lemma CreationIsRepeatable(db: Orders, e: CallId, x: Order, request: seq<Item>, f: CallId, y: Order, again: seq<Item>)
    requires x.key.Some? && y.key == x.key && y.user == x.user
    requires CreateTx(db, e, x, request).1.Ok?
    ensures var (d, first) := CreateTx(db, e, x, request);
            CreateTx(d, f, y, again) == (d, if request == again then first else Err(IdempotencyConflict))
  {
  }

  /** Creation is all or nothing: an error changes nothing; a new order comes with one event row and, if it
      has a key, one record that holds it. */
  lemma CreationIsAtomic(db: Orders, e: CallId, x: Order, request: seq<Item>)
    ensures var (d, r) := CreateTx(db, e, x, request);
            var replayed := FindRecord(db, x.user, x.key).Some?;
            && (r.Err? || replayed ==> d == db)
            && (r.Ok? && !replayed ==>
                && x.id !in db.orders && x.total < COLUMN_LIMIT && r.value == x
                && d.orders == db.orders[x.id := x]
                && e !in db.createdRows && d.createdRows == db.createdRows[e := x.id]
                && d.releaseRows == db.releaseRows
                && FindRecord(d, x.user, x.key) == if x.key.Some? then Some(Record(request, x)) else None)
  {
  }

  /** A creation that finds no record succeeds exactly if its identifiers are new and its total is below 10^12
      cents; it then stores the order, its event row and its record, and otherwise says why not. */
  lemma CreationExactly(db: Orders, e: CallId, x: Order, request: seq<Item>)
    requires x.key.Some? ==> (x.user, x.key.value) !in db.records
    ensures var (d, r) := CreateTx(db, e, x, request);
            && r == (if x.id in db.orders || e in db.createdRows then Err(UniqueViolation)
                     else if x.total >= 1_000_000_000_000 then Err(NumericOverflow)
                     else Ok(x))
            && (r.Err? ==> d == db)
            && (r.Ok? ==>
                && d.orders == db.orders[x.id := x] && d.createdRows == db.createdRows[e := x.id]
                && d.releaseRows == db.releaseRows
                && d.records == (if x.key.Some? then db.records[(x.user, x.key.value) := Record(request, x)]
                                 else db.records))
  {
  }

  /** After a stock failure the order is neither PENDING nor CONFIRMED: it was cancelled, with one release row,
      exactly if it had been, and otherwise nothing changed. */
  lemma StockFailureCancels(db: Orders, o: OrderId)
    requires o in db.orders
    ensures var d := CompareAndSet(db, o, {PENDING, CONFIRMED}, CANCELLED).0;
            && o in d.orders && d.orders[o].status !in {PENDING, CONFIRMED}
            && (if db.orders[o].status in {PENDING, CONFIRMED}
                then d.orders == db.orders[o := db.orders[o].(status := CANCELLED)]
                  && d.releaseRows == db.releaseRows + multiset{o}
                else d == db)
  {
  }

  /** One order and its event row more, and nothing else among orders and event rows. */
  predicate Inserted(db: Orders, d: Orders, e: CallId, x: Order) {
    && x.id !in db.orders && d.orders == db.orders[x.id := x]
    && e !in db.createdRows && d.createdRows == db.createdRows[e := x.id]
  }

  /** Two creations under one user and key, one after the other in either order and whatever becomes of each,
      add at most one order with one event row, and if both return they return the same order. */
  lemma RacingCreations(db: Orders, e: CallId, x: Order, first: seq<Item>, f: CallId, y: Order, second: seq<Item>)
    requires x.key.Some? && y.key == x.key && y.user == x.user
    ensures var (mid, a) := CreateTx(db, e, x, first);
            var (d, b) := CreateTx(mid, f, y, second);
            && (d == db || Inserted(db, d, e, x) || Inserted(db, d, f, y))
            && (a.Ok? && b.Ok? ==> a == b && first == second)
            && (a.Ok? ==> d == mid)
  {
    CreationIsAtomic(db, e, x, first);
    var (mid, a) := CreateTx(db, e, x, first);
    if a.Ok? {
      CreationIsRepeatable(db, e, x, first, f, y, second);
    } else {
      CreationIsAtomic(db, f, y, second);
    }
  }

  /** With nothing between its read and its write, a verdict describes the order it leaves: release exactly
      when there is none or it is CANCELLED, commit exactly when it was paid. No overdue order stays PENDING,
      and asking again at once gives the same answer and changes nothing. */
  lemma VerdictDescribesOrder(db: Orders, o: OrderId, now: int)
    ensures var (d, v) := Reconcile(db, o, Find(db, o), now);
            && (v.release <==> o !in d.orders || d.orders[o].status == CANCELLED)
            && (v.commit <==> o in d.orders && Settled(d.orders[o].status))
            && (o in d.orders ==> !Overdue(d.orders[o], now))
            && Reconcile(d, o, Find(d, o), now) == (d, v)
            && (forall x :: x in db.orders && x != o ==> x in d.orders && d.orders[x] == db.orders[x])
  {
  }
}

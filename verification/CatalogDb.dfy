/** The catalog-service database: product stock, one reservation per order, processed event ids and
    outbox rows. Each function is one database transaction on values; class CatalogService performs the
    same transactions step by step on mutable tables, with rollback. */
module CatalogDb {
  import opened Domain
  import opened Items

  datatype ReservationStatus = RESERVED | RELEASED | COMMITTED

  datatype Reservation = Reservation(status: ReservationStatus, items: seq<Item>)

  datatype Catalog = Catalog(
    stock: map<ProductId, int>,
    reservations: map<OrderId, Reservation>,
    processed: set<CallId>,
    failedRows: multiset<OrderId>,    // StockReservationFailed rows ever enqueued
    releasedRows: multiset<OrderId>)  // StockReleased rows ever enqueued

  // ---------------------------------------------------------------------------------------------
  // reserveStock

  /** UPDATE ... SET stock = stock - q WHERE id = p AND stock >= q, and the error when no row matched. */
  function Decrement(stock: map<ProductId, int>, p: ProductId, q: int): Result<map<ProductId, int>> {
    if q <= 0 then Err(ValidationError)
    else if p in stock && stock[p] >= q then Ok(stock[p := stock[p] - q])
    else if p !in stock then Err(NotFoundError)
    else Err(InsufficientStock(p, stock[p], q))
  }

  function DecrementAll(stock: map<ProductId, int>, items: seq<Item>): Result<map<ProductId, int>> {
    if items == [] then Ok(stock)
    else
      var before := DecrementAll(stock, items[..|items| - 1]);
      if before.Err? then before
      else Decrement(before.value, items[|items| - 1].product, items[|items| - 1].quantity)
  }

  function Reserve(c: Catalog, order: OrderId, input: seq<Item>): (Catalog, Result<()>) {
    var canonical := CanonicalOf(input);
    if canonical.Err? then (c, Err(canonical.error))
    else if order in c.reservations then
      var existing := c.reservations[order];
      var again := CanonicalOf(existing.items);
      if again.Err? then (c, Err(again.error))
      else if again.value != canonical.value then (c, Err(IdempotencyConflict))
      else if existing.status == RELEASED then (c, Err(ConcurrentModification))
      else (c, Ok(()))
    else
      var stock := DecrementAll(c.stock, canonical.value);
      if stock.Err? then (c, Err(stock.error))
      else
        (c.(stock := stock.value,
            reservations := c.reservations[order := Reservation(RESERVED, canonical.value)]), Ok(()))
  }

  // ---------------------------------------------------------------------------------------------
  // releaseStock: a read and a write. The advisory lock of the order is held from the read to the write,
  // but it does not keep out the reservation worker's commit.

  function ReleaseRead(c: Catalog, order: OrderId): Option<seq<Item>> {
    if order !in c.reservations || c.reservations[order].status != RESERVED then None
    else Some(c.reservations[order].items)
  }

  predicate AllKnown(stock: map<ProductId, int>, items: seq<Item>) {
    forall i :: 0 <= i < |items| ==> items[i].product in stock
  }

  function IncrementAll(stock: map<ProductId, int>, items: seq<Item>): map<ProductId, int> {
    map p | p in stock :: stock[p] + Total(items, p)
  }

  function ReleaseWrite(c: Catalog, order: OrderId, items: seq<Item>): Result<Catalog> {
    if order !in c.reservations || !AllKnown(c.stock, items) then Err(NotFoundError)
    else
      Ok(c.(stock := IncrementAll(c.stock, items),
            reservations := c.reservations[order := c.reservations[order].(status := RELEASED)],
            releasedRows := c.releasedRows + multiset{order}))
  }

  /** The whole of releaseStock when nothing runs between its read and its write. */
  function Release(c: Catalog, order: OrderId): (Catalog, Result<()>) {
    var items := ReleaseRead(c, order);
    if items.None? then (c, Ok(()))
    else
      var w := ReleaseWrite(c, order, items.value);
      if w.Err? then (c, Err(w.error)) else (w.value, Ok(()))
  }

  // ---------------------------------------------------------------------------------------------
  // The OrderCreated consumer and the reservation worker's conditional commit.

  function HandleOrderCreated(c: Catalog, event: CallId, order: OrderId): Catalog {
    if event in c.processed then c
    else
      var failed := order !in c.reservations || c.reservations[order].status == RELEASED;
      c.(processed := c.processed + {event},
         failedRows := if failed then c.failedRows + multiset{order} else c.failedRows)
  }

  function CommitReserved(c: Catalog, order: OrderId): Catalog {
    if order in c.reservations && c.reservations[order].status == RESERVED then
      c.(reservations := c.reservations[order := c.reservations[order].(status := COMMITTED)])
    else c
  }

  // ---------------------------------------------------------------------------------------------
  // What a reservation holds of each product.

  function Weight(r: Reservation, p: ProductId): int {
    if r.status == RELEASED then 0 else Total(r.items, p)
  }

  ghost function Held(rs: map<OrderId, Reservation>, p: ProductId): int
    decreases |rs|
  {
    if |rs| == 0 then 0
    else Weight(rs[Pick(rs)], p) + Held(rs - {Pick(rs)}, p)
  }

  ghost function Pick(rs: map<OrderId, Reservation>): (o: OrderId)
    requires |rs| > 0
    ensures o in rs
  {
    assert rs.Keys != {};
    var o :| o in rs;
    o
  }

  /** Held does not depend on the order in which reservations are summed. */
  lemma {:induction false} HeldSplit(rs: map<OrderId, Reservation>, o: OrderId, p: ProductId)
    requires o in rs
    ensures Held(rs, p) == Weight(rs[o], p) + Held(rs - {o}, p)
    decreases |rs|
  {
    assert rs.Keys != {};
    var q := Pick(rs);
    if q != o {
      HeldSplit(rs - {q}, o, p);
      HeldSplit(rs - {o}, q, p);
      assert rs - {q} - {o} == rs - {o} - {q};
    }
  }

  lemma HeldUpdate(rs: map<OrderId, Reservation>, o: OrderId, r: Reservation, p: ProductId)
    ensures Held(rs[o := r], p) == Held(rs, p) + Weight(r, p) - (if o in rs then Weight(rs[o], p) else 0)
  {
    var after := rs[o := r];
    HeldSplit(after, o, p);
    assert after - {o} == rs - {o};
    if o in rs {
      HeldSplit(rs, o, p);
    } else {
      assert rs - {o} == rs;
    }
  }

  /** The decrement loop: all or nothing. It succeeds exactly when every line is positive, known and
      covered by the stock, and then takes each product's total. */
  lemma {:induction false} DecrementAllEffect(stock: map<ProductId, int>, items: seq<Item>)
    requires Distinct(items)
    ensures var r := DecrementAll(stock, items);
            && (r.Ok? <==> forall i :: 0 <= i < |items| ==>
                  items[i].quantity > 0 && items[i].product in stock && stock[items[i].product] >= items[i].quantity)
            && (r.Ok? ==>
                && r.value.Keys == stock.Keys
                && forall p :: p in stock ==> r.value[p] == stock[p] - Total(items, p))
  {
    if items != [] {
      var front, last := items[..|items| - 1], items[|items| - 1];
      DecrementAllEffect(stock, front);
      LastEffect(items);
      assert !Mentions(front, last.product);
      TotalOfAbsent(front, last.product);
      assert forall i :: 0 <= i < |front| ==> items[i] == front[i];
    }
  }

  // ---------------------------------------------------------------------------------------------

  class CatalogService {
    var stock: map<ProductId, int>
    var reservations: map<OrderId, Reservation>
    var processed: set<CallId>
    var failedRows: multiset<OrderId>
    var releasedRows: multiset<OrderId>

    ghost function View(): Catalog
      reads this
    {
      Catalog(stock, reservations, processed, failedRows, releasedRows)
    }

    constructor (stock: map<ProductId, int>)
      ensures View() == Catalog(stock, map[], {}, multiset{}, multiset{})
    {
      this.stock := stock;
      reservations := map[];
      processed := {};
      failedRows := multiset{};
      releasedRows := multiset{};
    }

    method DecrementProductStockTx(product: ProductId, quantity: int) returns (r: Result<()>)
      modifies this`stock
      ensures var d := Decrement(old(stock), product, quantity);
              if d.Ok? then r == Ok(()) && stock == d.value else r == Err(d.error) && stock == old(stock)
      ensures r == (if quantity <= 0 then Err(ValidationError)
                    else if product !in old(stock) then Err(NotFoundError)
                    else if old(stock)[product] < quantity
                    then Err(InsufficientStock(product, old(stock)[product], quantity))
                    else Ok(()))
      ensures (forall p :: p in old(stock) ==> old(stock)[p] >= 0) ==> forall p :: p in stock ==> stock[p] >= 0
    {
      if quantity <= 0 {
        return Err(ValidationError);
      }
      if product in stock && stock[product] >= quantity {
        stock := stock[product := stock[product] - quantity];
        return Ok(());
      }
      if product !in stock {
        return Err(NotFoundError);
      }
      return Err(InsufficientStock(product, stock[product], quantity));
    }

    /** A failure inside the loop rolls the decrements back. */
    method ReserveStock(order: OrderId, input: seq<Item>) returns (r: Result<()>)
      modifies this`stock, this`reservations
      ensures (View(), r) == Reserve(old(View()), order, input)
    {
      var canonical := Canonical(input);
      if canonical.Err? {
        return Err(canonical.error);
      }
      var items := canonical.value;
      if order in reservations {
        var existing := reservations[order];
        var again := Canonical(existing.items);
        if again.Err? {
          return Err(again.error);
        }
        if again.value != items {
          return Err(IdempotencyConflict);
        }
        if existing.status == RELEASED {
          return Err(ConcurrentModification);
        }
        return Ok(());
      }
      var snapshot := stock;
      for n := 0 to |items|
        invariant DecrementAll(snapshot, items[..n]) == Ok(stock)
        invariant reservations == old(reservations)
      {
        assert items[..n + 1][..n] == items[..n];
        var d := DecrementProductStockTx(items[n].product, items[n].quantity);
        if d.Err? {
          stock := snapshot;
          DecrementAllFails(snapshot, items, n + 1);
          return Err(d.error);
        }
      }
      assert items[..|items|] == items;
      reservations := reservations[order := Reservation(RESERVED, items)];
      return Ok(());
    }

    /** releaseStock with nothing between its read and its write. */
    method ReleaseStock(order: OrderId) returns (r: Result<()>)
      modifies this`stock, this`reservations, this`releasedRows
      ensures (View(), r) == Release(old(View()), order)
    {
      if order !in reservations || reservations[order].status != RESERVED {
        return Ok(());
      }
      var snapshot, table := stock, reservations;
      var items := reservations[order].items;
      reservations := reservations[order := reservations[order].(status := RELEASED)];
      for n := 0 to |items|
        invariant AllKnown(snapshot, items[..n])
        invariant stock == IncrementAll(snapshot, items[..n])
        invariant reservations == table[order := table[order].(status := RELEASED)]
        invariant releasedRows == old(releasedRows)
      {
        if items[n].product !in stock {
          stock, reservations := snapshot, table;
          return Err(NotFoundError);
        }
        LastEffect(items[..n + 1]);
        assert items[..n + 1][..n] == items[..n];
        stock := stock[items[n].product := stock[items[n].product] + items[n].quantity];
      }
      assert items[..|items|] == items;
      releasedRows := releasedRows + multiset{order};
      return Ok(());
    }

    method OnOrderCreated(event: CallId, order: OrderId)
      modifies this`processed, this`failedRows
      ensures View() == HandleOrderCreated(old(View()), event, order)
      ensures HandleOrderCreated(View(), event, order) == View()
    {
      if event in processed {
        return;
      }
      if order !in reservations || reservations[order].status == RELEASED {
        failedRows := failedRows + multiset{order};
      }
      processed := processed + {event};
    }

    method CommitReservation(order: OrderId)
      modifies this`reservations
      ensures View() == CommitReserved(old(View()), order)
      ensures forall p :: Held(reservations, p) == Held(old(reservations), p)
    {
      if order in reservations && reservations[order].status == RESERVED {
        forall p ensures Held(CommitReserved(View(), order).reservations, p) == Held(reservations, p) {
          HeldUpdate(reservations, order, reservations[order].(status := COMMITTED), p);
        }
        reservations := reservations[order := reservations[order].(status := COMMITTED)];
      }
    }
  }

  lemma {:induction false} DecrementAllFails(stock: map<ProductId, int>, items: seq<Item>, n: nat)
    requires n <= |items| && DecrementAll(stock, items[..n]).Err?
    ensures DecrementAll(stock, items) == DecrementAll(stock, items[..n])
    decreases |items| - n
  {
    if n < |items| {
      assert items[..n + 1][..n] == items[..n];
      DecrementAllFails(stock, items, n + 1);
    } else {
      assert items[..n] == items;
    }
  }
}

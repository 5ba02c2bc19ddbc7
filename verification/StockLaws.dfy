/** What reserveStock and releaseStock mean, said in per-product totals of the request instead of loops over
    its lines, and what one undoes of the other. */
module StockLaws {
  import opened Domain
  import opened Items
  import opened CatalogDb

  predicate Covers(stock: map<ProductId, int>, items: seq<Item>, p: ProductId) {
    p in stock && stock[p] >= Total(items, p)
  }

  ghost predicate AllCovered(stock: map<ProductId, int>, items: seq<Item>) {
    forall p :: Mentions(items, p) ==> Covers(stock, items, p)
  }

  /** Whatever is stored was stored in canonical form, and canonical accepts it again. */
  predicate StoredCanonically(c: Catalog, o: OrderId) {
    o in c.reservations ==> CanonicalOf(c.reservations[o].items) == Ok(c.reservations[o].items)
  }

  /** From `c` to `d` exactly the request's totals left the stock and reservation `o` holds them. */
  ghost predicate Took(c: Catalog, d: Catalog, o: OrderId, input: seq<Item>) {
    && d.stock.Keys == c.stock.Keys
    && (forall p :: p in c.stock ==> d.stock[p] == c.stock[p] - Total(input, p))
    && o in d.reservations && d.reservations[o].status == RESERVED
    && Sorted(d.reservations[o].items) && SameTotals(d.reservations[o].items, input)
    && d == c.(stock := d.stock, reservations := c.reservations[o := d.reservations[o]])
  }

  lemma CoveredLines(stock: map<ProductId, int>, input: seq<Item>)
    requires ValidLines(input)
    ensures var items := CanonicalOf(input).value;
            DecrementAll(stock, items).Ok? <==> AllCovered(stock, input)
  {
    CanonicalMeaning(input);
    var items := CanonicalOf(input).value;
    DecrementAllEffect(stock, items);
    forall i | 0 <= i < |items| ensures Total(input, items[i].product) == items[i].quantity {
      SortedTotal(items, i);
    }
    forall p ensures Mentions(input, p) <==> Mentions(items, p) {
      TotalOfPositive(input, p);
      TotalOfPositive(items, p);
    }
    if AllCovered(stock, input) {
      forall i | 0 <= i < |items|
        ensures items[i].product in stock && stock[items[i].product] >= items[i].quantity
      {
        assert Mentions(items, items[i].product);
        assert Covers(stock, input, items[i].product);
      }
    }
    if DecrementAll(stock, items).Ok? {
      forall p | Mentions(input, p) ensures Covers(stock, input, p) {
        var i :| 0 <= i < |items| && items[i].product == p;
      }
    }
  }

  /** reserveStock succeeds exactly when the list is valid and either the order already has an unreleased
      reservation with the same totals, or it has none and every product covers its whole total. It then
      takes exactly the totals, once; in every other case nothing changes. */
  lemma ReserveExactly(c: Catalog, o: OrderId, input: seq<Item>)
    requires StoredCanonically(c, o)
    ensures var (d, r) := Reserve(c, o, input);
            && (r.Ok? <==>
                  && ValidLines(input)
                  && if o in c.reservations
                     then c.reservations[o].status != RELEASED && SameTotals(c.reservations[o].items, input)
                     else AllCovered(c.stock, input))
            && (r.Err? || o in c.reservations ==> d == c)
            && (r.Ok? && o !in c.reservations ==> Took(c, d, o, input))
  {
    CanonicalMeaning(input);
    if ValidLines(input) {
      if o in c.reservations {
        CanonicalMeaning(c.reservations[o].items);
        CanonicalComplete(c.reservations[o].items, input);
      } else {
        CoveredLines(c.stock, input);
        DecrementAllEffect(c.stock, CanonicalOf(input).value);
      }
    }
  }

  /** A reservation made from a request as it arrives over gRPC stays canonical, so a retry with any list of
      the same totals succeeds without taking anything more. */
  lemma RetryTakesNothing(c: Catalog, o: OrderId, input: seq<Item>, again: seq<Item>)
    requires o !in c.reservations && Reserve(c, o, input).1.Ok?
    requires forall i :: 0 <= i < |input| ==> input[i].quantity < UINT32_LIMIT
    requires ValidLines(again) && SameTotals(again, input)
    ensures var d := Reserve(c, o, input).0;
            StoredCanonically(d, o) && Reserve(d, o, again) == (d, Ok(()))
  {
    var d := Reserve(c, o, input).0;
    ReserveExactly(c, o, input);
    CanonicalIdempotentOnWire(input);
    ReserveExactly(d, o, again);
  }

  /** releaseStock gives back exactly what a RESERVED reservation holds, marks it RELEASED and announces it;
      when the reservation is missing, RELEASED or COMMITTED, or a product is gone, nothing changes. */
  lemma ReleaseExactly(c: Catalog, o: OrderId)
    ensures var (d, r) := Release(c, o);
            var mine := o in c.reservations && c.reservations[o].status == RESERVED;
            && (r.Ok? <==> mine ==> AllKnown(c.stock, c.reservations[o].items))
            && (r.Err? ==> r.error == NotFoundError)
            && (if mine && r.Ok?
                then
                  && d.stock.Keys == c.stock.Keys
                  && (forall p :: p in c.stock ==> d.stock[p] == c.stock[p] + Total(c.reservations[o].items, p))
                  && d.reservations == c.reservations[o := c.reservations[o].(status := RELEASED)]
                  && d.releasedRows == c.releasedRows + multiset{o}
                  && d == c.(stock := d.stock, reservations := d.reservations, releasedRows := d.releasedRows)
                else d == c)
  {
  }

  /** Releasing a fresh reservation puts the stock back to what it was, and a second release does nothing. */
  lemma ReleaseUndoesReserve(c: Catalog, o: OrderId, input: seq<Item>)
    requires o !in c.reservations && Reserve(c, o, input).1.Ok?
    ensures var (d, r) := Release(Reserve(c, o, input).0, o);
            && r.Ok? && d.stock == c.stock
            && o in d.reservations && d.reservations[o].status == RELEASED
            && Release(d, o) == (d, Ok(()))
  {
    var mid := Reserve(c, o, input).0;
    ReserveExactly(c, o, input);
    var items := mid.reservations[o].items;
    CoveredItems(c.stock, input);
    assert AllKnown(mid.stock, items);
    ReleaseExactly(mid, o);
    var d := Release(mid, o).0;
    forall p | p in c.stock ensures d.stock[p] == c.stock[p] {
      assert Total(items, p) == Total(input, p);
    }
  }

  /** The stock of a product and what all reservations hold of it. */
  ghost function Supply(c: Catalog, p: ProductId): int
    requires p in c.stock
  {
    c.stock[p] + CatalogDb.Held(c.reservations, p)
  }

  /** Whatever the state of the reservation, releaseStock moves stock and loses none of it. */
  lemma ReleaseConserves(c: Catalog, o: OrderId, p: ProductId)
    requires p in c.stock
    ensures var d := Release(c, o).0; p in d.stock && Supply(d, p) == Supply(c, p)
  {
    ReleaseExactly(c, o);
    if Release(c, o).0 != c {
      HeldUpdate(c.reservations, o, c.reservations[o].(status := RELEASED), p);
    }
  }

  /** And so does reserveStock, whether it succeeds, repeats an earlier success or fails in its loop. */
  lemma ReserveConserves(c: Catalog, o: OrderId, input: seq<Item>, p: ProductId)
    requires p in c.stock
    ensures var d := Reserve(c, o, input).0; p in d.stock && Supply(d, p) == Supply(c, p)
  {
    if o !in c.reservations {
      ReserveExactly(c, o, input);
      var d := Reserve(c, o, input).0;
      if d != c {
        HeldUpdate(c.reservations, o, d.reservations[o], p);
        assert Total(d.reservations[o].items, p) == Total(input, p);
      }
    }
  }

  lemma CoveredItems(stock: map<ProductId, int>, input: seq<Item>)
    requires ValidLines(input) && AllCovered(stock, input)
    ensures AllKnown(stock, CanonicalOf(input).value)
  {
    CoveredLines(stock, input);
    CanonicalMeaning(input);
    DecrementAllEffect(stock, CanonicalOf(input).value);
  }

  // ---------------------------------------------------------------------------------------------
  // OrderCreated deliveries

  /** No reservation of the order holds stock. */
  predicate Unbacked(c: Catalog, o: OrderId) {
    o !in c.reservations || c.reservations[o].status == RELEASED
  }

  function Reported(c: Catalog, e: CallId, o: OrderId): multiset<OrderId> {
    if e !in c.processed && Unbacked(c, o) then multiset{o} else multiset{}
  }

  /** The first delivery of an event reports a failure exactly when its order's reservation holds no stock,
      and no delivery touches stock or reservations. */
  lemma FailureIsReportedOnce(c: Catalog, e: CallId, o: OrderId)
    ensures HandleOrderCreated(c, e, o)
         == c.(processed := c.processed + {e}, failedRows := c.failedRows + Reported(c, e, o))
  {
    if e in c.processed { assert c.processed + {e} == c.processed; }
  }

  /** Delivering one event twice is delivering it once. */
  lemma DeliveryIsIdempotent(c: Catalog, e: CallId, o: OrderId)
    ensures var once := HandleOrderCreated(c, e, o); HandleOrderCreated(once, e, o) == once
  {
  }

  /** Deliveries of different events commute. */
  lemma DeliveriesCommute(c: Catalog, e: CallId, o: OrderId, f: CallId, p: OrderId)
    requires e != f
    ensures HandleOrderCreated(HandleOrderCreated(c, e, o), f, p)
         == HandleOrderCreated(HandleOrderCreated(c, f, p), e, o)
  {
    var x, y := HandleOrderCreated(c, e, o), HandleOrderCreated(c, f, p);
    FailureIsReportedOnce(c, e, o);
    FailureIsReportedOnce(c, f, p);
    FailureIsReportedOnce(x, f, p);
    FailureIsReportedOnce(y, e, o);
    SwapReports(c.processed, c.failedRows, e, Reported(c, e, o), f, Reported(c, f, p));
  }

  lemma SwapReports(done: set<CallId>, rows: multiset<OrderId>, e: CallId, a: multiset<OrderId>,
                    f: CallId, b: multiset<OrderId>)
    ensures done + {e} + {f} == done + {f} + {e}
    ensures rows + a + b == rows + b + a
  {
  }

  // ---------------------------------------------------------------------------------------------
  // Which error a failed reservation gives

  predicate CoveredLine(stock: map<ProductId, int>, item: Item) {
    item.product in stock && stock[item.product] >= item.quantity
  }

  function Shortage(stock: map<ProductId, int>, p: ProductId, requested: int): Error {
    if p in stock then InsufficientStock(p, stock[p], requested) else NotFoundError
  }

  lemma {:induction false} LoopError(stock: map<ProductId, int>, items: seq<Item>) returns (i: nat)
    requires Distinct(items) && Positive(items) && DecrementAll(stock, items).Err?
    ensures i < |items| && !CoveredLine(stock, items[i])
    ensures forall j :: 0 <= j < i ==> CoveredLine(stock, items[j])
    ensures DecrementAll(stock, items).error == Shortage(stock, items[i].product, items[i].quantity)
  {
    var n := |items| - 1;
    var front := items[..n];
    if DecrementAll(stock, front).Err? {
      i := LoopError(stock, front);
    } else {
      i := n;
      DecrementAllEffect(stock, front);
      assert !Mentions(front, items[n].product);
      TotalOfAbsent(front, items[n].product);
      forall j | 0 <= j < n ensures CoveredLine(stock, items[j]) {
        assert front[j] == items[j];
      }
    }
  }

  /** `p` is the least product of the request that the stock does not cover. */
  ghost predicate LeastUncovered(stock: map<ProductId, int>, input: seq<Item>, p: ProductId) {
    && Mentions(input, p) && !Covers(stock, input, p)
    && forall q: ProductId :: Mentions(input, q) && q < p ==> Covers(stock, input, q)
  }

  lemma LeastUncoveredLine(stock: map<ProductId, int>, input: seq<Item>, items: seq<Item>, i: nat)
    requires Positive(input) && Sorted(items) && Positive(items) && SameTotals(items, input) && i < |items|
    requires !CoveredLine(stock, items[i]) && forall j :: 0 <= j < i ==> CoveredLine(stock, items[j])
    ensures LeastUncovered(stock, input, items[i].product) && Total(input, items[i].product) == items[i].quantity
  {
    SortedTotal(items, i);
    forall q ensures Mentions(input, q) <==> Mentions(items, q) {
      TotalOfPositive(input, q);
      TotalOfPositive(items, q);
    }
    assert Mentions(items, items[i].product);
    forall q: ProductId | Mentions(input, q) && q < items[i].product ensures Covers(stock, input, q) {
      var j :| 0 <= j < |items| && items[j].product == q;
      SortedTotal(items, j);
      assert CoveredLine(stock, items[j]);
    }
  }

  /** Every failure of reserveStock has its own error: an invalid list, other totals than before, a released
      reservation, or the least product in order that the stock does not cover, with its stock and its total. */
  lemma ReserveErrors(c: Catalog, o: OrderId, input: seq<Item>)
    requires StoredCanonically(c, o) && Reserve(c, o, input).1.Err?
    ensures var e := Reserve(c, o, input).1.error;
            if !ValidLines(input) then e == ValidationError
            else if o in c.reservations then
              if SameTotals(c.reservations[o].items, input) then e == ConcurrentModification
              else e == IdempotencyConflict
            else exists p :: LeastUncovered(c.stock, input, p) && e == Shortage(c.stock, p, Total(input, p))
  {
    CanonicalMeaning(input);
    if ValidLines(input) {
      if o in c.reservations {
        CanonicalMeaning(c.reservations[o].items);
        CanonicalComplete(c.reservations[o].items, input);
      } else {
        var items := CanonicalOf(input).value;
        var i := LoopError(c.stock, items);
        LeastUncoveredLine(c.stock, input, items, i);
      }
    }
  }
}

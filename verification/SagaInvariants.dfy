/** The invariants of the saga, each over the part of the state it speaks about, and what keeps the stock
    invariant. Module SagaSteps proves that every transition keeps them all. */
module SagaInvariants {
  import opened Domain
  import opened Items
  import opened Money
  import opened OrderStatusMachine
  import opened CatalogDb
  import opened OrderDb
  import opened Saga

  // ---------------------------------------------------------------------------------------------
  // The invariants

  predicate GoodItems(stock: map<ProductId, int>, items: seq<Item>) {
    Sorted(items) && Positive(items) && AllKnown(stock, items)
  }

  ghost predicate StockInv(stock: map<ProductId, int>, rs: map<OrderId, Reservation>, supply: map<ProductId, int>) {
    && supply.Keys == stock.Keys
    && (forall o :: o in rs ==> GoodItems(stock, rs[o].items))
    && (forall p :: p in stock ==> stock[p] >= 0 && stock[p] + Held(rs, p) == supply[p])
  }

  /** A release in progress still sees the reservation it read, perhaps committed meanwhile, never released. */
  ghost predicate ReleaseInv(rs: map<OrderId, Reservation>, releasing: map<OrderId, ReleaseTx>) {
    forall o :: o in releasing ==>
      && o in rs
      && rs[o].status != RELEASED
      && releasing[o].items == rs[o].items
  }

  predicate CancelledIn(ord: Orders, o: OrderId) {
    o in ord.orders && ord.orders[o].status == CANCELLED
  }

  predicate SettledIn(ord: Orders, o: OrderId) {
    o in ord.orders && (Settled(ord.orders[o].status) || ord.orders[o].status == CANCELLED)
  }

  ghost predicate RowsInv(ord: Orders) {
    forall o: OrderId :: ord.releaseRows[o] == if CancelledIn(ord, o) then 1 else 0
  }

  ghost predicate HistoryInv(ord: Orders, history: map<OrderId, seq<Change>>) {
    && history.Keys == ord.orders.Keys
    && forall o :: o in history ==> IsHistory(history[o], ord.orders[o].status)
  }

  ghost predicate UpdateInv(updates: map<nat, UpdateTx>) {
    forall u :: u in updates ==> AllowedChange(Change(updates[u].seen, updates[u].target, WriterOf(updates[u])))
  }

  /** Every release, decided, running or done, has its reason: no order at the decision, or CANCELLED. */
  ghost predicate ReasonInv(ord: Orders, decided: set<Decision>, releasing: map<OrderId, ReleaseTx>,
                            causes: map<OrderId, Cause>, rs: map<OrderId, Reservation>) {
    && (forall d :: d in decided && d.cause == OrderCancelled ==> CancelledIn(ord, d.order))
    && (forall o :: o in releasing && releasing[o].cause == OrderCancelled ==> CancelledIn(ord, o))
    && (forall o :: o in releasing && releasing[o].cause == OrderAbsent ==> Decision(o, OrderAbsent) in decided)
    && (forall o :: o in rs && rs[o].status == RELEASED ==> o in causes)
    && (forall o :: o in causes && causes[o] == OrderAbsent ==> Decision(o, OrderAbsent) in decided)
    && (forall o :: o in causes && causes[o] == OrderCancelled ==> CancelledIn(ord, o))
  }

  ghost predicate CommitInv(ord: Orders, commits: multiset<OrderId>, rs: map<OrderId, Reservation>) {
    && (forall o :: o in commits ==> SettledIn(ord, o))
    && (forall o :: o in rs && rs[o].status == COMMITTED ==> SettledIn(ord, o))
  }

  predicate Later(x: OrderStatus, y: OrderStatus) {
    && (x == CANCELLED ==> y == CANCELLED)
    && (Settled(x) ==> Settled(y) || y == CANCELLED)
  }

  /** What reconcileReservation read under the lock is still good enough for its verdict. */
  ghost predicate SeenInv(ord: Orders, reconciling: map<OrderId, Option<Order>>) {
    forall o :: o in reconciling ==>
      match reconciling[o]
      case None => o !in ord.orders
      case Some(seen) => o in ord.orders && Later(seen.status, ord.orders[o].status)
  }

  function ItemsOf(lines: seq<Line>): seq<Item> {
    seq(|lines|, i requires 0 <= i < |lines| => Item(lines[i].product, lines[i].quantity))
  }

  ghost predicate GoodCall(c: CallId, call: Call, replies: set<CallId>) {
    && Positive(call.items) && Distinct(call.items) && call.items != []
    && (call.pc == Started || call.pc == Missed ==> call.quote.None?)
    && (call.pc == Sent || call.pc == Reserved ==> call.quote.Some?)
    && (call.pc == Reserved ==> c in replies)
    && (call.quote.Some? ==>
        && PricedAs(call.quote.value.lines, call.items, call.quoted)
        && ItemsOf(call.quote.value.lines) == call.items
        && call.quote.value.total == RoundedTotal(call.quote.value.lines))
  }

  ghost predicate CallInv(calls: map<CallId, Call>, replies: set<CallId>) {
    replies <= calls.Keys && forall c :: c in calls ==> GoodCall(c, calls[c], replies)
  }

  predicate Agreed(c: CallId, call: Call, rs: map<OrderId, Reservation>) {
    IdOf(c, call) in rs && CanonicalOf(call.items) == Ok(rs[IdOf(c, call)].items)
  }

  /** A successful ReserveStock means, forever, a reservation with the caller's canonical items. */
  ghost predicate ReplyInv(calls: map<CallId, Call>, replies: set<CallId>, rs: map<OrderId, Reservation>) {
    forall c :: c in replies ==> c in calls && Agreed(c, calls[c], rs)
  }

  predicate MadeBy(x: Order, c: CallId, call: Call) {
    && x.id == IdOf(c, call) && x.user == call.user && x.key == call.key
    && ItemsOf(x.lines) == call.items
    && PricedAs(x.lines, call.items, call.quoted)
    && call.quote.Some?
    && x.total == RoundedTotal(x.lines) < COLUMN_LIMIT
  }

  function AsCreated(x: Order): Order {
    x.(status := PENDING)
  }

  /** Orders, OrderCreated rows and creators correspond one to one. */
  ghost predicate OrderInv(ord: Orders, creator: map<OrderId, CallId>, calls: map<CallId, Call>) {
    && creator.Keys == ord.orders.Keys
    && (forall o :: o in ord.orders ==>
        && creator[o] in calls && MadeBy(ord.orders[o], creator[o], calls[creator[o]])
        && ord.orders[o].id == o
        && creator[o] in ord.createdRows && ord.createdRows[creator[o]] == o)
    && (forall e :: e in ord.createdRows ==> ord.createdRows[e] in ord.orders && creator[ord.createdRows[e]] == e)
  }

  /** Keyed orders and idempotency records correspond one to one, and a record stores the order as created. */
  ghost predicate RecordInv(ord: Orders) {
    && (forall u: UserId, k: Key :: (u, k) in ord.records <==> Keyed(u, k) in ord.orders)
    && (forall u: UserId, k: Key :: (u, k) in ord.records ==>
        && ord.records[(u, k)].response == AsCreated(ord.orders[Keyed(u, k)])
        && ord.records[(u, k)].request == RequestOf(ItemsOf(ord.orders[Keyed(u, k)].lines)))
  }

  /** The order side agrees with the catalog on every order's quantities. */
  ghost predicate AgreeInv(ord: Orders, rs: map<OrderId, Reservation>) {
    forall o :: o in ord.orders ==> o in rs && SameTotals(ItemsOf(ord.orders[o].lines), rs[o].items)
  }

  ghost predicate GoodReturn(ord: Orders, c: CallId, call: Call) {
    call.pc.Returned? ==>
      var id := IdOf(c, call);
      && id in ord.orders
      && call.pc.response == AsCreated(ord.orders[id])
      && RequestOf(ItemsOf(ord.orders[id].lines)) == RequestOf(call.items)
  }

  /** Whoever returns, returns the order as it was created, and asked for the same items. */
  ghost predicate ReturnInv(ord: Orders, calls: map<CallId, Call>) {
    forall c :: c in calls ==> GoodReturn(ord, c, calls[c])
  }

  ghost predicate Inv(s: State) {
    && StockInv(s.cat.stock, s.cat.reservations, s.supply)
    && ReleaseInv(s.cat.reservations, s.releasing)
    && RowsInv(s.ord)
    && HistoryInv(s.ord, s.history)
    && UpdateInv(s.updates)
    && ReasonInv(s.ord, s.decided, s.releasing, s.causes, s.cat.reservations)
    && CommitInv(s.ord, s.commits, s.cat.reservations)
    && SeenInv(s.ord, s.reconciling)
    && CallInv(s.calls, s.replies)
    && ReplyInv(s.calls, s.replies, s.cat.reservations)
    && OrderInv(s.ord, s.creator, s.calls)
    && RecordInv(s.ord)
    && AgreeInv(s.ord, s.cat.reservations)
    && ReturnInv(s.ord, s.calls)
  }

  // ---------------------------------------------------------------------------------------------
  // What every transition does to the two databases and the decisions

  /** Reservations are never deleted or edited, and RELEASED is final. */
  ghost predicate RowsEvolve(a: map<OrderId, Reservation>, b: map<OrderId, Reservation>) {
    forall o :: o in a ==> o in b && b[o].items == a[o].items && (a[o].status == RELEASED ==> b[o] == a[o])
  }

  /** An order persists; of all its fields only the status may change, along an edge of the graph, and the
      change is appended to its history. */
  ghost predicate OrdersEvolve(a: Orders, ha: map<OrderId, seq<Change>>, b: Orders, hb: map<OrderId, seq<Change>>) {
    forall o :: o in a.orders && o in ha ==>
      && o in b.orders && o in hb
      && b.orders[o] == a.orders[o].(status := b.orders[o].status)
      && (if b.orders[o].status == a.orders[o].status then hb[o] == ha[o]
          else
            && CanTransition(a.orders[o].status, b.orders[o].status)
            && exists w: Writer :: hb[o] == ha[o] + [Change(a.orders[o].status, b.orders[o].status, w)])
  }

  /** Decisions stay, and a release because of a missing order is only decided while the order is missing. */
  ghost predicate DecisionsEvolve(a: set<Decision>, ord: Orders, b: set<Decision>) {
    && a <= b
    && forall o: OrderId :: Decision(o, OrderAbsent) in b && Decision(o, OrderAbsent) !in a ==> o !in ord.orders
  }

  ghost predicate Forward(s: State, t: State) {
    && RowsEvolve(s.cat.reservations, t.cat.reservations)
    && OrdersEvolve(s.ord, s.history, t.ord, t.history)
    && DecisionsEvolve(s.decided, s.ord, t.decided)
  }

  lemma SameRows(a: map<OrderId, Reservation>)
    ensures RowsEvolve(a, a)
  {
  }

  lemma SameOrders(a: Orders, ha: map<OrderId, seq<Change>>)
    ensures OrdersEvolve(a, ha, a, ha)
  {
  }

  lemma SameDecisions(a: set<Decision>, ord: Orders)
    ensures DecisionsEvolve(a, ord, a)
  {
  }

  /** A transition that leaves orders and decisions alone only has to answer for the reservations. */
  lemma SameForward(s: State, t: State)
    requires t.ord == s.ord && t.history == s.history && t.decided == s.decided
    requires t.cat.reservations == s.cat.reservations || RowsEvolve(s.cat.reservations, t.cat.reservations)
    ensures Forward(s, t)
  {
    SameRows(s.cat.reservations);
    SameOrders(s.ord, s.history);
    SameDecisions(s.decided, s.ord);
  }

  // ---------------------------------------------------------------------------------------------
  // Stock

  lemma ReserveKeepsStock(cat: Catalog, supply: map<ProductId, int>, o: OrderId, input: seq<Item>)
    requires StockInv(cat.stock, cat.reservations, supply)
    ensures var after := Reserve(cat, o, input).0; StockInv(after.stock, after.reservations, supply)
  {
    var after := Reserve(cat, o, input).0;
    if after != cat {
      CanonicalMeaning(input);
      var items := CanonicalOf(input).value;
      DecrementAllEffect(cat.stock, items);
      forall p | p in cat.stock
        ensures after.stock[p] >= 0 && after.stock[p] + Held(after.reservations, p) == supply[p]
      {
        HeldUpdate(cat.reservations, o, Reservation(RESERVED, items), p);
        CoveredTotal(cat.stock, items, p);
      }
    }
  }

  lemma CoveredTotal(stock: map<ProductId, int>, items: seq<Item>, p: ProductId)
    requires Sorted(items) && p in stock && stock[p] >= 0
    requires forall i :: 0 <= i < |items| && items[i].product == p ==> stock[p] >= items[i].quantity
    ensures Total(items, p) <= stock[p]
  {
    if Mentions(items, p) {
      var i :| 0 <= i < |items| && items[i].product == p;
      SortedTotal(items, i);
    } else {
      TotalOfAbsent(items, p);
    }
  }

  lemma ReleaseKeepsStock(cat: Catalog, supply: map<ProductId, int>, o: OrderId)
    requires StockInv(cat.stock, cat.reservations, supply)
    requires o in cat.reservations && cat.reservations[o].status != RELEASED
    ensures var w := ReleaseWrite(cat, o, cat.reservations[o].items);
            w.Ok? && StockInv(w.value.stock, w.value.reservations, supply)
  {
    var r := cat.reservations[o];
    assert GoodItems(cat.stock, r.items);
    var after := ReleaseWrite(cat, o, r.items).value;
    forall p | p in cat.stock
      ensures after.stock[p] >= 0 && after.stock[p] + Held(after.reservations, p) == supply[p]
    {
      HeldUpdate(cat.reservations, o, r.(status := RELEASED), p);
      TotalOfPositive(r.items, p);
    }
  }

  lemma CommitKeepsStock(cat: Catalog, supply: map<ProductId, int>, o: OrderId)
    requires StockInv(cat.stock, cat.reservations, supply)
    ensures var after := CommitReserved(cat, o); StockInv(after.stock, after.reservations, supply)
  {
    var after := CommitReserved(cat, o);
    if after != cat {
      forall p | p in cat.stock ensures Held(after.reservations, p) == Held(cat.reservations, p) {
        HeldUpdate(cat.reservations, o, cat.reservations[o].(status := COMMITTED), p);
      }
    }
  }

  lemma {:induction false} HeldOfUnknown(stock: map<ProductId, int>, rs: map<OrderId, Reservation>, p: ProductId)
    requires p !in stock && forall o :: o in rs ==> GoodItems(stock, rs[o].items)
    ensures Held(rs, p) == 0
    decreases |rs|
  {
    if |rs| > 0 {
      var o := Pick(rs);
      assert !Mentions(rs[o].items, p);
      TotalOfAbsent(rs[o].items, p);
      HeldOfUnknown(stock, rs - {o}, p);
    }
  }

  lemma SetStockKeepsStock(s: State, t: State, p: ProductId, n: nat)
    requires StockInv(s.cat.stock, s.cat.reservations, s.supply) && SetStock(s, t, p, n)
    ensures StockInv(t.cat.stock, t.cat.reservations, t.supply)
  {
    if p !in s.cat.stock { HeldOfUnknown(s.cat.stock, s.cat.reservations, p); }
  }
}

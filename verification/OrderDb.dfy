/** The order-service database: orders, idempotency records and outbox rows. Each function is one
    transaction, or one conditional write, on values; class OrderService performs the same work on
    mutable tables. */
module OrderDb {
  import opened Domain
  import opened Items
  import opened Money
  import opened OrderStatusMachine

  const RESERVATION_WINDOW_MS: int := 15 * 60_000

  datatype Order = Order(
    id: OrderId,
    user: UserId,
    key: Option<Key>,
    lines: seq<Line>,
    total: nat,
    status: OrderStatus,
    createdAt: int)

  /** requestHash is the hash of `request`, treated as injective; `response` is the order as created. */
  datatype Record = Record(request: seq<Item>, response: Order)

  datatype Orders = Orders(
    orders: map<OrderId, Order>,
    records: map<(UserId, Key), Record>,
    createdRows: map<CallId, OrderId>,   // OrderCreated rows ever enqueued, by event id
    releaseRows: multiset<OrderId>)      // StockReleaseRequested rows ever enqueued

  function Replay(record: Record, request: seq<Item>): Result<Order> {
    if record.request != request then Err(IdempotencyConflict) else Ok(record.response)
  }

  function FindRecord(db: Orders, user: UserId, key: Option<Key>): Option<Record> {
    if key.Some? && (user, key.value) in db.records then Some(db.records[(user, key.value)]) else None
  }

  /** The creating transaction of createOrder. Its event id is new to the call. A total the column cannot
      hold, or a repeated primary key, aborts it. */
  function CreateTx(db: Orders, event: CallId, order: Order, request: seq<Item>): (Orders, Result<Order>) {
    var record := FindRecord(db, order.user, order.key);
    if record.Some? then (db, Replay(record.value, request))
    else if order.id in db.orders || event in db.createdRows then (db, Err(UniqueViolation))
    else if order.total >= COLUMN_LIMIT then (db, Err(NumericOverflow))
    else
      (db.(orders := db.orders[order.id := order],
           createdRows := db.createdRows[event := order.id],
           records := if order.key.Some? then db.records[(order.user, order.key.value) := Record(request, order)]
                      else db.records),
       Ok(order))
  }

  /** updateMany where id and status match, and the release row that every cancelling writer adds. */
  function CompareAndSet(db: Orders, id: OrderId, from: set<OrderStatus>, to: OrderStatus): (Orders, bool) {
    if id in db.orders && db.orders[id].status in from then
      (db.(orders := db.orders[id := db.orders[id].(status := to)],
           releaseRows := if to == CANCELLED then db.releaseRows + multiset{id} else db.releaseRows), true)
    else (db, false)
  }

  // ---------------------------------------------------------------------------------------------
  // updateOrderStatus: a checked read, then a compare-and-set.

  function GetOrderById(db: Orders, id: OrderId, user: UserId, admin: bool): Result<Order> {
    if id !in db.orders then Err(NotFoundError)
    else if !admin && db.orders[id].user != user then Err(ForbiddenError)
    else Ok(db.orders[id])
  }

  /** The checks made before the transaction; the result is the status the write will be conditional on. */
  function CheckUpdate(db: Orders, id: OrderId, target: OrderStatus, user: UserId, admin: bool): Result<OrderStatus> {
    var order := GetOrderById(db, id, user, admin);
    if order.Err? then Err(order.error)
    else
      var seen := order.value.status;
      if !admin && !(target == CANCELLED && (seen == PENDING || seen == CONFIRMED)) then Err(ForbiddenError)
      else
        var edge := ValidateTransition(seen, target);
        if edge.Err? then Err(edge.error) else Ok(seen)
  }

  // ---------------------------------------------------------------------------------------------
  // reconcileReservation: a read under the order's advisory lock, then the verdict.

  datatype Verdict = Verdict(release: bool, commit: bool)

  predicate Overdue(order: Order, now: int) {
    order.status == PENDING && order.createdAt <= now - RESERVATION_WINDOW_MS
  }

  /** `seen` is the order as read; the table may have changed since, because updateOrderStatus and
      cancelOrderForStockFailure do not take the lock. */
  function Reconcile(db: Orders, id: OrderId, seen: Option<Order>, now: int): (Orders, Verdict) {
    if seen.None? then (db, Verdict(true, false))
    else if Overdue(seen.value, now) then
      var (after, cancelled) := CompareAndSet(db, id, {PENDING}, CANCELLED);
      (after, Verdict(cancelled, false))
    else (db, Verdict(seen.value.status == CANCELLED, Settled(seen.value.status)))
  }

  function Find(db: Orders, id: OrderId): Option<Order> {
    if id in db.orders then Some(db.orders[id]) else None
  }

  // ---------------------------------------------------------------------------------------------

  class OrderService {
    var orders: map<OrderId, Order>
    var records: map<(UserId, Key), Record>
    var createdRows: map<CallId, OrderId>
    var releaseRows: multiset<OrderId>

    ghost function View(): Orders
      reads this
    {
      Orders(orders, records, createdRows, releaseRows)
    }

    constructor ()
      ensures View() == Orders(map[], map[], map[], multiset{})
    {
      orders, records, createdRows, releaseRows := map[], map[], map[], multiset{};
    }

    method CreateOrderTx(event: CallId, order: Order, request: seq<Item>) returns (r: Result<Order>)
      modifies this
      ensures (View(), r) == CreateTx(old(View()), event, order, request)
      ensures r.Ok? && order.key.Some? ==> CreateTx(View(), event, order, request) == (View(), r)
    {
      if order.key.Some? && (order.user, order.key.value) in records {
        var record := records[(order.user, order.key.value)];
        if record.request != request {
          return Err(IdempotencyConflict);
        }
        return Ok(record.response);
      }
      if order.id in orders || event in createdRows {
        return Err(UniqueViolation);
      }
      if order.total >= COLUMN_LIMIT {
        return Err(NumericOverflow);
      }
      orders := orders[order.id := order];
      createdRows := createdRows[event := order.id];
      if order.key.Some? {
        records := records[(order.user, order.key.value) := Record(request, order)];
      }
      return Ok(order);
    }

    method UpdateMany(id: OrderId, from: set<OrderStatus>, to: OrderStatus) returns (count: nat)
      modifies this`orders
      ensures count <= 1
      ensures count == 1 <==> id in old(orders) && old(orders)[id].status in from
      ensures orders == if count == 1 then old(orders)[id := old(orders)[id].(status := to)] else old(orders)
    {
      if id in orders && orders[id].status in from {
        orders := orders[id := orders[id].(status := to)];
        return 1;
      }
      return 0;
    }

    method EnqueueStockRelease(id: OrderId)
      modifies this`releaseRows
      ensures releaseRows == old(releaseRows) + multiset{id}
    {
      releaseRows := releaseRows + multiset{id};
    }

    /** The transaction of updateOrderStatus. Other writers may have run since `seen` was read. */
    method CommitStatus(id: OrderId, seen: OrderStatus, target: OrderStatus) returns (r: Result<Order>)
      modifies this
      ensures var (after, won) := CompareAndSet(old(View()), id, {seen}, target);
              View() == after && r == if won then Ok(after.orders[id]) else Err(ConcurrentModification)
    {
      var count := UpdateMany(id, {seen}, target);
      if count == 0 {
        return Err(ConcurrentModification);
      }
      if target == CANCELLED {
        EnqueueStockRelease(id);
      }
      return Ok(orders[id]);
    }

    /** updateOrderStatus when nothing runs between its check and its transaction. */
    method UpdateOrderStatus(id: OrderId, target: OrderStatus, user: UserId, admin: bool) returns (r: Result<Order>)
      modifies this
      ensures var checked := CheckUpdate(old(View()), id, target, user, admin);
              if checked.Err? then r == Err(checked.error) && View() == old(View())
              else
                && (View(), true) == CompareAndSet(old(View()), id, {checked.value}, target)
                && r == Ok(orders[id])
    {
      if id !in orders {
        return Err(NotFoundError);
      }
      var order := orders[id];
      if !admin && order.user != user {
        return Err(ForbiddenError);
      }
      if !admin && (target != CANCELLED || order.status !in {PENDING, CONFIRMED}) {
        return Err(ForbiddenError);
      }
      var edge := ValidateTransition(order.status, target);
      if edge.Err? {
        return Err(edge.error);
      }
      r := CommitStatus(id, order.status, target);
    }

    /** reconcileReservation with nothing between its read and its write. */
    method ReconcileReservation(id: OrderId, now: int) returns (v: Verdict)
      modifies this
      ensures (View(), v) == Reconcile(old(View()), id, Find(old(View()), id), now)
    {
      if id !in orders {
        return Verdict(true, false);
      }
      var order := orders[id];
      if order.status == PENDING && order.createdAt <= now - RESERVATION_WINDOW_MS {
        var count := UpdateMany(id, {PENDING}, CANCELLED);
        if count > 0 {
          EnqueueStockRelease(id);
          return Verdict(true, false);
        }
        return Verdict(false, false);
      }
      return Verdict(order.status == CANCELLED, order.status in {PAID, SHIPPED, COMPLETED});
    }

    method CancelOrderForStockFailure(id: OrderId)
      modifies this
      ensures View() == CompareAndSet(old(View()), id, {PENDING, CONFIRMED}, CANCELLED).0
      ensures id in orders ==> orders[id].status !in {PENDING, CONFIRMED}
    {
      var count := UpdateMany(id, {PENDING, CONFIRMED}, CANCELLED);
      if count > 0 {
        EnqueueStockRelease(id);
      }
    }
  }
}

/** The reservation saga as a transition system over the two databases and every call in progress.

    A transition is one database transaction, one conditional write, or one local move of a caller.
    Remote calls and events are requests that may run late, repeatedly, out of order, or never: a request
    stays available once it exists, and nothing forces a transition. Advisory locks are the maps
    `releasing` (catalog, held from the read of releaseStock to its write) and `reconciling`
    (order-service, held from the read of reconcileReservation to its verdict); the other locked
    transactions are single transitions that require the lock to be free. The worker's commit takes no
    lock. */
module Saga {
  import opened Domain
  import opened Items
  import opened Money
  import opened OrderStatusMachine
  import opened CatalogDb
  import opened OrderDb

  datatype CallPc =
    | Started                          // about to look up the idempotency record
    | Missed                           // no record found; about to price the items
    | Sent                             // ReserveStock has been sent
    | Reserved                         // ReserveStock answered
    | CreateFailed(unique: bool)       // the creating transaction threw; P2002 or something else
    | Returned(response: Order)
    | Threw

  /** One execution of createOrder. `quote` is set when the items are priced, just before ReserveStock;
      `quoted` is a history of the catalog's answers then. */
  datatype Call = Call(user: UserId, key: Option<Key>, items: seq<Item>, quote: Option<Quote>,
                       quoted: seq<PriceReply>, pc: CallPc)

  /** Why a release was decided: the order did not exist at that moment, or it was CANCELLED. */
  datatype Cause = OrderAbsent | OrderCancelled

  datatype Decision = Decision(order: OrderId, cause: Cause)

  datatype ReleaseTx = ReleaseTx(items: seq<Item>, cause: Cause)

  datatype UpdateTx = UpdateTx(order: OrderId, seen: OrderStatus, target: OrderStatus, admin: bool)

  datatype State = State(
    cat: Catalog,
    ord: Orders,
    calls: map<CallId, Call>,
    replies: set<CallId>,                     // calls for which some ReserveStock execution succeeded
    updates: map<nat, UpdateTx>,              // updateOrderStatus calls between check and write
    reconciling: map<OrderId, Option<Order>>, // reconcileReservation between read and verdict
    decided: set<Decision>,                   // release decisions; may be carried out any number of times
    commits: multiset<OrderId>,               // commit verdicts the worker has not applied yet
    releasing: map<OrderId, ReleaseTx>,       // releaseStock between read and write
    supply: map<ProductId, int>,              // history: what administrators put into stock
    causes: map<OrderId, Cause>,              // history: why each released reservation was released
    creator: map<OrderId, CallId>,            // history: which call created each order
    history: map<OrderId, seq<Change>>)       // history: every committed status change

  function Init(stock: map<ProductId, nat>): State {
    State(Catalog(stock, map[], {}, multiset{}, multiset{}), Orders(map[], map[], map[], multiset{}),
          map[], {}, map[], map[], {}, multiset{}, map[], stock, map[], map[], map[])
  }

  function IdOf(c: CallId, call: Call): OrderId {
    if call.key.Some? then Keyed(call.user, call.key.value) else Random(c)
  }

  // ---------------------------------------------------------------------------------------------
  // createOrder

  predicate At(s: State, c: CallId, pc: CallPc) {
    c in s.calls && s.calls[c].pc == pc
  }

  /** Only call `c` changes. */
  predicate Local(s: State, t: State, c: CallId, call: Call) {
    t == s.(calls := s.calls[c := call])
  }

  predicate Moves(s: State, t: State, c: CallId, pc: CallPc)
    requires c in s.calls
  {
    Local(s, t, c, s.calls[c].(pc := pc))
  }

  function Outcome(r: Result<Order>): CallPc {
    if r.Ok? then Returned(r.value) else Threw
  }

  predicate StartCall(s: State, t: State, c: CallId, user: UserId, key: Option<Key>, raw: seq<Item>) {
    c !in s.calls && SchemaValid(raw) && Local(s, t, c, Call(user, key, Merged(raw), None, [], Started))
  }

  predicate Lookup(s: State, t: State, c: CallId) {
    At(s, c, Started) &&
    var record := FindRecord(s.ord, s.calls[c].user, s.calls[c].key);
    Moves(s, t, c, if record.Some? then Outcome(Replay(record.value, RequestOf(s.calls[c].items))) else Missed)
  }

  /** The items are priced; ReserveStock is about to be sent. */
  predicate PriceCall(s: State, t: State, c: CallId, replies: seq<PriceReply>) {
    && At(s, c, Missed)
    && var call := s.calls[c];
    && |call.items| == |replies| && Positive(call.items) && AllPriced(replies)
    && var lines := LinesOf(call.items, replies);
    Local(s, t, c, call.(quote := Some(Quote(lines, RoundedTotal(lines))), quoted := replies, pc := Sent))
  }

  /** The request may be executed at any time after it was sent, even when the caller has given up. */
  predicate ExecReserve(s: State, t: State, c: CallId) {
    && c in s.calls && s.calls[c].quote.Some?
    && IdOf(c, s.calls[c]) !in s.releasing
    && var (cat, r) := Reserve(s.cat, IdOf(c, s.calls[c]), s.calls[c].items);
    t == s.(cat := cat, replies := if r.Ok? then s.replies + {c} else s.replies)
  }

  predicate ReserveAnswered(s: State, t: State, c: CallId) {
    At(s, c, Sent) && c in s.replies && Moves(s, t, c, Reserved)
  }

  /** A lookup, pricing or ReserveStock error, or a lost reply. */
  predicate GiveUp(s: State, t: State, c: CallId) {
    (At(s, c, Started) || At(s, c, Missed) || At(s, c, Sent)) && Moves(s, t, c, Threw)
  }

  function OrderOf(c: CallId, call: Call, now: int): Order
    requires call.quote.Some?
  {
    Order(IdOf(c, call), call.user, call.key, call.quote.value.lines, call.quote.value.total, PENDING, now)
  }

  /** The creating transaction, under the advisory lock. With `lost` it commits but its caller sees an error. */
  predicate Create(s: State, t: State, c: CallId, now: int, lost: bool) {
    && At(s, c, Reserved) && s.calls[c].quote.Some?
    && IdOf(c, s.calls[c]) !in s.reconciling
    && var call := s.calls[c];
    var order := OrderOf(c, call, now);
    var (ord, r) := CreateTx(s.ord, c, order, RequestOf(call.items));
    var pc := if lost then CreateFailed(false)
              else if r.Ok? then Returned(r.value)
              else CreateFailed(r.error == UniqueViolation);
    var created := order.id in ord.orders && order.id !in s.ord.orders;
    t == s.(calls := s.calls[c := call.(pc := pc)],
            ord := ord,
            creator := if created then s.creator[order.id := c] else s.creator,
            history := if created then s.history[order.id := []] else s.history)
  }

  predicate CreateAborts(s: State, t: State, c: CallId, unique: bool) {
    At(s, c, Reserved) && Moves(s, t, c, CreateFailed(unique))
  }

  /** After P2002 the record is looked up once more. */
  predicate Recheck(s: State, t: State, c: CallId) {
    At(s, c, CreateFailed(true)) &&
    var record := FindRecord(s.ord, s.calls[c].user, s.calls[c].key);
    Moves(s, t, c, if record.Some? then Outcome(Replay(record.value, RequestOf(s.calls[c].items)))
                   else CreateFailed(false))
  }

  /** The last existence check before the call throws; releaseStockRemote is decided here and runs later. */
  predicate GiveBack(s: State, t: State, c: CallId) {
    && At(s, c, CreateFailed(false))
    && var id := IdOf(c, s.calls[c]);
    t == s.(calls := s.calls[c := s.calls[c].(pc := Threw)],
            decided := if id in s.ord.orders then s.decided else s.decided + {Decision(id, OrderAbsent)})
  }

  // ---------------------------------------------------------------------------------------------
  // Catalog side

  /** A release may run because it was decided, or because a StockReleaseRequested row is delivered. */
  predicate Requested(s: State, o: OrderId, cause: Cause) {
    Decision(o, cause) in s.decided || (cause == OrderCancelled && s.ord.releaseRows[o] > 0)
  }

  predicate BeginRelease(s: State, t: State, o: OrderId, cause: Cause) {
    && Requested(s, o, cause) && o !in s.releasing
    && var items := ReleaseRead(s.cat, o);
    t == if items.None? then s else s.(releasing := s.releasing[o := ReleaseTx(items.value, cause)])
  }

  predicate FinishRelease(s: State, t: State, o: OrderId) {
    && o in s.releasing
    && var w := ReleaseWrite(s.cat, o, s.releasing[o].items);
    && w.Ok?
    && t == s.(cat := w.value, releasing := s.releasing - {o}, causes := s.causes[o := s.releasing[o].cause])
  }

  /** Any failure inside releaseStock rolls it back. */
  predicate AbortRelease(s: State, t: State, o: OrderId) {
    o in s.releasing && t == s.(releasing := s.releasing - {o})
  }

  predicate DeliverCreated(s: State, t: State, event: CallId) {
    && event in s.ord.createdRows
    && s.ord.createdRows[event] !in s.releasing
    && t == s.(cat := HandleOrderCreated(s.cat, event, s.ord.createdRows[event]))
  }

  /** The worker applies a commit verdict; a release of the same order may be between its read and write. */
  predicate ApplyCommit(s: State, t: State, o: OrderId) {
    o in s.commits && t == s.(cat := CommitReserved(s.cat, o), commits := s.commits - multiset{o})
  }

  predicate DropCommit(s: State, t: State, o: OrderId) {
    o in s.commits && t == s.(commits := s.commits - multiset{o})
  }

  /** An administrator creates a product or overwrites its stock. */
  predicate SetStock(s: State, t: State, p: ProductId, n: nat) {
    var held := if p in s.cat.stock && p in s.supply then s.supply[p] - s.cat.stock[p] else 0;
    t == s.(cat := s.cat.(stock := s.cat.stock[p := n]), supply := s.supply[p := n + held])
  }

  // ---------------------------------------------------------------------------------------------
  // Order side

  /** The history after the order database became `ord`, if that changed the status of `o`. */
  function Logged(s: State, ord: Orders, o: OrderId, writer: Writer): map<OrderId, seq<Change>> {
    if o in s.ord.orders && o in ord.orders && o in s.history && s.ord.orders[o].status != ord.orders[o].status then
      s.history[o := s.history[o] + [Change(s.ord.orders[o].status, ord.orders[o].status, writer)]]
    else s.history
  }

  predicate DeliverFailed(s: State, t: State, o: OrderId) {
    && o in s.cat.failedRows
    && var ord := CompareAndSet(s.ord, o, {PENDING, CONFIRMED}, CANCELLED).0;
    t == s.(ord := ord, history := Logged(s, ord, o, StockFailureHandler))
  }

  predicate BeginReconcile(s: State, t: State, o: OrderId) {
    o !in s.reconciling && t == s.(reconciling := s.reconciling[o := Find(s.ord, o)])
  }

  predicate FinishReconcile(s: State, t: State, o: OrderId, now: int) {
    && o in s.reconciling
    && var seen := s.reconciling[o];
    var (ord, v) := Reconcile(s.ord, o, seen, now);
    t == s.(
      ord := ord,
      history := Logged(s, ord, o, Reconciler),
      reconciling := s.reconciling - {o},
      decided := if v.release then s.decided + {Decision(o, if seen.None? then OrderAbsent else OrderCancelled)}
                 else s.decided,
      commits := if v.commit then s.commits + multiset{o} else s.commits)
  }

  predicate AbortReconcile(s: State, t: State, o: OrderId) {
    o in s.reconciling && t == s.(reconciling := s.reconciling - {o})
  }

  predicate BeginUpdate(s: State, t: State, u: nat, o: OrderId, target: OrderStatus, user: UserId, admin: bool) {
    var seen := CheckUpdate(s.ord, o, target, user, admin);
    u !in s.updates && seen.Ok? && t == s.(updates := s.updates[u := UpdateTx(o, seen.value, target, admin)])
  }

  function WriterOf(u: UpdateTx): Writer {
    if u.admin then Admin else Customer
  }

  predicate FinishUpdate(s: State, t: State, u: nat) {
    && u in s.updates
    && var x := s.updates[u];
    var ord := CompareAndSet(s.ord, x.order, {x.seen}, x.target).0;
    t == s.(ord := ord, history := Logged(s, ord, x.order, WriterOf(x)), updates := s.updates - {u})
  }

  // ---------------------------------------------------------------------------------------------

  /** One transition on the reservation or the status of order `o` by events and reconciliation. */
  ghost predicate EventStep(s: State, t: State, o: OrderId) {
    || (exists cause :: BeginRelease(s, t, o, cause))
    || FinishRelease(s, t, o)
    || AbortRelease(s, t, o)
    || (exists e :: e in s.ord.createdRows && s.ord.createdRows[e] == o && DeliverCreated(s, t, e))
    || ApplyCommit(s, t, o)
    || DropCommit(s, t, o)
    || DeliverFailed(s, t, o)
    || BeginReconcile(s, t, o)
    || (exists now :: FinishReconcile(s, t, o, now))
    || AbortReconcile(s, t, o)
  }

  ghost predicate CallStep(s: State, t: State, c: CallId) {
    || (exists user, key, raw :: StartCall(s, t, c, user, key, raw))
    || Lookup(s, t, c)
    || (exists replies :: PriceCall(s, t, c, replies))
    || ExecReserve(s, t, c)
    || ReserveAnswered(s, t, c)
    || GiveUp(s, t, c)
    || (exists now, lost :: Create(s, t, c, now, lost))
    || (exists unique :: CreateAborts(s, t, c, unique))
    || Recheck(s, t, c)
    || GiveBack(s, t, c)
  }

  ghost predicate UserStep(s: State, t: State) {
    || (exists p, n :: SetStock(s, t, p, n))
    || (exists u, o, target, user, admin :: BeginUpdate(s, t, u, o, target, user, admin))
    || (exists u :: FinishUpdate(s, t, u))
  }

  ghost predicate Next(s: State, t: State) {
    || (exists o :: EventStep(s, t, o))
    || (exists c :: CallStep(s, t, c))
    || UserStep(s, t)
  }

  /** A finite behaviour of the saga from an initial stock. */
  ghost predicate IsRun(run: seq<State>) {
    && |run| >= 1
    && (exists stock :: run[0] == Init(stock))
    && forall i :: 0 <= i < |run| - 1 ==> Next(run[i], run[i + 1])
  }
}

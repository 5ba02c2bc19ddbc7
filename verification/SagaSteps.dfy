/** Every transition of the saga keeps the invariants. Transitions are grouped by what they change. */
module SagaSteps {
  import opened Domain
  import opened Items
  import opened Money
  import opened OrderStatusMachine
  import opened CatalogDb
  import opened OrderDb
  import opened Saga
  import opened SagaInvariants

  // ---------------------------------------------------------------------------------------------
  // Transitions that change one createOrder call

  /** The call keeps what it was made with, and what it was quoted. */
  predicate SameCall(a: Call, b: Call) {
    && a.user == b.user && a.key == b.key && a.items == b.items
    && (b.quote.Some? ==> a.quote == b.quote && a.quoted == b.quoted)
  }

  lemma CallsKeep(s: State, c: CallId, call: Call)
    requires CallInv(s.calls, s.replies) && GoodCall(c, call, s.replies)
    requires ReplyInv(s.calls, s.replies, s.cat.reservations)
    requires c in s.calls ==> SameCall(call, s.calls[c])
    ensures CallInv(s.calls[c := call], s.replies)
    ensures ReplyInv(s.calls[c := call], s.replies, s.cat.reservations)
  {
  }

  lemma OrdersKeepCall(s: State, c: CallId, call: Call)
    requires OrderInv(s.ord, s.creator, s.calls)
    requires c in s.calls ==> SameCall(call, s.calls[c])
    ensures OrderInv(s.ord, s.creator, s.calls[c := call])
  {
  }

  lemma LocalKeeps(s: State, t: State, c: CallId, call: Call)
    requires Inv(s) && Local(s, t, c, call)
    requires GoodCall(c, call, s.replies) && GoodReturn(s.ord, c, call)
    requires c in s.calls ==> SameCall(call, s.calls[c])
    ensures Inv(t) && Forward(s, t)
  {
    SameForward(s, t);
    CallsKeep(s, c, call);
    OrdersKeepCall(s, c, call);
  }

  lemma StartKeeps(s: State, t: State, c: CallId, user: UserId, key: Option<Key>, raw: seq<Item>)
    requires Inv(s) && StartCall(s, t, c, user, key, raw)
    ensures Inv(t) && Forward(s, t)
  {
    MergedEffect(raw);
    LocalKeeps(s, t, c, Call(user, key, Merged(raw), None, [], Started));
  }

  /** A replay returns the stored order, which is the order as created. */
  lemma ReplayIsGood(s: State, c: CallId)
    requires RecordInv(s.ord) && c in s.calls
    requires FindRecord(s.ord, s.calls[c].user, s.calls[c].key).Some?
    ensures var record := FindRecord(s.ord, s.calls[c].user, s.calls[c].key).value;
            GoodReturn(s.ord, c, s.calls[c].(pc := Outcome(Replay(record, RequestOf(s.calls[c].items)))))
  {
  }

  lemma LookupKeeps(s: State, t: State, c: CallId)
    requires Inv(s) && Lookup(s, t, c)
    ensures Inv(t) && Forward(s, t)
  {
    if FindRecord(s.ord, s.calls[c].user, s.calls[c].key).Some? { ReplayIsGood(s, c); }
    LocalKeeps(s, t, c, t.calls[c]);
  }

  lemma RecheckKeeps(s: State, t: State, c: CallId)
    requires Inv(s) && Recheck(s, t, c)
    ensures Inv(t) && Forward(s, t)
  {
    if FindRecord(s.ord, s.calls[c].user, s.calls[c].key).Some? { ReplayIsGood(s, c); }
    LocalKeeps(s, t, c, t.calls[c]);
  }

  lemma PriceKeeps(s: State, t: State, c: CallId, replies: seq<PriceReply>)
    requires Inv(s) && PriceCall(s, t, c, replies)
    ensures Inv(t) && Forward(s, t)
  {
    assert GoodCall(c, s.calls[c], s.replies);
    LinesArePriced(s.calls[c].items, replies);
    assert ItemsOf(LinesOf(s.calls[c].items, replies)) == s.calls[c].items;
    LocalKeeps(s, t, c, t.calls[c]);
  }

  lemma MoveKeeps(s: State, t: State, c: CallId, pc: CallPc)
    requires Inv(s) && c in s.calls && Moves(s, t, c, pc)
    requires pc.Threw? || pc.CreateFailed? || (pc.Reserved? && At(s, c, Sent) && c in s.replies)
    ensures Inv(t) && Forward(s, t)
  {
    LocalKeeps(s, t, c, s.calls[c].(pc := pc));
  }

  lemma GiveBackDecision(s: State, t: State, c: CallId)
    requires GiveBack(s, t, c)
    ensures DecisionsEvolve(s.decided, s.ord, t.decided)
  {
  }

  lemma GiveBackKeeps(s: State, t: State, c: CallId)
    requires Inv(s) && GiveBack(s, t, c)
    ensures Inv(t) && Forward(s, t)
  {
    var m := s.(calls := t.calls);
    MoveKeeps(s, m, c, Threw);
    assert t == m.(decided := t.decided);
    GiveBackDecision(s, t, c);
    assert ReasonInv(t.ord, t.decided, t.releasing, t.causes, t.cat.reservations);
  }

  // ---------------------------------------------------------------------------------------------
  // Transitions that change the reservations

  lemma KeptReservations(s: State, rs: map<OrderId, Reservation>)
    requires RowsEvolve(s.cat.reservations, rs)
    requires ReplyInv(s.calls, s.replies, s.cat.reservations) && AgreeInv(s.ord, s.cat.reservations)
    ensures ReplyInv(s.calls, s.replies, rs) && AgreeInv(s.ord, rs)
  {
  }

  /** A fresh reservation is RESERVED, and not under release because its lock was free. */
  lemma ExecReserveEffect(s: State, t: State, c: CallId)
    requires ExecReserve(s, t, c)
    ensures RowsEvolve(s.cat.reservations, t.cat.reservations)
    ensures var id := IdOf(c, s.calls[c]);
            && (forall o :: o in t.cat.reservations && o != id ==>
                  o in s.cat.reservations && t.cat.reservations[o] == s.cat.reservations[o])
            && (id in s.cat.reservations ==> t.cat.reservations[id] == s.cat.reservations[id])
            && (id !in s.cat.reservations && id in t.cat.reservations ==> t.cat.reservations[id].status == RESERVED)
  {
  }

  lemma ExecReserveReply(s: State, t: State, c: CallId)
    requires ExecReserve(s, t, c) && StockInv(s.cat.stock, s.cat.reservations, s.supply)
    requires CallInv(s.calls, s.replies) && ReplyInv(s.calls, s.replies, t.cat.reservations)
    ensures CallInv(t.calls, t.replies) && ReplyInv(t.calls, t.replies, t.cat.reservations)
  {
    var id := IdOf(c, s.calls[c]);
    if c in t.replies && c !in s.replies {
      if id in s.cat.reservations {
        var items := s.cat.reservations[id].items;
        CanonicalMeaning(items);
        forall p ensures Total(CanonicalOf(items).value, p) == Total(items, p) {}
        SortedUnique(CanonicalOf(items).value, items);
      }
      assert Agreed(c, s.calls[c], t.cat.reservations);
    }
  }

  lemma ExecReserveKeeps(s: State, t: State, c: CallId)
    requires Inv(s) && ExecReserve(s, t, c)
    ensures Inv(t) && Forward(s, t)
  {
    ExecReserveEffect(s, t, c);
    ReserveKeepsStock(s.cat, s.supply, IdOf(c, s.calls[c]), s.calls[c].items);
    KeptReservations(s, t.cat.reservations);
    ExecReserveReply(s, t, c);
    SameForward(s, t);
    ExecReserveReasons(s, t, c);
  }

  lemma ExecReserveReasons(s: State, t: State, c: CallId)
    requires ExecReserve(s, t, c) && ReleaseInv(s.cat.reservations, s.releasing)
    requires ReasonInv(s.ord, s.decided, s.releasing, s.causes, s.cat.reservations)
    requires CommitInv(s.ord, s.commits, s.cat.reservations)
    ensures ReleaseInv(t.cat.reservations, t.releasing)
    ensures ReasonInv(t.ord, t.decided, t.releasing, t.causes, t.cat.reservations)
    ensures CommitInv(t.ord, t.commits, t.cat.reservations)
  {
    ExecReserveEffect(s, t, c);
    ReasonKept(s, t);
    CommitKept(s, t);
  }

  /** Reservations may appear as RESERVED and otherwise stay as they were. */
  lemma ReasonKept(s: State, t: State)
    requires ReasonInv(s.ord, s.decided, s.releasing, s.causes, s.cat.reservations)
    requires t.ord == s.ord && t.decided == s.decided && t.releasing == s.releasing && t.causes == s.causes
    requires forall o :: o in t.cat.reservations && t.cat.reservations[o].status == RELEASED ==>
                           o in s.cat.reservations && s.cat.reservations[o].status == RELEASED
    ensures ReasonInv(t.ord, t.decided, t.releasing, t.causes, t.cat.reservations)
  {
  }

  lemma CommitKept(s: State, t: State)
    requires CommitInv(s.ord, s.commits, s.cat.reservations)
    requires t.ord == s.ord && t.commits <= s.commits
    requires forall o :: o in t.cat.reservations && t.cat.reservations[o].status == COMMITTED ==>
                           o in s.commits || (o in s.cat.reservations && s.cat.reservations[o].status == COMMITTED)
    ensures CommitInv(t.ord, t.commits, t.cat.reservations)
  {
  }

  lemma BeginReleaseReason(s: State, t: State, o: OrderId, cause: Cause)
    requires BeginRelease(s, t, o, cause) && RowsInv(s.ord)
    requires ReasonInv(s.ord, s.decided, s.releasing, s.causes, s.cat.reservations)
    ensures ReasonInv(t.ord, t.decided, t.releasing, t.causes, t.cat.reservations)
  {
    RequestedReason(s, o, cause);
    if t != s {
      OneMoreRelease(s.ord, s.decided, s.releasing, s.causes, s.cat.reservations, o, t.releasing[o]);
    }
  }

  lemma OneMoreRelease(ord: Orders, decided: set<Decision>, releasing: map<OrderId, ReleaseTx>,
                       causes: map<OrderId, Cause>, rs: map<OrderId, Reservation>, o: OrderId, tx: ReleaseTx)
    requires ReasonInv(ord, decided, releasing, causes, rs)
    requires tx.cause == OrderCancelled ==> CancelledIn(ord, o)
    requires tx.cause == OrderAbsent ==> Decision(o, OrderAbsent) in decided
    ensures ReasonInv(ord, decided, releasing[o := tx], causes, rs)
  {
  }

  lemma RequestedReason(s: State, o: OrderId, cause: Cause)
    requires RowsInv(s.ord) && Requested(s, o, cause)
    requires forall d :: d in s.decided && d.cause == OrderCancelled ==> CancelledIn(s.ord, d.order)
    ensures cause == OrderCancelled ==> CancelledIn(s.ord, o)
    ensures cause == OrderAbsent ==> Decision(o, OrderAbsent) in s.decided
  {
  }

  lemma BeginReleaseRead(s: State, t: State, o: OrderId, cause: Cause)
    requires BeginRelease(s, t, o, cause) && ReleaseInv(s.cat.reservations, s.releasing)
    ensures ReleaseInv(t.cat.reservations, t.releasing) && t == s.(releasing := t.releasing)
  {
  }

  lemma BeginReleaseKeeps(s: State, t: State, o: OrderId, cause: Cause)
    requires Inv(s) && BeginRelease(s, t, o, cause)
    ensures Inv(t) && Forward(s, t)
  {
    BeginReleaseReason(s, t, o, cause);
    BeginReleaseRead(s, t, o, cause);
    SameForward(s, t);
  }

  /** A release that was asked for can run as long as the reservation is RESERVED and its lock free. */
  lemma RequestedReleaseCanRun(s: State, o: OrderId, cause: Cause) returns (t: State, u: State)
    requires StockInv(s.cat.stock, s.cat.reservations, s.supply) && Requested(s, o, cause)
    requires o in s.cat.reservations && s.cat.reservations[o].status == RESERVED && o !in s.releasing
    ensures BeginRelease(s, t, o, cause) && FinishRelease(t, u, o)
    ensures o in u.cat.reservations && u.cat.reservations[o].status == RELEASED
  {
    var items := s.cat.reservations[o].items;
    t := s.(releasing := s.releasing[o := ReleaseTx(items, cause)]);
    ReleaseKeepsStock(s.cat, s.supply, o);
    var w := ReleaseWrite(t.cat, o, items).value;
    u := t.(cat := w, releasing := t.releasing - {o}, causes := t.causes[o := cause]);
  }

  lemma FinishReleaseReason(s: State, t: State, o: OrderId)
    requires FinishRelease(s, t, o) && ReleaseInv(s.cat.reservations, s.releasing)
    requires ReasonInv(s.ord, s.decided, s.releasing, s.causes, s.cat.reservations)
    ensures ReleaseInv(t.cat.reservations, t.releasing)
    ensures ReasonInv(t.ord, t.decided, t.releasing, t.causes, t.cat.reservations)
  {
  }

  lemma ReleaseEvolves(a: Catalog, b: Catalog, o: OrderId, releasing: map<OrderId, ReleaseTx>)
    requires ReleaseInv(a.reservations, releasing) && o in releasing
    requires ReleaseWrite(a, o, releasing[o].items) == Ok(b)
    ensures RowsEvolve(a.reservations, b.reservations)
  {
  }

  lemma FinishReleaseKeeps(s: State, t: State, o: OrderId)
    requires Inv(s) && FinishRelease(s, t, o)
    ensures Inv(t) && Forward(s, t)
  {
    ReleaseKeepsStock(s.cat, s.supply, o);
    ReleaseEvolves(s.cat, t.cat, o, s.releasing);
    SameForward(s, t);
    KeptReservations(s, t.cat.reservations);
    FinishReleaseReason(s, t, o);
    CommitKept(s, t);
  }

  lemma AbortReleaseKeeps(s: State, t: State, o: OrderId)
    requires Inv(s) && AbortRelease(s, t, o)
    ensures Inv(t) && Forward(s, t)
  {
    SameForward(s, t);
    assert ReleaseInv(t.cat.reservations, t.releasing);
    assert ReasonInv(t.ord, t.decided, t.releasing, t.causes, t.cat.reservations);
  }

  /** A commit changes at most one reservation, from RESERVED to COMMITTED. */
  lemma CommitEffect(cat: Catalog, o: OrderId, releasing: map<OrderId, ReleaseTx>)
    requires ReleaseInv(cat.reservations, releasing)
    ensures var rs, after := cat.reservations, CommitReserved(cat, o).reservations;
            && RowsEvolve(rs, after) && after.Keys == rs.Keys
            && ReleaseInv(after, releasing)
  {
  }

  lemma ApplyCommitKeeps(s: State, t: State, o: OrderId)
    requires Inv(s) && ApplyCommit(s, t, o)
    ensures Inv(t) && Forward(s, t)
  {
    CommitKeepsStock(s.cat, s.supply, o);
    CommitEffect(s.cat, o, s.releasing);
    KeptReservations(s, t.cat.reservations);
    SameForward(s, t);
    CommitReasons(s, t, o);
  }

  lemma CommitReasons(s: State, t: State, o: OrderId)
    requires ApplyCommit(s, t, o)
    requires ReasonInv(s.ord, s.decided, s.releasing, s.causes, s.cat.reservations)
    requires CommitInv(s.ord, s.commits, s.cat.reservations)
    ensures ReasonInv(t.ord, t.decided, t.releasing, t.causes, t.cat.reservations)
    ensures CommitInv(t.ord, t.commits, t.cat.reservations)
  {
    ReasonKept(s, t);
    CommitKept(s, t);
  }

  lemma DeliverCreatedKeeps(s: State, t: State, e: CallId)
    requires Inv(s) && DeliverCreated(s, t, e)
    ensures Inv(t) && Forward(s, t)
  {
    CreatedTouchesRows(s, t, e);
    SameForward(s, t);
  }

  lemma CreatedTouchesRows(s: State, t: State, e: CallId)
    requires DeliverCreated(s, t, e)
    ensures t == s.(cat := t.cat) && t.cat.stock == s.cat.stock && t.cat.reservations == s.cat.reservations
  {
  }

  lemma FewerCommits(ord: Orders, a: multiset<OrderId>, b: multiset<OrderId>, rs: map<OrderId, Reservation>)
    requires CommitInv(ord, a, rs) && b <= a
    ensures CommitInv(ord, b, rs)
  {
  }

  lemma DropCommitKeeps(s: State, t: State, o: OrderId)
    requires Inv(s) && DropCommit(s, t, o)
    ensures Inv(t) && Forward(s, t)
  {
    FewerCommits(s.ord, s.commits, t.commits, s.cat.reservations);
    SameForward(s, t);
  }

  lemma SetStockKeeps(s: State, t: State, p: ProductId, n: nat)
    requires Inv(s) && SetStock(s, t, p, n)
    ensures Inv(t) && Forward(s, t)
  {
    SameForward(s, t);
    SetStockKeepsStock(s, t, p, n);
  }

  // ---------------------------------------------------------------------------------------------
  // Transitions that change an order's status

  /** Only statuses change, and only forwards. */
  ghost predicate Advances(a: Orders, b: Orders) {
    && b.orders.Keys == a.orders.Keys
    && (forall o :: o in a.orders ==>
        && b.orders[o] == a.orders[o].(status := b.orders[o].status)
        && Later(a.orders[o].status, b.orders[o].status))
    && b.records == a.records
    && b.createdRows == a.createdRows
  }

  lemma AdvanceKeepsOrders(a: Orders, b: Orders, creator: map<OrderId, CallId>, calls: map<CallId, Call>)
    requires Advances(a, b) && OrderInv(a, creator, calls)
    ensures OrderInv(b, creator, calls)
  {
  }

  lemma AdvanceKeepsRecords(a: Orders, b: Orders)
    requires Advances(a, b) && RecordInv(a)
    ensures RecordInv(b)
  {
  }

  lemma AdvanceKeepsReturns(a: Orders, b: Orders, calls: map<CallId, Call>, rs: map<OrderId, Reservation>)
    requires Advances(a, b) && ReturnInv(a, calls) && AgreeInv(a, rs)
    ensures ReturnInv(b, calls) && AgreeInv(b, rs)
  {
    forall c | c in calls ensures GoodReturn(b, c, calls[c]) {
      assert GoodReturn(a, c, calls[c]);
    }
  }

  lemma AdvanceKeepsReasons(s: State, b: Orders)
    requires Advances(s.ord, b)
    requires ReasonInv(s.ord, s.decided, s.releasing, s.causes, s.cat.reservations)
    ensures ReasonInv(b, s.decided, s.releasing, s.causes, s.cat.reservations)
  {
  }

  lemma AdvanceKeepsCommits(a: Orders, b: Orders, commits: multiset<OrderId>, rs: map<OrderId, Reservation>)
    requires Advances(a, b) && CommitInv(a, commits, rs)
    ensures CommitInv(b, commits, rs)
  {
  }

  lemma AdvanceKeepsSeen(a: Orders, b: Orders, reconciling: map<OrderId, Option<Order>>)
    requires Advances(a, b) && SeenInv(a, reconciling)
    ensures SeenInv(b, reconciling)
  {
  }

  /** A compare-and-set along an edge of the status graph, by a writer that edge is allowed to. */
  lemma WriteEffect(s: State, o: OrderId, from: set<OrderStatus>, to: OrderStatus, writer: Writer)
    requires RowsInv(s.ord) && HistoryInv(s.ord, s.history)
    requires forall x :: x in from ==> AllowedChange(Change(x, to, writer))
    ensures var b := CompareAndSet(s.ord, o, from, to).0;
            && Advances(s.ord, b) && RowsInv(b) && HistoryInv(b, Logged(s, b, o, writer))
            && OrdersEvolve(s.ord, s.history, b, Logged(s, b, o, writer))
  {
    var (b, won) := CompareAndSet(s.ord, o, from, to);
    if won {
      WriteAdvances(s.ord, b, o, from, to);
      HistoryKept(s, b, o, from, to, writer);
      RowsKept(s.ord, b, o, from, to);
      WriteIsLogged(s, b, o, from, to, writer);
    } else {
      assert b == s.ord && Logged(s, b, o, writer) == s.history;
      SameOrders(s.ord, s.history);
    }
  }

  lemma WriteIsLogged(s: State, b: Orders, o: OrderId, from: set<OrderStatus>, to: OrderStatus, writer: Writer)
    requires (b, true) == CompareAndSet(s.ord, o, from, to) && o in s.history
    requires forall x :: x in from ==> CanTransition(x, to)
    ensures OrdersEvolve(s.ord, s.history, b, Logged(s, b, o, writer))
  {
    EdgeIsLater(s.ord.orders[o].status, to);
    assert Logged(s, b, o, writer)[o] == s.history[o] + [Change(s.ord.orders[o].status, to, writer)];
  }

  lemma WriteAdvances(a: Orders, b: Orders, o: OrderId, from: set<OrderStatus>, to: OrderStatus)
    requires (b, true) == CompareAndSet(a, o, from, to)
    requires forall x :: x in from ==> CanTransition(x, to)
    ensures Advances(a, b)
  {
    EdgeIsLater(a.orders[o].status, to);
  }

  lemma EdgeIsLater(x: OrderStatus, y: OrderStatus)
    requires CanTransition(x, y)
    ensures Later(x, y) && x != y
  {
  }

  lemma HistoryKept(s: State, b: Orders, o: OrderId, from: set<OrderStatus>, to: OrderStatus, writer: Writer)
    requires HistoryInv(s.ord, s.history) && (b, true) == CompareAndSet(s.ord, o, from, to)
    requires forall x :: x in from ==> AllowedChange(Change(x, to, writer))
    ensures HistoryInv(b, Logged(s, b, o, writer))
  {
    HistoryExtends(s.history[o], Change(s.ord.orders[o].status, to, writer));
    EdgeIsLater(s.ord.orders[o].status, to);
  }

  lemma RowsKept(a: Orders, b: Orders, o: OrderId, from: set<OrderStatus>, to: OrderStatus)
    requires RowsInv(a) && (b, true) == CompareAndSet(a, o, from, to)
    requires forall x :: x in from ==> CanTransition(x, to)
    ensures RowsInv(b)
  {
    forall q: OrderId ensures b.releaseRows[q] == if CancelledIn(b, q) then 1 else 0 {
      assert a.releaseRows[q] == if CancelledIn(a, q) then 1 else 0;
      if q == o { assert a.orders[o].status in from; }
    }
  }

  /** The state with the order database and the history replaced keeps the invariants. */
  lemma StatusKeeps(s: State, m: State)
    requires Inv(s) && m == s.(ord := m.ord, history := m.history)
    requires Advances(s.ord, m.ord) && RowsInv(m.ord) && HistoryInv(m.ord, m.history)
    ensures Inv(m)
  {
    AdvanceKeepsOrders(s.ord, m.ord, s.creator, s.calls);
    AdvanceKeepsRecords(s.ord, m.ord);
    AdvanceKeepsReturns(s.ord, m.ord, s.calls, s.cat.reservations);
    AdvanceKeepsReasons(s, m.ord);
    AdvanceKeepsCommits(s.ord, m.ord, s.commits, s.cat.reservations);
    AdvanceKeepsSeen(s.ord, m.ord, s.reconciling);
  }

  lemma StatusForward(s: State, t: State)
    requires t.cat == s.cat && t.decided == s.decided && OrdersEvolve(s.ord, s.history, t.ord, t.history)
    ensures Forward(s, t)
  {
    SameRows(s.cat.reservations);
    SameDecisions(s.decided, s.ord);
  }

  lemma DeliverFailedKeeps(s: State, t: State, o: OrderId)
    requires Inv(s) && DeliverFailed(s, t, o)
    ensures Inv(t) && Forward(s, t)
  {
    WriteEffect(s, o, {PENDING, CONFIRMED}, CANCELLED, StockFailureHandler);
    StatusKeeps(s, t);
    StatusForward(s, t);
  }

  lemma FinishUpdateKeeps(s: State, t: State, u: nat)
    requires Inv(s) && FinishUpdate(s, t, u)
    ensures Inv(t) && Forward(s, t)
  {
    var x := s.updates[u];
    WriteEffect(s, x.order, {x.seen}, x.target, WriterOf(x));
    var m := s.(ord := t.ord, history := t.history);
    StatusKeeps(s, m);
    assert t == m.(updates := t.updates);
    FewerUpdates(s.updates, t.updates);
    StatusForward(s, t);
  }

  lemma FewerUpdates(a: map<nat, UpdateTx>, b: map<nat, UpdateTx>)
    requires UpdateInv(a) && forall u :: u in b ==> u in a && b[u] == a[u]
    ensures UpdateInv(b)
  {
  }

  lemma SameIsAdvance(a: Orders)
    ensures Advances(a, a)
  {
  }

  /** A verdict is backed by the order as it is when the verdict is given. */
  lemma VerdictReason(s: State, t: State, o: OrderId, now: int)
    requires FinishReconcile(s, t, o, now) && Advances(s.ord, t.ord)
    requires SeenInv(s.ord, s.reconciling) && SeenInv(t.ord, s.reconciling)
    requires ReasonInv(t.ord, s.decided, s.releasing, s.causes, s.cat.reservations)
    ensures ReasonInv(t.ord, t.decided, t.releasing, t.causes, t.cat.reservations)
  {
  }

  lemma VerdictCommit(s: State, t: State, o: OrderId, now: int)
    requires FinishReconcile(s, t, o, now) && SeenInv(t.ord, s.reconciling)
    requires CommitInv(t.ord, s.commits, s.cat.reservations)
    ensures CommitInv(t.ord, t.commits, t.cat.reservations) && SeenInv(t.ord, t.reconciling)
  {
  }

  lemma ReconcileWrites(s: State, t: State, o: OrderId, now: int)
    requires FinishReconcile(s, t, o, now) && RowsInv(s.ord) && HistoryInv(s.ord, s.history)
    ensures Advances(s.ord, t.ord) && RowsInv(t.ord) && HistoryInv(t.ord, t.history)
    ensures OrdersEvolve(s.ord, s.history, t.ord, t.history)
  {
    if s.reconciling[o].Some? && Overdue(s.reconciling[o].value, now) {
      WriteEffect(s, o, {PENDING}, CANCELLED, Reconciler);
    } else {
      SameIsAdvance(s.ord);
      SameOrders(s.ord, s.history);
      assert t.ord == s.ord && t.history == s.history;
    }
  }

  lemma FinishReconcileKeeps(s: State, t: State, o: OrderId, now: int)
    requires Inv(s) && FinishReconcile(s, t, o, now)
    ensures Inv(t) && Forward(s, t)
  {
    ReconcileWrites(s, t, o, now);
    var m := s.(ord := t.ord, history := t.history);
    StatusKeeps(s, m);
    assert t == m.(reconciling := t.reconciling, decided := t.decided, commits := t.commits);
    VerdictReason(s, t, o, now);
    VerdictCommit(s, t, o, now);
    SameRows(s.cat.reservations);
    VerdictDecision(s, t, o, now);
  }

  lemma VerdictDecision(s: State, t: State, o: OrderId, now: int)
    requires FinishReconcile(s, t, o, now) && SeenInv(s.ord, s.reconciling)
    ensures DecisionsEvolve(s.decided, s.ord, t.decided)
  {
  }

  lemma BeginReconcileKeeps(s: State, t: State, o: OrderId)
    requires Inv(s) && BeginReconcile(s, t, o)
    ensures Inv(t) && Forward(s, t)
  {
    SameForward(s, t);
    FreshRead(s.ord, s.reconciling, o);
  }

  lemma FreshRead(ord: Orders, reconciling: map<OrderId, Option<Order>>, o: OrderId)
    requires SeenInv(ord, reconciling)
    ensures SeenInv(ord, reconciling[o := Find(ord, o)])
  {
  }

  lemma AbortReconcileKeeps(s: State, t: State, o: OrderId)
    requires Inv(s) && AbortReconcile(s, t, o)
    ensures Inv(t) && Forward(s, t)
  {
    SameForward(s, t);
    assert SeenInv(t.ord, t.reconciling);
  }

  lemma BeginUpdateKeeps(s: State, t: State, u: nat, o: OrderId, target: OrderStatus, user: UserId, admin: bool)
    requires Inv(s) && BeginUpdate(s, t, u, o, target, user, admin)
    ensures Inv(t) && Forward(s, t)
  {
    SameForward(s, t);
    CheckedUpdate(s, t, u, o, target, user, admin);
  }

  /** What passes the checks of updateOrderStatus is an edge its writer is allowed to take. */
  lemma CheckedUpdate(s: State, t: State, u: nat, o: OrderId, target: OrderStatus, user: UserId, admin: bool)
    requires UpdateInv(s.updates) && BeginUpdate(s, t, u, o, target, user, admin)
    ensures UpdateInv(t.updates)
  {
  }

  // ---------------------------------------------------------------------------------------------
  // The creating transaction

  lemma CreateOrders(s: State, t: State, c: CallId, now: int, lost: bool)
    requires Create(s, t, c, now, lost)
    requires CallInv(s.calls, s.replies) && OrderInv(s.ord, s.creator, s.calls)
    ensures OrderInv(t.ord, t.creator, t.calls)
  {
    OrdersKeepCall(s, c, t.calls[c]);
    var order := OrderOf(c, s.calls[c], now);
    if t.ord != s.ord {
      assert t.ord.orders == s.ord.orders[order.id := order];
      InsertOrder(s.ord, t.ord, s.creator, t.calls, c, order);
    }
  }

  /** One new order with its own event row keeps the correspondence. */
  lemma InsertOrder(a: Orders, b: Orders, creator: map<OrderId, CallId>, calls: map<CallId, Call>, c: CallId, x: Order)
    requires OrderInv(a, creator, calls) && c in calls && MadeBy(x, c, calls[c])
    requires x.id !in a.orders && c !in a.createdRows
    requires b.orders == a.orders[x.id := x] && b.createdRows == a.createdRows[c := x.id]
    ensures OrderInv(b, creator[x.id := c], calls)
  {
  }

  lemma CreateRecords(s: State, t: State, c: CallId, now: int, lost: bool)
    requires Create(s, t, c, now, lost) && CallInv(s.calls, s.replies) && RecordInv(s.ord)
    ensures RecordInv(t.ord)
  {
  }

  lemma CreateAgrees(s: State, t: State, c: CallId, now: int, lost: bool)
    requires Create(s, t, c, now, lost)
    requires CallInv(s.calls, s.replies) && ReplyInv(s.calls, s.replies, s.cat.reservations)
    requires AgreeInv(s.ord, s.cat.reservations)
    ensures AgreeInv(t.ord, t.cat.reservations)
  {
    CanonicalMeaning(s.calls[c].items);
  }

  lemma CreateReturns(s: State, t: State, c: CallId, now: int, lost: bool)
    requires Create(s, t, c, now, lost)
    requires CallInv(s.calls, s.replies) && RecordInv(s.ord) && ReturnInv(s.ord, s.calls)
    ensures ReturnInv(t.ord, t.calls)
  {
    if FindRecord(s.ord, s.calls[c].user, s.calls[c].key).Some? { ReplayIsGood(s, c); }
    forall d | d in t.calls ensures GoodReturn(t.ord, d, t.calls[d]) {
      if d != c { assert GoodReturn(s.ord, d, s.calls[d]); }
    }
  }

  lemma CreateRows(s: State, t: State, c: CallId, now: int, lost: bool)
    requires Create(s, t, c, now, lost) && RowsInv(s.ord)
    ensures RowsInv(t.ord)
  {
    forall o: OrderId ensures t.ord.releaseRows[o] == if CancelledIn(t.ord, o) then 1 else 0 {
      assert s.ord.releaseRows[o] == if CancelledIn(s.ord, o) then 1 else 0;
    }
  }

  lemma CreateHistory(s: State, t: State, c: CallId, now: int, lost: bool)
    requires Create(s, t, c, now, lost) && HistoryInv(s.ord, s.history)
    ensures HistoryInv(t.ord, t.history)
  {
  }

  lemma CreateSeen(s: State, t: State, c: CallId, now: int, lost: bool)
    requires Create(s, t, c, now, lost) && SeenInv(s.ord, s.reconciling)
    ensures SeenInv(t.ord, t.reconciling)
  {
  }

  lemma CreateReasons(s: State, t: State, c: CallId, now: int, lost: bool)
    requires Create(s, t, c, now, lost)
    requires ReasonInv(s.ord, s.decided, s.releasing, s.causes, s.cat.reservations)
    requires CommitInv(s.ord, s.commits, s.cat.reservations)
    ensures ReasonInv(t.ord, t.decided, t.releasing, t.causes, t.cat.reservations)
    ensures CommitInv(t.ord, t.commits, t.cat.reservations)
  {
    assert forall o :: o in s.ord.orders ==> o in t.ord.orders && t.ord.orders[o] == s.ord.orders[o];
    MoreOrdersKeepReasons(s, t.ord);
  }

  lemma MoreOrdersKeepReasons(s: State, b: Orders)
    requires forall o :: o in s.ord.orders ==> o in b.orders && b.orders[o] == s.ord.orders[o]
    requires ReasonInv(s.ord, s.decided, s.releasing, s.causes, s.cat.reservations)
    requires CommitInv(s.ord, s.commits, s.cat.reservations)
    ensures ReasonInv(b, s.decided, s.releasing, s.causes, s.cat.reservations)
    ensures CommitInv(b, s.commits, s.cat.reservations)
  {
  }

  lemma CreateKeeps(s: State, t: State, c: CallId, now: int, lost: bool)
    requires Inv(s) && Create(s, t, c, now, lost)
    ensures Inv(t) && Forward(s, t)
  {
    CallsKeep(s, c, t.calls[c]);
    CreateOrders(s, t, c, now, lost);
    CreateRecords(s, t, c, now, lost);
    CreateAgrees(s, t, c, now, lost);
    CreateReturns(s, t, c, now, lost);
    CreateRows(s, t, c, now, lost);
    CreateHistory(s, t, c, now, lost);
    CreateSeen(s, t, c, now, lost);
    CreateReasons(s, t, c, now, lost);
    CreateEvolves(s, t, c, now, lost);
    SameRows(s.cat.reservations);
    SameDecisions(s.decided, s.ord);
  }

  lemma CreateEvolves(s: State, t: State, c: CallId, now: int, lost: bool)
    requires Create(s, t, c, now, lost)
    ensures OrdersEvolve(s.ord, s.history, t.ord, t.history)
  {
    SameOrders(s.ord, s.history);
  }

  // ---------------------------------------------------------------------------------------------

  lemma EventStepKeeps(s: State, t: State, o: OrderId)
    requires Inv(s) && EventStep(s, t, o)
    ensures Inv(t) && Forward(s, t)
  {
    if cause :| BeginRelease(s, t, o, cause) {
      BeginReleaseKeeps(s, t, o, cause);
    } else if FinishRelease(s, t, o) {
      FinishReleaseKeeps(s, t, o);
    } else if AbortRelease(s, t, o) {
      AbortReleaseKeeps(s, t, o);
    } else if e :| e in s.ord.createdRows && s.ord.createdRows[e] == o && DeliverCreated(s, t, e) {
      DeliverCreatedKeeps(s, t, e);
    } else if ApplyCommit(s, t, o) {
      ApplyCommitKeeps(s, t, o);
    } else if DropCommit(s, t, o) {
      DropCommitKeeps(s, t, o);
    } else if DeliverFailed(s, t, o) {
      DeliverFailedKeeps(s, t, o);
    } else if BeginReconcile(s, t, o) {
      BeginReconcileKeeps(s, t, o);
    } else if now :| FinishReconcile(s, t, o, now) {
      FinishReconcileKeeps(s, t, o, now);
    } else {
      AbortReconcileKeeps(s, t, o);
    }
  }

  lemma CallStepKeeps(s: State, t: State, c: CallId)
    requires Inv(s) && CallStep(s, t, c)
    ensures Inv(t) && Forward(s, t)
  {
    if user, key, raw :| StartCall(s, t, c, user, key, raw) {
      StartKeeps(s, t, c, user, key, raw);
    } else if Lookup(s, t, c) {
      LookupKeeps(s, t, c);
    } else if replies :| PriceCall(s, t, c, replies) {
      PriceKeeps(s, t, c, replies);
    } else if ExecReserve(s, t, c) {
      ExecReserveKeeps(s, t, c);
    } else if ReserveAnswered(s, t, c) {
      MoveKeeps(s, t, c, Reserved);
    } else if GiveUp(s, t, c) {
      MoveKeeps(s, t, c, Threw);
    } else if now, lost :| Create(s, t, c, now, lost) {
      CreateKeeps(s, t, c, now, lost);
    } else if unique :| CreateAborts(s, t, c, unique) {
      MoveKeeps(s, t, c, CreateFailed(unique));
    } else if Recheck(s, t, c) {
      RecheckKeeps(s, t, c);
    } else {
      GiveBackKeeps(s, t, c);
    }
  }

  lemma UserStepKeeps(s: State, t: State)
    requires Inv(s) && UserStep(s, t)
    ensures Inv(t) && Forward(s, t)
  {
    if p, n :| SetStock(s, t, p, n) {
      SetStockKeeps(s, t, p, n);
    } else if u, o, target, user, admin :| BeginUpdate(s, t, u, o, target, user, admin) {
      BeginUpdateKeeps(s, t, u, o, target, user, admin);
    } else {
      var u :| FinishUpdate(s, t, u);
      FinishUpdateKeeps(s, t, u);
    }
  }

  lemma InvNext(s: State, t: State)
    requires Inv(s) && Next(s, t)
    ensures Inv(t) && Forward(s, t)
  {
    if o :| EventStep(s, t, o) {
      EventStepKeeps(s, t, o);
    } else if c :| CallStep(s, t, c) {
      CallStepKeeps(s, t, c);
    } else {
      UserStepKeeps(s, t);
    }
  }

  lemma InvInit(stock: map<ProductId, nat>)
    ensures Inv(Init(stock))
  {
  }

  /** Every state of every run satisfies the invariants. */
  lemma {:induction false} InvRun(run: seq<State>, i: nat)
    requires IsRun(run) && i < |run|
    ensures Inv(run[i])
  {
    if i == 0 {
      var stock :| run[0] == Init(stock);
      InvInit(stock);
    } else {
      InvRun(run, i - 1);
      assert Next(run[i - 1], run[i - 1 + 1]);
      InvNext(run[i - 1], run[i]);
    }
  }
}

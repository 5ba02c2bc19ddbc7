/** What holds of every run of the saga. */
module SagaTheorems {
  import opened Domain
  import opened Items
  import opened Money
  import opened OrderStatusMachine
  import opened CatalogDb
  import opened OrderDb
  import opened Saga
  import opened SagaFrames
  import opened SagaInvariants
  import opened SagaSteps

  // ---------------------------------------------------------------------------------------------
  // Conservation of stock

  /** In every reachable state stock plus what unreleased reservations hold is the supply, for every
      product, and no stock is negative. */
  lemma StockIsConserved(run: seq<State>, i: nat, p: ProductId)
    requires IsRun(run) && i < |run|
    requires p in run[i].cat.stock
    ensures p in run[i].supply
    ensures run[i].cat.stock[p] + Held(run[i].cat.reservations, p) == run[i].supply[p]
    ensures run[i].cat.stock[p] >= 0
  {
    InvRun(run, i);
  }

  /** One transition of a run, from and to states that satisfy the invariants. */
  lemma RunStep(run: seq<State>, i: nat)
    requires IsRun(run) && i + 1 < |run|
    ensures Inv(run[i]) && Inv(run[i + 1]) && Forward(run[i], run[i + 1])
  {
    InvRun(run, i);
    assert Next(run[i], run[i + 1]);
    InvNext(run[i], run[i + 1]);
  }

  /** What a run looks like once InvNext has been applied to every transition. */
  ghost predicate GoodRun(run: seq<State>) {
    && (forall i :: 0 <= i < |run| ==> Inv(run[i]))
    && (forall i :: 0 <= i < |run| - 1 ==> Forward(run[i], run[i + 1]))
  }

  lemma RunIsGood(run: seq<State>)
    requires IsRun(run)
    ensures GoodRun(run)
  {
    forall i | 0 <= i < |run| ensures Inv(run[i]) { InvRun(run, i); }
    forall i | 0 <= i < |run| - 1 ensures Forward(run[i], run[i + 1]) { RunStep(run, i); }
  }

  // ---------------------------------------------------------------------------------------------
  // Each reservation's stock is given back at most once

  ghost predicate RowsEvolveAlong(run: seq<State>) {
    forall k :: 0 <= k < |run| - 1 ==> RowsEvolve(run[k].cat.reservations, run[k + 1].cat.reservations)
  }

  lemma RunRowsEvolve(run: seq<State>)
    requires GoodRun(run)
    ensures RowsEvolveAlong(run)
  {
    forall k | 0 <= k < |run| - 1 ensures RowsEvolve(run[k].cat.reservations, run[k + 1].cat.reservations) {
      assert Forward(run[k], run[k + 1]);
    }
  }

  lemma {:induction false} ReleasedRowStays(run: seq<State>, i: nat, j: nat, o: OrderId)
    requires RowsEvolveAlong(run) && i <= j < |run|
    requires o in run[i].cat.reservations && run[i].cat.reservations[o].status == RELEASED
    ensures o in run[j].cat.reservations && run[j].cat.reservations[o] == run[i].cat.reservations[o]
  {
    if i < j {
      ReleasedRowStays(run, i, j - 1, o);
      assert RowsEvolve(run[j - 1].cat.reservations, run[j - 1 + 1].cat.reservations);
    }
  }

  /** A RELEASED reservation is the same in every later state of a run. */
  lemma ReleasedIsFinal(run: seq<State>, i: nat, j: nat, o: OrderId)
    requires IsRun(run) && i <= j < |run|
    requires o in run[i].cat.reservations && run[i].cat.reservations[o].status == RELEASED
    ensures o in run[j].cat.reservations && run[j].cat.reservations[o] == run[i].cat.reservations[o]
  {
    RunIsGood(run);
    RunRowsEvolve(run);
    ReleasedRowStays(run, i, j, o);
  }

  /** Two completed releases of one order in a run are the same transition. The lock-free commit may run
      between the read and the write of either. */
  lemma GivenBackOnce(run: seq<State>, i: nat, j: nat, o: OrderId)
    requires IsRun(run) && i < |run| - 1 && j < |run| - 1
    requires FinishRelease(run[i], run[i + 1], o) && FinishRelease(run[j], run[j + 1], o)
    ensures i == j
  {
    RunIsGood(run);
    RunRowsEvolve(run);
    if i < j { NoReleaseAfter(run, i, j, o); }
    if j < i { NoReleaseAfter(run, j, i, o); }
  }

  lemma NoReleaseAfter(run: seq<State>, i: nat, j: nat, o: OrderId)
    requires RowsEvolveAlong(run) && i < j < |run|
    requires ReleaseInv(run[j].cat.reservations, run[j].releasing)
    requires FinishRelease(run[i], run[i + 1], o)
    ensures o !in run[j].releasing
  {
    ReleasedRowStays(run, i + 1, j, o);
  }

  // ---------------------------------------------------------------------------------------------
  // Delayed decisions stay sound

  /** A COMMITTED reservation has an order that was paid, whatever has happened to it since. */
  lemma CommittedIsSettled(run: seq<State>, i: nat, o: OrderId)
    requires IsRun(run) && i < |run|
    requires o in run[i].cat.reservations && run[i].cat.reservations[o].status == COMMITTED
    ensures o in run[i].ord.orders
    ensures run[i].ord.orders[o].status in {PAID, SHIPPED, COMPLETED, CANCELLED}
  {
    InvRun(run, i);
    CommitHasOrder(run[i].ord, run[i].commits, run[i].cat.reservations, o);
  }

  lemma CommitHasOrder(ord: Orders, commits: multiset<OrderId>, rs: map<OrderId, Reservation>, o: OrderId)
    requires CommitInv(ord, commits, rs) && o in rs && rs[o].status == COMMITTED
    ensures o in ord.orders && ord.orders[o].status in {PAID, SHIPPED, COMPLETED, CANCELLED}
  {
  }

  lemma {:induction false} AbsentWhenDecided(run: seq<State>, i: nat, o: OrderId) returns (j: nat)
    requires i < |run| && run[0].decided == {}
    requires DecisionsAlong(run) && Decision(o, OrderAbsent) in run[i].decided
    ensures j < i && o !in run[j].ord.orders
    ensures Decision(o, OrderAbsent) !in run[j].decided && Decision(o, OrderAbsent) in run[j + 1].decided
  {
    assert i > 0;
    assert DecisionsEvolve(run[i - 1].decided, run[i - 1].ord, run[i - 1 + 1].decided);
    if Decision(o, OrderAbsent) in run[i - 1].decided {
      j := AbsentWhenDecided(run, i - 1, o);
    } else {
      j := i - 1;
    }
  }

  /** Along the run reservations become RELEASED only by a completed release. */
  ghost predicate ReleasesAlong(run: seq<State>, o: OrderId) {
    forall i, j :: 0 <= i && j == i + 1 && j < |run| && IsReleased(run[j], o) ==>
      IsReleased(run[i], o) || FinishRelease(run[i], run[j], o)
  }

  lemma RunReleasesAlong(run: seq<State>, o: OrderId)
    requires IsRun(run)
    ensures ReleasesAlong(run, o)
  {
    forall i, j | 0 <= i && j == i + 1 && j < |run| && IsReleased(run[j], o)
      ensures IsReleased(run[i], o) || FinishRelease(run[i], run[j], o)
    {
      assert Next(run[i], run[i + 1]);
      ReleasedByFinish(run[i], run[j], o);
    }
  }

  lemma {:induction false} ReleaseFound(run: seq<State>, i: nat, o: OrderId) returns (r: nat)
    requires ReleasesAlong(run, o) && i < |run| && !IsReleased(run[0], o) && IsReleased(run[i], o)
    ensures r < i && FinishRelease(run[r], run[r + 1], o)
  {
    r := i - 1;
    if IsReleased(run[i - 1], o) {
      r := ReleaseFound(run, i - 1, o);
    }
  }

  ghost predicate CancelledAlong(run: seq<State>, o: OrderId) {
    forall i, j :: 0 <= i && j == i + 1 && j < |run| && CancelledIn(run[i].ord, o) ==> CancelledIn(run[j].ord, o)
  }

  lemma RunCancelledAlong(run: seq<State>, o: OrderId)
    requires IsRun(run)
    ensures CancelledAlong(run, o)
  {
    forall i, j | 0 <= i && j == i + 1 && j < |run| && CancelledIn(run[i].ord, o) ensures CancelledIn(run[j].ord, o) {
      RunStep(run, i);
      CancelledIsFinal(run[i], run[j], o);
    }
  }

  lemma {:induction false} CancelledStays(run: seq<State>, i: nat, j: nat, o: OrderId)
    requires CancelledAlong(run, o) && i <= j < |run| && CancelledIn(run[i].ord, o)
    ensures CancelledIn(run[j].ord, o)
    decreases j - i
  {
    if i < j { CancelledStays(run, i, j - 1, o); }
  }

  lemma ReasonAt(run: seq<State>, r: nat, o: OrderId)
    requires IsRun(run) && r < |run| && o in run[r].releasing && !CancelledIn(run[r].ord, o)
    ensures run[r].releasing[o].cause == OrderAbsent && Decision(o, OrderAbsent) in run[r].decided
  {
    InvRun(run, r);
    assert ReasonInv(run[r].ord, run[r].decided, run[r].releasing, run[r].causes, run[r].cat.reservations);
  }

  ghost predicate DecisionsAlong(run: seq<State>) {
    forall k :: 0 <= k < |run| - 1 ==> DecisionsEvolve(run[k].decided, run[k].ord, run[k + 1].decided)
  }

  lemma RunDecisionsAlong(run: seq<State>)
    requires IsRun(run)
    ensures DecisionsAlong(run)
  {
    forall k | 0 <= k < |run| - 1 ensures DecisionsEvolve(run[k].decided, run[k].ord, run[k + 1].decided) {
      RunStep(run, k);
    }
  }

  /** If a reservation is RELEASED and its order exists and is not CANCELLED, then transition `r` released it,
      carrying out the decision that the order was missing; and that decision was made at an earlier
      transition `j`, in a state in which the order did not exist. */
  lemma ReleasedWithoutOrder(run: seq<State>, i: nat, o: OrderId) returns (j: nat, r: nat)
    requires IsRun(run) && i < |run|
    requires o in run[i].cat.reservations && run[i].cat.reservations[o].status == RELEASED
    requires o in run[i].ord.orders && run[i].ord.orders[o].status != CANCELLED
    ensures j < r < i
    ensures o !in run[j].ord.orders
    ensures Decision(o, OrderAbsent) !in run[j].decided && Decision(o, OrderAbsent) in run[j + 1].decided
    ensures FinishRelease(run[r], run[r + 1], o) && run[r].releasing[o].cause == OrderAbsent
  {
    RunReleasesAlong(run, o);
    r := ReleaseFound(run, i, o);
    RunCancelledAlong(run, o);
    if CancelledIn(run[r].ord, o) { CancelledStays(run, r, i, o); }
    ReasonAt(run, r, o);
    RunDecisionsAlong(run);
    j := AbsentWhenDecided(run, r, o);
  }

  // ---------------------------------------------------------------------------------------------
  // Exactly-once creation

  /** No two OrderCreated rows are for one order. */
  ghost predicate OneRowEach(createdRows: map<CallId, OrderId>) {
    forall e, f :: e in createdRows && f in createdRows && createdRows[e] == createdRows[f] ==> e == f
  }

  /** Per user and key there is at most one order; it has exactly one OrderCreated row and exactly one
      idempotency record, which exist as soon as the order does and store it as created. */
  lemma OneOrderPerKey(run: seq<State>, i: nat, user: UserId, key: Key)
    requires IsRun(run) && i < |run|
    ensures var ord := run[i].ord; var id := Keyed(user, key);
            && (forall o :: o in ord.orders && ord.orders[o].user == user && ord.orders[o].key == Some(key) ==> o == id)
            && (id in ord.orders <==> (user, key) in ord.records)
            && (id in ord.orders <==> exists e :: e in ord.createdRows && ord.createdRows[e] == id)
            && OneRowEach(ord.createdRows)
            && (id in ord.orders ==> ord.records[(user, key)].response == AsCreated(ord.orders[id]))
  {
    InvRun(run, i);
    OrderRows(run[i].ord, run[i].creator, run[i].calls, user, key);
    assert RecordInv(run[i].ord);
  }

  lemma OrderRows(ord: Orders, creator: map<OrderId, CallId>, calls: map<CallId, Call>, user: UserId, key: Key)
    requires OrderInv(ord, creator, calls)
    ensures forall o :: o in ord.orders && ord.orders[o].user == user && ord.orders[o].key == Some(key) ==>
              o == Keyed(user, key)
    ensures Keyed(user, key) in ord.orders <==>
              exists e :: e in ord.createdRows && ord.createdRows[e] == Keyed(user, key)
    ensures OneRowEach(ord.createdRows)
  {
    if Keyed(user, key) in ord.orders {
      var e := creator[Keyed(user, key)];
      assert e in ord.createdRows && ord.createdRows[e] == Keyed(user, key);
    }
  }

  /** A call that returns, with or without a key, returns its order as created, and asked for exactly the
      per-product totals of that response. */
  lemma ReturnsWhatWasAsked(run: seq<State>, i: nat, c: CallId)
    requires IsRun(run) && i < |run| && c in run[i].calls && run[i].calls[c].pc.Returned?
    ensures var (call, orders) := (run[i].calls[c], run[i].ord.orders);
            && IdOf(c, call) in orders && call.pc.response == AsCreated(orders[IdOf(c, call)])
            && SameTotals(call.items, ItemsOf(call.pc.response.lines))
  {
    InvRun(run, i);
    var s := run[i];
    var call := s.calls[c];
    var o := IdOf(c, call);
    assert GoodReturn(s.ord, c, call) && GoodCall(c, call, s.replies);
    CreatedLines(s.ord, s.creator, s.calls, s.replies, o);
    SameRequestSameTotals(call.items, ItemsOf(s.ord.orders[o].lines));
  }

  /** The lines of a stored order are those of the call that created it. */
  lemma CreatedLines(ord: Orders, creator: map<OrderId, CallId>, calls: map<CallId, Call>,
                     replies: set<CallId>, o: OrderId)
    requires OrderInv(ord, creator, calls) && CallInv(calls, replies) && o in ord.orders
    ensures Distinct(ItemsOf(ord.orders[o].lines))
  {
    assert GoodCall(creator[o], calls[creator[o]], replies);
  }

  /** A call whose per-product totals differ from those stored under its user and key never returns. */
  lemma OtherTotalsNeverReturn(run: seq<State>, i: nat, c: CallId)
    requires IsRun(run) && i < |run| && c in run[i].calls && run[i].calls[c].key.Some?
    requires var (call, records) := (run[i].calls[c], run[i].ord.records);
             && (call.user, call.key.value) in records
             && !SameTotals(call.items, ItemsOf(records[(call.user, call.key.value)].response.lines))
    ensures !run[i].calls[c].pc.Returned?
  {
    InvRun(run, i);
    assert RecordInv(run[i].ord);
    if run[i].calls[c].pc.Returned? { ReturnsWhatWasAsked(run, i, c); }
  }

  /** Any two calls with one user and key that return, return the same response: the order as created. */
  lemma SameKeySameResponse(run: seq<State>, i: nat, c: CallId, d: CallId)
    requires IsRun(run) && i < |run|
    requires var calls := run[i].calls;
             && c in calls && d in calls
             && calls[c].user == calls[d].user && calls[c].key.Some? && calls[c].key == calls[d].key
             && calls[c].pc.Returned? && calls[d].pc.Returned?
    ensures var calls := run[i].calls;
            && calls[c].pc == calls[d].pc
            && SameTotals(calls[c].items, calls[d].items)
            && SameTotals(calls[c].items, ItemsOf(calls[c].pc.response.lines))
            && var id := Keyed(calls[c].user, calls[c].key.value);
            id in run[i].ord.orders && calls[c].pc.response == AsCreated(run[i].ord.orders[id])
  {
    InvRun(run, i);
    var s := run[i];
    assert GoodReturn(s.ord, c, s.calls[c]) && GoodReturn(s.ord, d, s.calls[d]);
    assert GoodCall(c, s.calls[c], s.replies) && GoodCall(d, s.calls[d], s.replies);
    SameRequestSameTotals(s.calls[c].items, s.calls[d].items);
    ReturnsWhatWasAsked(run, i, c);
  }

  lemma SameRequestSameTotals(a: seq<Item>, b: seq<Item>)
    requires Distinct(a) && Distinct(b) && RequestOf(a) == RequestOf(b)
    ensures SameTotals(a, b)
  {
    SortEffect(a);
    SortEffect(b);
    forall p ensures Total(a, p) == Total(b, p) {
      assert Total(RequestOf(a), p) == Total(a, p) && Total(RequestOf(b), p) == Total(b, p);
    }
  }

  // ---------------------------------------------------------------------------------------------
  // Agreement between the two services

  /** Every order has a reservation with the same quantity of every product, whichever of several calls
      with its key reserved the stock and whichever created the order. */
  lemma ServicesAgree(run: seq<State>, i: nat, o: OrderId, p: ProductId)
    requires IsRun(run) && i < |run| && o in run[i].ord.orders
    ensures o in run[i].cat.reservations
    ensures Total(ItemsOf(run[i].ord.orders[o].lines), p) == Total(run[i].cat.reservations[o].items, p)
  {
    InvRun(run, i);
    assert AgreeInv(run[i].ord, run[i].cat.reservations);
  }

  /** Every stored total is the exact sum of its lines; nothing was rounded away. */
  lemma StoredTotalsAreExact(run: seq<State>, i: nat, o: OrderId)
    requires IsRun(run) && i < |run| && o in run[i].ord.orders
    ensures run[i].ord.orders[o].total == ExactTotal(run[i].ord.orders[o].lines)
  {
    InvRun(run, i);
    assert OrderInv(run[i].ord, run[i].creator, run[i].calls);
    TotalIsExact(run[i].ord.orders[o].lines);
  }

  // ---------------------------------------------------------------------------------------------
  // One release request per cancelled order

  lemma OneReleaseRequest(run: seq<State>, i: nat, o: OrderId)
    requires IsRun(run) && i < |run|
    ensures var ord := run[i].ord;
            && (o in ord.orders && ord.orders[o].status == CANCELLED <==> ord.releaseRows[o] == 1)
            && (!(o in ord.orders && ord.orders[o].status == CANCELLED) <==> ord.releaseRows[o] == 0)
  {
    InvRun(run, i);
    assert RowsInv(run[i].ord);
  }

  // ---------------------------------------------------------------------------------------------
  // Status histories

  /** Between two states the order's status stays and its log too, or it moves along an edge of the table
      that its writer is allowed to take, and exactly that change is appended to the log. */
  ghost predicate LoggedChange(s: State, t: State, o: OrderId) {
    && o in s.ord.orders && o in t.ord.orders && o in s.history && o in t.history
    && var (x, y, n) := (s.ord.orders[o].status, t.ord.orders[o].status, |s.history[o]|);
    if x == y then t.history[o] == s.history[o]
    else
      && |t.history[o]| == n + 1 && t.history[o][..n] == s.history[o]
      && t.history[o][n].from == x && t.history[o][n].to == y
      && AllowedChange(t.history[o][n])
  }

  /** Every status change of every run is an edge of the table and is logged with its writer; the log is a
      path from PENDING of at most four changes; only administrators take an edge other than PENDING or
      CONFIRMED to CANCELLED. */
  lemma StatusHistories(run: seq<State>, i: nat, o: OrderId)
    requires IsRun(run) && i + 1 < |run| && o in run[i].ord.orders
    ensures LoggedChange(run[i], run[i + 1], o)
    ensures o in run[i].history && |run[i].history[o]| <= 4
    ensures IsHistory(run[i].history[o], run[i].ord.orders[o].status)
  {
    RunStep(run, i);
    ChangeIsLogged(run[i], run[i + 1], o);
  }

  lemma ChangeIsLogged(s: State, t: State, o: OrderId)
    requires HistoryInv(s.ord, s.history) && HistoryInv(t.ord, t.history)
    requires OrdersEvolve(s.ord, s.history, t.ord, t.history) && o in s.ord.orders
    ensures LoggedChange(s, t, o)
    ensures |s.history[o]| <= 4 && IsHistory(s.history[o], s.ord.orders[o].status)
  {
    assert o in s.history;
    HistoryBound(s.history[o], s.ord.orders[o].status);
    if t.ord.orders[o].status != s.ord.orders[o].status {
      var n := |s.history[o]|;
      assert t.history[o][..n] == s.history[o];
    }
  }
}

/** What single moves of the saga achieve, said by their meaning: who is told what, what is stored, and that
    every decision taken is also acted on. */
module SagaLaws {
  import opened Domain
  import opened Items
  import opened OrderStatusMachine
  import opened CatalogDb
  import opened OrderDb
  import opened Saga
  import opened SagaInvariants
  import opened SagaTheorems
  import SagaSteps

  // ---------------------------------------------------------------------------------------------
  // Creation

  /** The new order of call `c`: everything but the instant comes from the call and its quote. */
  predicate IsNewOrder(x: Order, c: CallId, call: Call, now: int) {
    && x.id == (if call.key.Some? then Keyed(call.user, call.key.value) else Random(c))
    && x.user == call.user && x.key == call.key
    && call.quote.Some? && x.lines == call.quote.value.lines && x.total == call.quote.value.total
    && x.status == PENDING && x.createdAt == now
  }

  /** An OrderCreated row belongs to the order of the call that made it. */
  lemma EventIsOwn(s: State, e: CallId)
    requires OrderInv(s.ord, s.creator, s.calls) && e in s.ord.createdRows
    ensures e in s.calls && s.ord.createdRows[e] == IdOf(e, s.calls[e]) && IdOf(e, s.calls[e]) in s.ord.orders
  {
    var o := s.ord.createdRows[e];
    assert MadeBy(s.ord.orders[o], s.creator[o], s.calls[s.creator[o]]);
  }

  lemma FreshIdentifiers(s: State, c: CallId)
    requires OrderInv(s.ord, s.creator, s.calls) && RecordInv(s.ord)
    requires c in s.calls && IdOf(c, s.calls[c]) !in s.ord.orders
    ensures c !in s.ord.createdRows && FindRecord(s.ord, s.calls[c].user, s.calls[c].key) == None
  {
    if c in s.ord.createdRows { EventIsOwn(s, c); }
  }

  lemma CreatesFresh(s: State, t: State, c: CallId, now: int)
    requires Create(s, t, c, now, false)
    requires IdOf(c, s.calls[c]) !in s.ord.orders
    requires c !in s.ord.createdRows && FindRecord(s.ord, s.calls[c].user, s.calls[c].key) == None
    ensures var call := s.calls[c];
            if call.quote.value.total < 1_000_000_000_000 then
              && t.calls[c].pc.Returned?
              && var x := t.calls[c].pc.response;
              && IsNewOrder(x, c, call, now)
              && t.ord.orders == s.ord.orders[x.id := x] && t.ord.createdRows == s.ord.createdRows[c := x.id]
            else t.calls[c].pc == CreateFailed(false) && t.ord == s.ord
  {
  }

  /** A creating transaction that finds no order under its id returns the order as priced, PENDING, dated now,
      and stores it with its event row, exactly if the total fits; otherwise it stores nothing and fails. */
  lemma FreshCreation(run: seq<State>, i: nat, c: CallId, now: int)
    requires IsRun(run) && i + 1 < |run| && Create(run[i], run[i + 1], c, now, false)
    requires IdOf(c, run[i].calls[c]) !in run[i].ord.orders
    ensures var (s, t, call) := (run[i], run[i + 1], run[i].calls[c]);
            if call.quote.value.total < 1_000_000_000_000 then
              && t.calls[c].pc.Returned?
              && var x := t.calls[c].pc.response;
              && IsNewOrder(x, c, call, now)
              && t.ord.orders == s.ord.orders[x.id := x] && t.ord.createdRows == s.ord.createdRows[c := x.id]
            else t.calls[c].pc == CreateFailed(false) && t.ord == s.ord
  {
    SagaSteps.InvRun(run, i);
    FreshIdentifiers(run[i], c);
    CreatesFresh(run[i], run[i + 1], c, now);
  }

  // ---------------------------------------------------------------------------------------------
  // Replay

  lemma SameTotalsSameRequest(a: seq<Item>, b: seq<Item>)
    requires Distinct(a) && Distinct(b) && Positive(a) && Positive(b)
    ensures RequestOf(a) == RequestOf(b) <==> SameTotals(a, b)
  {
    SortEffect(a);
    SortEffect(b);
    if SameTotals(a, b) {
      assert SameTotals(RequestOf(a), RequestOf(b));
      SortedUnique(RequestOf(a), RequestOf(b));
    }
    if RequestOf(a) == RequestOf(b) { SameRequestSameTotals(a, b); }
  }

  /** What is stored under the call's key, and what the call asks for. */
  lemma StoredRequest(s: State, c: CallId)
    requires OrderInv(s.ord, s.creator, s.calls) && RecordInv(s.ord) && CallInv(s.calls, s.replies)
    requires c in s.calls && s.calls[c].key.Some? && Keyed(s.calls[c].user, s.calls[c].key.value) in s.ord.orders
    ensures var (call, x) := (s.calls[c], s.ord.orders[Keyed(s.calls[c].user, s.calls[c].key.value)]);
            var record := FindRecord(s.ord, call.user, call.key);
            && record.Some? && record.value.response == x.(status := PENDING)
            && (record.value.request == RequestOf(call.items) <==> SameTotals(call.items, ItemsOf(x.lines)))
  {
    var (call, o) := (s.calls[c], Keyed(s.calls[c].user, s.calls[c].key.value));
    assert MadeBy(s.ord.orders[o], s.creator[o], s.calls[s.creator[o]]);
    assert GoodCall(c, call, s.replies) && GoodCall(s.creator[o], s.calls[s.creator[o]], s.replies);
    SameTotalsSameRequest(call.items, ItemsOf(s.ord.orders[o].lines));
  }

  /** The call is answered with the order of its key as created if it asks for the same quantity of every
      product, and otherwise goes to `refused`. */
  ghost predicate Replays(s: State, t: State, c: CallId, refused: CallPc) {
    && c in s.calls && s.calls[c].key.Some? && c in t.calls
    && var (call, id) := (s.calls[c], Keyed(s.calls[c].user, s.calls[c].key.value));
    && id in s.ord.orders
    && var same := SameTotals(call.items, ItemsOf(s.ord.orders[id].lines));
    && (same ==> t.calls[c].pc == Returned(s.ord.orders[id].(status := PENDING)))
    && (!same ==> t.calls[c].pc == refused)
  }

  lemma LookupReplays(s: State, t: State, c: CallId)
    requires Lookup(s, t, c) || Recheck(s, t, c)
    requires OrderInv(s.ord, s.creator, s.calls) && RecordInv(s.ord) && CallInv(s.calls, s.replies)
    requires s.calls[c].key.Some? && Keyed(s.calls[c].user, s.calls[c].key.value) in s.ord.orders
    ensures Replays(s, t, c, Threw)
  {
    StoredRequest(s, c);
  }

  lemma CreateReplays(s: State, t: State, c: CallId, now: int)
    requires Create(s, t, c, now, false)
    requires OrderInv(s.ord, s.creator, s.calls) && RecordInv(s.ord) && CallInv(s.calls, s.replies)
    requires s.calls[c].key.Some? && Keyed(s.calls[c].user, s.calls[c].key.value) in s.ord.orders
    ensures Replays(s, t, c, CreateFailed(false)) && t.ord == s.ord
  {
    StoredRequest(s, c);
  }

  /** Inside the creating transaction a call under a key that has an order gets that order in the same way, and
      stores nothing. */
  lemma CreationReplaysExactly(run: seq<State>, i: nat, c: CallId, now: int)
    requires IsRun(run) && i + 1 < |run| && Create(run[i], run[i + 1], c, now, false)
    requires run[i].calls[c].key.Some?
    requires Keyed(run[i].calls[c].user, run[i].calls[c].key.value) in run[i].ord.orders
    ensures Replays(run[i], run[i + 1], c, CreateFailed(false)) && run[i + 1].ord == run[i].ord
  {
    SagaSteps.InvRun(run, i);
    CreateReplays(run[i], run[i + 1], c, now);
  }

  /** Before pricing, and after a unique violation, a call under a key that has an order returns that order as
      created if it asks for the same totals, and throws if not. */
  lemma ReplayExactly(run: seq<State>, i: nat, c: CallId)
    requires IsRun(run) && i + 1 < |run|
    requires Lookup(run[i], run[i + 1], c) || Recheck(run[i], run[i + 1], c)
    requires run[i].calls[c].key.Some?
    requires Keyed(run[i].calls[c].user, run[i].calls[c].key.value) in run[i].ord.orders
    ensures Replays(run[i], run[i + 1], c, Threw)
  {
    SagaSteps.InvRun(run, i);
    LookupReplays(run[i], run[i + 1], c);
  }

  // ---------------------------------------------------------------------------------------------
  // Giving back

  /** A call that gives up after its stock was reserved decides a release, exactly if its order is missing. */
  lemma GiveBackDecides(s: State, t: State, c: CallId)
    requires GiveBack(s, t, c)
    ensures t.calls[c].pc == Threw
    ensures IdOf(c, s.calls[c]) !in s.ord.orders ==> Decision(IdOf(c, s.calls[c]), OrderAbsent) in t.decided
    ensures IdOf(c, s.calls[c]) in s.ord.orders ==> t.decided == s.decided
  {
  }

  lemma {:induction false} DecisionStays(run: seq<State>, i: nat, j: nat, d: Decision)
    requires DecisionsAlong(run) && i <= j < |run| && d in run[i].decided
    ensures d in run[j].decided
    decreases j - i
  {
    if i < j {
      DecisionStays(run, i, j - 1, d);
      assert DecisionsEvolve(run[j - 1].decided, run[j - 1].ord, run[j - 1 + 1].decided);
    }
  }

  /** Stock of a call that failed without an order never stays behind: in every later state of the run in which
      it is still RESERVED and not under release, a release of it can run. */
  lemma AbandonedStockCanBeGivenBack(run: seq<State>, i: nat, j: nat, c: CallId) returns (t: State, u: State)
    requires IsRun(run) && i < j < |run| && GiveBack(run[i], run[i + 1], c)
    requires var o := IdOf(c, run[i].calls[c]);
             && o !in run[i].ord.orders && o !in run[j].releasing
             && o in run[j].cat.reservations && run[j].cat.reservations[o].status == RESERVED
    ensures var o := IdOf(c, run[i].calls[c]);
            && BeginRelease(run[j], t, o, OrderAbsent) && FinishRelease(t, u, o)
            && o in u.cat.reservations && u.cat.reservations[o].status == RELEASED
  {
    var o := IdOf(c, run[i].calls[c]);
    GiveBackDecides(run[i], run[i + 1], c);
    RunDecisionsAlong(run);
    DecisionStays(run, i + 1, j, Decision(o, OrderAbsent));
    SagaSteps.InvRun(run, j);
    t, u := SagaSteps.RequestedReleaseCanRun(run[j], o, OrderAbsent);
  }

  // ---------------------------------------------------------------------------------------------
  // Verdicts

  /** Whether the order read is overdue and still PENDING when the verdict is written. */
  predicate Expires(s: State, o: OrderId, seen: Order, now: int) {
    && seen.status == PENDING && now - seen.createdAt >= 15 * 60 * 1000
    && o in s.ord.orders && s.ord.orders[o].status == PENDING
  }

  /** A finished reconciliation decides a release exactly if the order was missing when read, was read as
      CANCELLED, or is cancelled now for being overdue; it sends one commit exactly if the order was read as
      paid; and it changes no order except the one it cancels. */
  lemma VerdictIsActedOn(s: State, t: State, o: OrderId, now: int)
    requires FinishReconcile(s, t, o, now)
    ensures s.reconciling[o].None? ==>
              t.decided == s.decided + {Decision(o, OrderAbsent)} && t.commits == s.commits && t.ord == s.ord
    ensures s.reconciling[o].Some? ==>
              var seen := s.reconciling[o].value;
              && t.decided == (if seen.status == CANCELLED || Expires(s, o, seen, now)
                               then s.decided + {Decision(o, OrderCancelled)} else s.decided)
              && t.commits == (if seen.status in {PAID, SHIPPED, COMPLETED} then s.commits + multiset{o} else s.commits)
              && t.ord.orders == (if Expires(s, o, seen, now)
                                  then s.ord.orders[o := s.ord.orders[o].(status := CANCELLED)] else s.ord.orders)
  {
  }

  /** A commit message turns a RESERVED reservation into a COMMITTED one, leaves any other as it is, moves no
      stock, and is used up. */
  lemma CommitIsApplied(s: State, t: State, o: OrderId)
    requires ApplyCommit(s, t, o) && o in s.cat.reservations
    ensures t.cat.stock == s.cat.stock && t.commits[o] + 1 == s.commits[o]
    ensures o in t.cat.reservations && t.cat.reservations[o].items == s.cat.reservations[o].items
    ensures t.cat.reservations[o].status
         == if s.cat.reservations[o].status == RESERVED then COMMITTED else s.cat.reservations[o].status
  {
  }

  /** A delivered stock failure leaves its order neither PENDING nor CONFIRMED. */
  lemma FailureCancels(s: State, t: State, o: OrderId)
    requires DeliverFailed(s, t, o) && o in s.ord.orders
    ensures o in t.ord.orders
    ensures t.ord.orders[o].status
         == if s.ord.orders[o].status in {PENDING, CONFIRMED} then CANCELLED else s.ord.orders[o].status
  {
  }
}

/** Once an order is CANCELLED, duplicated, reordered and interleaved deliveries about it all lead to the
    same place. */
module Convergence {
  import opened Domain
  import opened OrderStatusMachine
  import opened CatalogDb
  import opened Saga
  import opened SagaInvariants
  import opened SagaSteps

  /** The order is CANCELLED, its reservation was never committed, and no commit verdict is in flight. */
  ghost predicate Cancelled(s: State, o: OrderId) {
    && CancelledIn(s.ord, o)
    && o in s.cat.reservations && s.cat.reservations[o].status != COMMITTED
    && o !in s.commits
    && (o in s.reconciling && s.reconciling[o].Some? ==> !Settled(s.reconciling[o].value.status))
  }

  /** A finite run from `run[0]` made only of events, releases and reconciliation of one order. */
  ghost predicate EventRun(run: seq<State>, o: OrderId) {
    && |run| >= 1
    && forall i :: 0 <= i < |run| - 1 ==> EventStep(run[i], run[i + 1], o)
  }

  /** What the catalog still owes product `p` for this reservation. */
  function Owed(s: State, o: OrderId, p: ProductId): int
    requires o in s.cat.reservations
  {
    Weight(s.cat.reservations[o], p)
  }

  /** One event keeps the situation, keeps the order, and moves stock exactly by what it stops owing. */
  ghost predicate Settles(s: State, t: State, o: OrderId) {
    && Cancelled(s, o) && Cancelled(t, o)
    && t.ord.orders == s.ord.orders
    && t.cat.reservations[o].items == s.cat.reservations[o].items
    && (s.cat.reservations[o].status == RELEASED ==> t.cat.reservations[o].status == RELEASED)
    && t.cat.stock.Keys == s.cat.stock.Keys
    && forall p :: p in s.cat.stock ==> t.cat.stock[p] + Owed(t, o, p) == s.cat.stock[p] + Owed(s, o, p)
  }

  ghost predicate SettlesQuietly(s: State, t: State, o: OrderId) {
    Settles(s, t, o) && t.cat.reservations == s.cat.reservations
  }

  lemma SettlesWhenSame(s: State, t: State, o: OrderId)
    requires Cancelled(s, o) && t.cat.stock == s.cat.stock && t.cat.reservations == s.cat.reservations
    requires t.ord.orders == s.ord.orders && Cancelled(t, o)
    ensures SettlesQuietly(s, t, o)
  {
  }

  lemma FinishSettles(s: State, t: State, o: OrderId)
    requires Cancelled(s, o) && FinishRelease(s, t, o) && ReleaseInv(s.cat.reservations, s.releasing)
    ensures Settles(s, t, o) && t.cat.reservations[o].status == RELEASED
  {
  }

  lemma FailedSettles(s: State, t: State, o: OrderId)
    requires Cancelled(s, o) && DeliverFailed(s, t, o)
    ensures SettlesQuietly(s, t, o)
  {
    SettlesWhenSame(s, t, o);
  }

  lemma VerdictSettles(s: State, t: State, o: OrderId, now: int)
    requires Cancelled(s, o) && FinishReconcile(s, t, o, now)
    ensures SettlesQuietly(s, t, o)
  {
    SettlesWhenSame(s, t, o);
  }

  lemma BeginReconcileSettles(s: State, t: State, o: OrderId)
    requires Cancelled(s, o) && BeginReconcile(s, t, o)
    ensures SettlesQuietly(s, t, o)
  {
    SettlesWhenSame(s, t, o);
  }

  lemma BeginSettles(s: State, t: State, o: OrderId, cause: Cause)
    requires Cancelled(s, o) && BeginRelease(s, t, o, cause)
    ensures SettlesQuietly(s, t, o)
  {
    SettlesWhenSame(s, t, o);
  }

  lemma AbortSettles(s: State, t: State, o: OrderId)
    requires Cancelled(s, o) && AbortRelease(s, t, o)
    ensures SettlesQuietly(s, t, o)
  {
    SettlesWhenSame(s, t, o);
  }

  lemma RollbackSettles(s: State, t: State, o: OrderId)
    requires Cancelled(s, o) && AbortReconcile(s, t, o)
    ensures SettlesQuietly(s, t, o)
  {
    SettlesWhenSame(s, t, o);
  }

  lemma CreatedSettles(s: State, t: State, o: OrderId, e: CallId)
    requires Cancelled(s, o) && DeliverCreated(s, t, e)
    ensures SettlesQuietly(s, t, o)
  {
    SettlesWhenSame(s, t, o);
  }

  lemma EventSettles(s: State, t: State, o: OrderId)
    requires ReleaseInv(s.cat.reservations, s.releasing) && Cancelled(s, o) && EventStep(s, t, o)
    ensures Settles(s, t, o)
    ensures s.cat.reservations[o].status != RELEASED && t.cat.reservations[o].status == RELEASED ==>
              FinishRelease(s, t, o)
    ensures FinishRelease(s, t, o) ==> t.cat.reservations[o].status == RELEASED
  {
    if FinishRelease(s, t, o) {
      FinishSettles(s, t, o);
    } else {
      OtherEventSettles(s, t, o);
    }
  }

  lemma NoCommit(s: State, t: State, o: OrderId)
    requires Cancelled(s, o)
    ensures !ApplyCommit(s, t, o) && !DropCommit(s, t, o)
  {
  }

  lemma OtherEventSettles(s: State, t: State, o: OrderId)
    requires Cancelled(s, o) && EventStep(s, t, o) && !FinishRelease(s, t, o)
    ensures SettlesQuietly(s, t, o)
  {
    NoCommit(s, t, o);
    if cause :| BeginRelease(s, t, o, cause) {
      BeginSettles(s, t, o, cause);
    } else if AbortRelease(s, t, o) {
      AbortSettles(s, t, o);
    } else if AbortReconcile(s, t, o) {
      RollbackSettles(s, t, o);
    } else if e :| e in s.ord.createdRows && s.ord.createdRows[e] == o && DeliverCreated(s, t, e) {
      CreatedSettles(s, t, o, e);
    } else if DeliverFailed(s, t, o) {
      FailedSettles(s, t, o);
    } else if BeginReconcile(s, t, o) {
      BeginReconcileSettles(s, t, o);
    } else if now :| FinishReconcile(s, t, o, now) {
      VerdictSettles(s, t, o, now);
    }
  }

  // ---------------------------------------------------------------------------------------------

  /** A release of the order completed among the first `n` transitions. */
  ghost predicate ReleasedBefore(run: seq<State>, o: OrderId, n: nat)
    requires n < |run|
  {
    exists i :: 0 <= i < n && FinishRelease(run[i], run[i + 1], o)
  }

  lemma ReleasedBeforeStep(run: seq<State>, o: OrderId, n: nat)
    requires 0 < n < |run|
    ensures ReleasedBefore(run, o, n) <==> ReleasedBefore(run, o, n - 1) || FinishRelease(run[n - 1], run[n - 1 + 1], o)
  {
  }

  lemma {:induction false} EventsKeepInv(run: seq<State>, o: OrderId, n: nat)
    requires EventRun(run, o) && n < |run| && Inv(run[0])
    ensures Inv(run[n])
  {
    if n > 0 {
      EventsKeepInv(run, o, n - 1);
      assert EventStep(run[n - 1], run[n - 1 + 1], o);
      EventStepKeeps(run[n - 1], run[n], o);
    }
  }

  /** No release in progress anywhere in the run has lost the reservation it read. */
  ghost predicate ReadsHold(run: seq<State>) {
    forall s :: s in run ==> ReleaseInv(s.cat.reservations, s.releasing)
  }

  lemma EventsKeepReads(run: seq<State>, o: OrderId)
    requires EventRun(run, o) && Inv(run[0])
    ensures ReadsHold(run)
  {
    forall s | s in run ensures ReleaseInv(s.cat.reservations, s.releasing) {
      var n :| 0 <= n < |run| && run[n] == s;
      EventsKeepInv(run, o, n);
    }
  }

  lemma RunStep(run: seq<State>, o: OrderId, n: nat)
    requires EventRun(run, o) && ReadsHold(run) && n + 1 < |run| && Settles(run[0], run[n], o)
    ensures Settles(run[0], run[n + 1], o) && ReleaseOnly(run[n], run[n + 1], o)
  {
    assert EventStep(run[n], run[n + 1], o);
    assert run[n] in run;
    EventSettles(run[n], run[n + 1], o);
    SettlesTransitive(run[0], run[n], run[n + 1], o);
  }

  ghost predicate SettlesAlong(run: seq<State>, o: OrderId) {
    forall i, j :: 0 <= i && j == i + 1 && j < |run| && Settles(run[0], run[i], o) ==> Settles(run[0], run[j], o)
  }

  lemma RunSettlesAlong(run: seq<State>, o: OrderId)
    requires EventRun(run, o) && ReadsHold(run)
    ensures SettlesAlong(run, o)
  {
    forall i, j | 0 <= i && j == i + 1 && j < |run| && Settles(run[0], run[i], o) ensures Settles(run[0], run[j], o) {
      RunStep(run, o, i);
    }
  }

  lemma {:induction false} SettlesFar(run: seq<State>, o: OrderId, n: nat)
    requires SettlesAlong(run, o) && n < |run| && Cancelled(run[0], o)
    ensures Settles(run[0], run[n], o)
  {
    if n == 0 {
      SettlesWhenSame(run[0], run[0], o);
    } else {
      SettlesFar(run, o, n - 1);
    }
  }

  lemma RunSettles(run: seq<State>, o: OrderId, n: nat)
    requires EventRun(run, o) && ReadsHold(run) && n < |run| && Cancelled(run[0], o)
    ensures Settles(run[0], run[n], o)
  {
    RunSettlesAlong(run, o);
    SettlesFar(run, o, n);
  }

  lemma {:induction false} RunReleases(run: seq<State>, o: OrderId, n: nat)
    requires n < |run| && o in run[0].cat.reservations
    requires forall i :: 0 <= i < |run| - 1 ==> ReleaseOnly(run[i], run[i + 1], o)
    ensures o in run[n].cat.reservations
    ensures run[n].cat.reservations[o].status == RELEASED <==>
              run[0].cat.reservations[o].status == RELEASED || ReleasedBefore(run, o, n)
  {
    if n > 0 {
      RunReleases(run, o, n - 1);
      assert ReleaseOnly(run[n - 1], run[n - 1 + 1], o);
      ReleasedBeforeStep(run, o, n);
    }
  }

  /** The reservation becomes RELEASED by a completed release and by nothing else. */
  ghost predicate ReleaseOnly(s: State, t: State, o: OrderId) {
    && o in s.cat.reservations && o in t.cat.reservations
    && (t.cat.reservations[o].status == RELEASED <==>
          s.cat.reservations[o].status == RELEASED || FinishRelease(s, t, o))
  }

  lemma SettlesTransitive(s: State, t: State, u: State, o: OrderId)
    requires Settles(s, t, o) && Settles(t, u, o)
    ensures Settles(s, u, o)
  {
  }

  /** The order as it was, the reservation RELEASED or not, and the stock credited once or not at all. */
  ghost predicate EndsAs(first: State, last: State, o: OrderId, released: bool) {
    && last.ord.orders == first.ord.orders && CancelledIn(last.ord, o)
    && o in first.cat.reservations && o in last.cat.reservations
    && last.cat.reservations[o] == first.cat.reservations[o].(status := if released then RELEASED else RESERVED)
    && last.cat.stock.Keys == first.cat.stock.Keys
    && forall p :: p in first.cat.stock ==>
         last.cat.stock[p] == first.cat.stock[p] + if released then Owed(first, o, p) else 0
  }

  lemma SettledEnd(first: State, last: State, o: OrderId)
    requires Settles(first, last, o)
    ensures EndsAs(first, last, o, last.cat.reservations[o].status == RELEASED)
  {
  }

  /** Any finite sequence of deliveries, duplicated, reordered and interleaved at will, leaves the order
      CANCELLED with the same data. If a release completed in it, or before it, the reservation is RELEASED
      and the stock is what it was plus, once, what the reservation held; otherwise nothing has moved. */
  lemma Converges(run: seq<State>, o: OrderId)
    requires EventRun(run, o) && Inv(run[0]) && Cancelled(run[0], o)
    ensures var released := run[0].cat.reservations[o].status == RELEASED || ReleasedBefore(run, o, |run| - 1);
            EndsAs(run[0], run[|run| - 1], o, released)
  {
    EventsKeepReads(run, o);
    RunEnds(run, o);
  }

  lemma RunEnds(run: seq<State>, o: OrderId)
    requires EventRun(run, o) && ReadsHold(run) && Cancelled(run[0], o)
    ensures var released := run[0].cat.reservations[o].status == RELEASED || ReleasedBefore(run, o, |run| - 1);
            EndsAs(run[0], run[|run| - 1], o, released)
  {
    forall i | 0 <= i < |run| - 1 ensures ReleaseOnly(run[i], run[i + 1], o) {
      RunSettles(run, o, i);
      RunStep(run, o, i);
    }
    RunSettles(run, o, |run| - 1);
    RunReleases(run, o, |run| - 1);
    SettledEnd(run[0], run[|run| - 1], o);
  }

  /** Two such sequences from one state end alike on the order, its reservation and the stock. */
  lemma SameEnd(a: seq<State>, b: seq<State>, o: OrderId, i: nat, j: nat)
    requires EventRun(a, o) && EventRun(b, o) && a[0] == b[0] && Inv(a[0]) && Cancelled(a[0], o)
    requires i < |a| - 1 && FinishRelease(a[i], a[i + 1], o)
    requires j < |b| - 1 && FinishRelease(b[j], b[j + 1], o)
    ensures SameOutcome(a[|a| - 1], b[|b| - 1], o)
  {
    assert ReleasedBefore(a, o, |a| - 1) && ReleasedBefore(b, o, |b| - 1);
    Converges(a, o);
    Converges(b, o);
    EndsAlike(a[0], a[|a| - 1], b[|b| - 1], o);
  }

  ghost predicate SameOutcome(x: State, y: State, o: OrderId) {
    && x.ord.orders == y.ord.orders
    && o in x.cat.reservations && o in y.cat.reservations
    && x.cat.reservations[o] == y.cat.reservations[o]
    && x.cat.stock == y.cat.stock
  }

  lemma EndsAlike(s: State, x: State, y: State, o: OrderId)
    requires EndsAs(s, x, o, true) && EndsAs(s, y, o, true)
    ensures SameOutcome(x, y, o)
  {
  }

  /** And a release can always be brought about: the order's StockReleaseRequested row exists, so as long
      as the reservation is RESERVED and its lock is free, delivering that row releases it. */
  lemma ReleaseCanRun(s: State, o: OrderId) returns (t: State, u: State)
    requires StockInv(s.cat.stock, s.cat.reservations, s.supply) && RowsInv(s.ord)
    requires Cancelled(s, o) && s.cat.reservations[o].status == RESERVED && o !in s.releasing
    ensures BeginRelease(s, t, o, OrderCancelled) && FinishRelease(t, u, o)
    ensures o in u.cat.reservations && u.cat.reservations[o].status == RELEASED
  {
    assert s.ord.releaseRows[o] == 1;
    t, u := RequestedReleaseCanRun(s, o, OrderCancelled);
  }
}

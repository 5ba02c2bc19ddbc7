/** Convergence of one cancelled order while everything else goes on: other orders are created, reserved,
    updated, reconciled and released, and administrators edit stock. */
module ConvergenceAmongOthers {
  import opened Domain
  import opened Items
  import opened CatalogDb
  import opened Saga
  import opened SagaFrames
  import opened SagaInvariants
  import opened SagaSteps
  import opened Convergence

  // ---------------------------------------------------------------------------------------------

  /** The order, its items and its cancellation stand; its reservation becomes RELEASED only by a release. */
  ghost predicate Stands(s: State, t: State, o: OrderId) {
    && Cancelled(t, o) && o in s.ord.orders && t.ord.orders[o] == s.ord.orders[o]
    && ReleaseOnly(s, t, o)
    && t.cat.reservations[o].items == s.cat.reservations[o].items
  }

  lemma AsideStands(s: State, t: State, o: OrderId)
    requires Aside(s, t, o) && Cancelled(s, o) && ReleaseInv(s.cat.reservations, s.releasing)
    requires CancelledIn(t.ord, o) && t.ord.orders[o] == s.ord.orders[o]
    ensures Stands(s, t, o)
  {
  }

  lemma OwnEventStands(s: State, t: State, o: OrderId)
    requires EventStep(s, t, o) && Cancelled(s, o) && ReleaseInv(s.cat.reservations, s.releasing)
    ensures Stands(s, t, o)
  {
    EventSettles(s, t, o);
  }

  lemma NextStands(s: State, t: State, o: OrderId)
    requires ReleaseInv(s.cat.reservations, s.releasing) && HistoryInv(s.ord, s.history)
    requires OrdersEvolve(s.ord, s.history, t.ord, t.history)
    requires Next(s, t) && Cancelled(s, o)
    ensures Stands(s, t, o)
  {
    if EventStep(s, t, o) {
      OwnEventStands(s, t, o);
    } else {
      AnyStepIsAside(s, t, o);
      CancelledIsFinal(s, t, o);
      AsideStands(s, t, o);
    }
  }

  // ---------------------------------------------------------------------------------------------

  ghost predicate NextRun(run: seq<State>) {
    |run| >= 1 && forall i, j :: 0 <= i && j == i + 1 && j < |run| ==> Next(run[i], run[j])
  }

  lemma {:induction false} RunInv(run: seq<State>, n: nat)
    requires NextRun(run) && Inv(run[0]) && n < |run|
    ensures Inv(run[n])
  {
    if n > 0 {
      RunInv(run, n - 1);
      InvNext(run[n - 1], run[n]);
    }
  }

  /** What the run-level proof uses of each state and of each transition. */
  ghost predicate Sound(run: seq<State>) {
    && (forall i :: 0 <= i < |run| ==>
          ReleaseInv(run[i].cat.reservations, run[i].releasing) && HistoryInv(run[i].ord, run[i].history))
    && (forall i, j :: 0 <= i && j == i + 1 && j < |run| ==>
          OrdersEvolve(run[i].ord, run[i].history, run[j].ord, run[j].history))
  }

  lemma StepEvolves(run: seq<State>, i: nat)
    requires NextRun(run) && Inv(run[0]) && i + 1 < |run|
    ensures OrdersEvolve(run[i].ord, run[i].history, run[i + 1].ord, run[i + 1].history)
  {
    RunInv(run, i);
    InvNext(run[i], run[i + 1]);
  }

  lemma RunIsSound(run: seq<State>)
    requires NextRun(run) && Inv(run[0])
    ensures Sound(run)
  {
    forall i | 0 <= i < |run|
      ensures ReleaseInv(run[i].cat.reservations, run[i].releasing) && HistoryInv(run[i].ord, run[i].history)
    {
      RunInv(run, i);
    }
    forall i, j | 0 <= i && j == i + 1 && j < |run|
      ensures OrdersEvolve(run[i].ord, run[i].history, run[j].ord, run[j].history)
    {
      StepEvolves(run, i);
    }
  }

  ghost predicate StandsAlong(run: seq<State>, o: OrderId) {
    && (forall i :: 0 <= i < |run| ==> Cancelled(run[i], o))
    && (forall i :: 0 <= i < |run| ==> ReleaseInv(run[i].cat.reservations, run[i].releasing))
    && (forall i, j :: 0 <= i && j == i + 1 && j < |run| ==> Stands(run[i], run[j], o))
  }

  lemma StepStands(run: seq<State>, o: OrderId, i: nat)
    requires NextRun(run) && Sound(run) && i + 1 < |run| && Cancelled(run[i], o)
    ensures Stands(run[i], run[i + 1], o)
  {
    NextStands(run[i], run[i + 1], o);
  }

  ghost predicate StandsOnceCancelled(run: seq<State>, o: OrderId) {
    forall i, j :: 0 <= i && j == i + 1 && j < |run| && Cancelled(run[i], o) ==> Stands(run[i], run[j], o)
  }

  lemma RunStandsOnceCancelled(run: seq<State>, o: OrderId)
    requires NextRun(run) && Sound(run)
    ensures StandsOnceCancelled(run, o)
  {
    forall i, j | 0 <= i && j == i + 1 && j < |run| && Cancelled(run[i], o) ensures Stands(run[i], run[j], o) {
      StepStands(run, o, i);
    }
  }

  lemma {:induction false} CancelledFar(run: seq<State>, o: OrderId, n: nat)
    requires StandsOnceCancelled(run, o) && n < |run| && Cancelled(run[0], o)
    ensures Cancelled(run[n], o)
  {
    if n > 0 {
      CancelledFar(run, o, n - 1);
      assert Stands(run[n - 1], run[n], o);
    }
  }

  lemma RunStandsAlong(run: seq<State>, o: OrderId)
    requires NextRun(run) && Sound(run) && Cancelled(run[0], o)
    ensures StandsAlong(run, o)
  {
    RunStandsOnceCancelled(run, o);
    forall i | 0 <= i < |run| ensures Cancelled(run[i], o) {
      CancelledFar(run, o, i);
    }
  }

  lemma {:induction false} StandsFar(run: seq<State>, o: OrderId, i: nat, j: nat)
    requires StandsAlong(run, o) && i <= j < |run|
    ensures o in run[i].ord.orders && o in run[j].ord.orders && run[j].ord.orders[o] == run[i].ord.orders[o]
    ensures o in run[i].cat.reservations && o in run[j].cat.reservations
    ensures run[j].cat.reservations[o].items == run[i].cat.reservations[o].items
    ensures run[i].cat.reservations[o].status == RELEASED ==> run[j].cat.reservations[o].status == RELEASED
    decreases j - i
  {
    assert Cancelled(run[i], o);
    if i < j {
      StandsFar(run, o, i, j - 1);
      assert Stands(run[j - 1], run[j], o);
    }
  }

  /** The transition credits each product with what the reservation held of it. */
  ghost predicate Credits(s: State, t: State, o: OrderId) {
    && o in s.cat.reservations && t.cat.stock.Keys == s.cat.stock.Keys
    && forall p :: p in s.cat.stock ==> t.cat.stock[p] == s.cat.stock[p] + Total(s.cat.reservations[o].items, p)
  }

  lemma ReleaseCredits(s: State, t: State, o: OrderId)
    requires FinishRelease(s, t, o) && ReleaseInv(s.cat.reservations, s.releasing)
    ensures Credits(s, t, o)
  {
  }

  lemma NoSecondRelease(run: seq<State>, o: OrderId, i: nat, j: nat)
    requires StandsAlong(run, o) && i <= j && j + 1 < |run|
    requires o in run[i].cat.reservations && run[i].cat.reservations[o].status == RELEASED
    ensures !FinishRelease(run[j], run[j + 1], o)
  {
    StandsFar(run, o, i, j);
    assert ReleaseInv(run[j].cat.reservations, run[j].releasing);
  }

  /** From `first` to `last` the order stood, and its reservation was released or not. */
  ghost predicate EndsReleased(first: State, last: State, o: OrderId, released: bool) {
    && Cancelled(last, o) && o in first.ord.orders && last.ord.orders[o] == first.ord.orders[o]
    && o in first.cat.reservations
    && last.cat.reservations[o].items == first.cat.reservations[o].items
    && (last.cat.reservations[o].status == RELEASED <==> released)
  }

  /** A release of the order may complete once, unless it had been released before, and credits exactly what
      the reservation held. */
  ghost predicate CreditsOnce(run: seq<State>, o: OrderId) {
    && (forall i, j :: 0 <= i && j == i + 1 && j < |run| && FinishRelease(run[i], run[j], o) ==>
          Credits(run[i], run[j], o) && o in run[0].cat.reservations && run[0].cat.reservations[o].status != RELEASED)
    && (forall i, j :: 0 <= i < j < |run| - 1 && FinishRelease(run[i], run[i + 1], o) ==>
          !FinishRelease(run[j], run[j + 1], o))
  }

  /** Once an order is CANCELLED with no commit made or under way, then in every continuation of the whole
      saga the order stays as it is, its reservation ends RELEASED exactly if it was or a release of it
      completes, and its stock is credited at most once. */
  lemma ConvergesAmongOthers(run: seq<State>, o: OrderId)
    requires NextRun(run) && Inv(run[0]) && Cancelled(run[0], o)
    ensures EndsReleased(run[0], run[|run| - 1], o,
              run[0].cat.reservations[o].status == RELEASED || ReleasedBefore(run, o, |run| - 1))
    ensures CreditsOnce(run, o)
  {
    RunIsSound(run);
    RunStandsAlong(run, o);
    EndReleased(run, o);
    OneCredit(run, o);
  }

  lemma FirstCredit(run: seq<State>, o: OrderId, i: nat)
    requires StandsAlong(run, o) && i + 1 < |run| && FinishRelease(run[i], run[i + 1], o)
    ensures Credits(run[i], run[i + 1], o)
    ensures o in run[0].cat.reservations && run[0].cat.reservations[o].status != RELEASED
  {
    assert Cancelled(run[0], o);
    ReleaseCredits(run[i], run[i + 1], o);
    if run[0].cat.reservations[o].status == RELEASED { NoSecondRelease(run, o, 0, i); }
  }

  lemma OneCredit(run: seq<State>, o: OrderId)
    requires StandsAlong(run, o) && |run| >= 1
    ensures CreditsOnce(run, o)
  {
    forall i, j | 0 <= i && j == i + 1 && j < |run| && FinishRelease(run[i], run[j], o)
      ensures Credits(run[i], run[j], o)
      ensures o in run[0].cat.reservations && run[0].cat.reservations[o].status != RELEASED
    {
      FirstCredit(run, o, i);
    }
    forall i, j | 0 <= i < j < |run| - 1 && FinishRelease(run[i], run[i + 1], o)
      ensures !FinishRelease(run[j], run[j + 1], o)
    {
      NextCredit(run, o, i, j);
    }
  }

  lemma NextCredit(run: seq<State>, o: OrderId, i: nat, j: nat)
    requires StandsAlong(run, o) && i < j && j + 1 < |run| && FinishRelease(run[i], run[i + 1], o)
    ensures !FinishRelease(run[j], run[j + 1], o)
  {
    assert Stands(run[i], run[i + 1], o);
    NoSecondRelease(run, o, i + 1, j);
  }

  lemma EndReleased(run: seq<State>, o: OrderId)
    requires StandsAlong(run, o) && |run| >= 1
    ensures o in run[0].cat.reservations
    ensures EndsReleased(run[0], run[|run| - 1], o,
              run[0].cat.reservations[o].status == RELEASED || ReleasedBefore(run, o, |run| - 1))
  {
    assert Cancelled(run[0], o) && Cancelled(run[|run| - 1], o);
    StandsFar(run, o, 0, |run| - 1);
    ReleasesAlong(run, o);
    RunReleases(run, o, |run| - 1);
  }

  lemma ReleasesAlong(run: seq<State>, o: OrderId)
    requires StandsAlong(run, o)
    ensures forall i :: 0 <= i < |run| - 1 ==> ReleaseOnly(run[i], run[i + 1], o)
  {
    forall i | 0 <= i < |run| - 1 ensures ReleaseOnly(run[i], run[i + 1], o) {
      assert Stands(run[i], run[i + 1], o);
    }
  }
}

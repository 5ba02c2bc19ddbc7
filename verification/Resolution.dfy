/** What the reservation worker's passes leave behind, told by the real order database: the sequence of its
    states while the passes ran, written by every other caller too. */
module Resolution {
  import opened Domain
  import opened OrderStatusMachine
  import opened CatalogDb
  import opened OrderDb
  import opened SagaInvariants
  import ReservationWorker
  import Saga
  import SagaFrames
  import SagaSteps
  import SagaTheorems

  /** Orders persist, and of an order only its status changes, along an edge of the table. */
  ghost predicate Persists(a: Orders, b: Orders) {
    forall o :: o in a.orders ==>
      && o in b.orders && b.orders[o] == a.orders[o].(status := b.orders[o].status)
      && (b.orders[o].status == a.orders[o].status || CanTransition(a.orders[o].status, b.orders[o].status))
  }

  /** The states of the order database, one after another. */
  ghost predicate IsTimeline(h: seq<Orders>) {
    forall i, j :: 0 <= i && j == i + 1 && j < |h| ==> Persists(h[i], h[j])
  }

  /** One call of reconcileReservation: it read the order in state `read`, its clock was `now`, and it wrote
      and answered in state `write`. Other writers of the order may have run between the two. */
  datatype Moment = Moment(read: nat, write: nat, now: int)

  /** The call made at moment `m` turned state `write` into the next one and gave this answer. createOrder
      takes the same lock, so the order neither appeared nor vanished between read and write. */
  ghost predicate AnsweredAt(h: seq<Orders>, m: Moment, o: OrderId, a: ReservationWorker.Answer) {
    && m.read <= m.write && m.write + 1 < |h|
    && (o in h[m.read].orders <==> o in h[m.write].orders)
    && (h[m.write + 1], a.verdict) == Consult(h[m.write], o, Find(h[m.read], o), m.now)
  }

  function Consult(db: Orders, o: OrderId, seen: Option<Order>, now: int): (Orders, Option<Verdict>) {
    var (after, v) := Reconcile(db, o, seen, now);
    (after, Some(v))
  }

  /** Every answer of the pass was given in the one timeline. */
  ghost predicate Consulted(h: seq<Orders>, p: ReservationWorker.Pass, moments: seq<Moment>) {
    && |moments| == |p.batch| == |p.answers|
    && forall i :: 0 <= i < |p.batch| && p.answers[i].verdict.Some? ==>
         AnsweredAt(h, moments[i], p.batch[i], p.answers[i])
  }

  /** CONFIRMED, or PENDING for less than fifteen minutes. */
  predicate IsOpen(db: Orders, o: OrderId, now: int) {
    && o in db.orders
    && var order := db.orders[o];
    order.status == CONFIRMED || (order.status == PENDING && order.createdAt > now - 15 * 60 * 1000)
  }

  /** The order was overdue when it was read, but somebody moved it out of PENDING before the write. */
  predicate Overtaken(h: seq<Orders>, m: Moment, o: OrderId) {
    && m.read < m.write < |h|
    && o in h[m.read].orders && Overdue(h[m.read].orders[o], m.now)
    && o in h[m.write].orders && h[m.write].orders[o].status != PENDING
  }

  predicate LeftAlone(h: seq<Orders>, m: Moment, o: OrderId) {
    m.read < |h| && (IsOpen(h[m.read], o, m.now) || Overtaken(h, m, o))
  }

  /** The verdict leaves the reservation alone exactly when the order was open as read, or overtaken. */
  lemma LeftAloneExactly(h: seq<Orders>, m: Moment, o: OrderId, a: ReservationWorker.Answer)
    requires AnsweredAt(h, m, o, a)
    ensures ReservationWorker.StatusAfter(a.verdict.value) == RESERVED <==> LeftAlone(h, m, o)
  {
  }

  /** The third reason does arise: an overdue order is read, cancelled by its customer, and then found no
      longer PENDING; the worker is told to leave alone a reservation whose order is CANCELLED. */
  lemma OvertakenArises(x: Order)
    requires x.status == PENDING
    ensures var now := x.createdAt + RESERVATION_WINDOW_MS;
            var before := Orders(map[x.id := x], map[], map[], multiset{});
            var after := CompareAndSet(before, x.id, {PENDING}, CANCELLED).0;
            var h := [before, after, after];
            var a := ReservationWorker.Answer(Some(Verdict(false, false)), now);
            && IsTimeline(h) && AnsweredAt(h, Moment(0, 1, now), x.id, a)
            && !IsOpen(h[0], x.id, now) && CancelledIn(h[1], x.id)
  {
  }

  // ---------------------------------------------------------------------------------------------

  lemma ExaminedAndLeft(h: seq<Orders>, p: ReservationWorker.Pass, moments: seq<Moment>, u: int, i: nat)
    requires ReservationWorker.IsPass(p) && ReservationWorker.Answered(p, u) && Consulted(h, p, moments)
    requires i < |p.batch| && ReservationWorker.IsReserved(p.after, p.batch[i])
    ensures LeftAlone(h, moments[i], p.batch[i])
  {
    ReservationWorker.AnsweredPass(p, u);
    assert ReservationWorker.Applied(p.after, p.batch[i], p.answers[i]);
    LeftAloneExactly(h, moments[i], p.batch[i], p.answers[i]);
  }

  ghost predicate AllConsulted(h: seq<Orders>, run: seq<ReservationWorker.Pass>, moments: seq<seq<Moment>>) {
    |moments| == |run| && forall k :: 0 <= k < |run| ==> Consulted(h, run[k], moments[k])
  }

  /** Moment `i` of pass `k` is an examination of row `x`. */
  predicate Examines(run: seq<ReservationWorker.Pass>, moments: seq<seq<Moment>>, k: nat, i: nat, x: OrderId) {
    k < |run| && k < |moments| && i < |run[k].batch| && i < |moments[k]| && run[k].batch[i] == x
  }

  /** A row still RESERVED after the run was left alone at every examination, for a reason that held then. */
  lemma AlwaysLeftAlone(h: seq<Orders>, run: seq<ReservationWorker.Pass>, moments: seq<seq<Moment>>,
                        u: int, x: OrderId, k: nat, i: nat)
    requires ReservationWorker.IsRun(run, u) && AllConsulted(h, run, moments) && Examines(run, moments, k, i, x)
    requires x in run[0].before.cat.reservations && ReservationWorker.IsReserved(run[|run| - 1].after, x)
    ensures LeftAlone(h, moments[k][i], x)
  {
    ReservationWorker.ReservedThroughout(run, u, x);
    ExaminedAndLeft(h, run[k], moments[k], u, i);
  }

  /** After ceil(N / 100) answered passes over N stale rows, a row of them that is still RESERVED was examined,
      and at every examination of it, the last one included, its order was CONFIRMED in the order database, or
      PENDING for less than fifteen minutes, or was being moved out of PENDING by somebody else. */
  lemma OnlyOpenOrdersKeepStock(h: seq<Orders>, run: seq<ReservationWorker.Pass>, moments: seq<seq<Moment>>,
                                u: int, x: OrderId)
    requires ReservationWorker.IsRun(run, u) && run != [] && AllConsulted(h, run, moments)
    requires |ReservationWorker.Queue(run[0].before, run[0].now, u)| <= ReservationWorker.BATCH * |run|
    requires x in ReservationWorker.Queue(run[0].before, run[0].now, u)
    requires ReservationWorker.IsReserved(run[|run| - 1].after, x)
    ensures exists k: nat, i: nat :: Examines(run, moments, k, i, x)
    ensures forall k: nat, i: nat :: Examines(run, moments, k, i, x) ==> LeftAlone(h, moments[k][i], x)
  {
    ReservationWorker.EveryRowIsReached(run, u, x);
    ReservationWorker.ReservedThroughout(run, u, x);
    var k: nat :| k < |run| && ReservationWorker.DealtWith(run[k], x);
    var i: nat :| i < |run[k].batch| && run[k].batch[i] == x;
    assert Consulted(h, run[k], moments[k]);
    assert Examines(run, moments, k, i, x);
    forall k: nat, i: nat | Examines(run, moments, k, i, x) ensures LeftAlone(h, moments[k][i], x) {
      AlwaysLeftAlone(h, run, moments, u, x, k, i);
    }
  }

  ghost predicate Undisturbed(moments: seq<seq<Moment>>) {
    forall k, i :: 0 <= k < |moments| && 0 <= i < |moments[k]| ==> moments[k][i].read == moments[k][i].write
  }

  /** The order was open in the state that moment `m` read. */
  predicate OpenWhenRead(h: seq<Orders>, m: Moment, x: OrderId) {
    m.read < |h| && IsOpen(h[m.read], x, m.now)
  }

  /** When nobody writes between any call's read and its write, only the first two reasons remain. */
  lemma UndisturbedPassesKeepOpenOrders(h: seq<Orders>, run: seq<ReservationWorker.Pass>, moments: seq<seq<Moment>>,
                                        u: int, x: OrderId)
    requires ReservationWorker.IsRun(run, u) && run != [] && AllConsulted(h, run, moments) && Undisturbed(moments)
    requires |ReservationWorker.Queue(run[0].before, run[0].now, u)| <= ReservationWorker.BATCH * |run|
    requires x in ReservationWorker.Queue(run[0].before, run[0].now, u)
    requires ReservationWorker.IsReserved(run[|run| - 1].after, x)
    ensures exists k: nat, i: nat :: Examines(run, moments, k, i, x)
    ensures forall k: nat, i: nat :: Examines(run, moments, k, i, x) ==> OpenWhenRead(h, moments[k][i], x)
  {
    OnlyOpenOrdersKeepStock(h, run, moments, u, x);
    forall k: nat, i: nat | Examines(run, moments, k, i, x) ensures OpenWhenRead(h, moments[k][i], x) {
      assert LeftAlone(h, moments[k][i], x);
    }
  }

  // ---------------------------------------------------------------------------------------------
  // What was settled was settled for good

  lemma PersistsIsLater(a: Orders, b: Orders, o: OrderId)
    requires Persists(a, b) && o in a.orders
    ensures o in b.orders && Later(a.orders[o].status, b.orders[o].status)
  {
  }

  lemma {:induction false} TimelineIsLater(h: seq<Orders>, i: nat, j: nat, o: OrderId)
    requires IsTimeline(h) && i <= j < |h| && o in h[i].orders
    ensures o in h[j].orders && Later(h[i].orders[o].status, h[j].orders[o].status)
    decreases j - i
  {
    if i < j {
      TimelineIsLater(h, i, j - 1, o);
      assert Persists(h[j - 1], h[j]);
      PersistsIsLater(h[j - 1], h[j], o);
    }
  }

  /** Being CANCELLED lasts, and so does being paid, until a cancellation. */
  lemma StatusLasts(h: seq<Orders>, i: nat, j: nat, o: OrderId)
    requires IsTimeline(h) && i <= j < |h|
    ensures CancelledIn(h[i], o) ==> CancelledIn(h[j], o)
    ensures SettledIn(h[i], o) ==> SettledIn(h[j], o)
  {
    if o in h[i].orders { TimelineIsLater(h, i, j, o); }
  }

  /** An answer stays true: release means that the order was absent when asked about or is CANCELLED in every
      later state; commit, that it is paid in every later state, or was cancelled after that. */
  lemma AnswerStaysTrue(h: seq<Orders>, m: Moment, o: OrderId, a: ReservationWorker.Answer, j: nat)
    requires AnsweredAt(h, m, o, a) && IsTimeline(h) && m.write < j < |h|
    ensures a.verdict.value.release ==> o !in h[m.read].orders || CancelledIn(h[j], o)
    ensures a.verdict.value.commit ==> SettledIn(h[j], o)
  {
    VerdictFits(h, m, o, a);
    StatusLasts(h, m.read, j, o);
    StatusLasts(h, m.write + 1, j, o);
  }

  lemma VerdictFits(h: seq<Orders>, m: Moment, o: OrderId, a: ReservationWorker.Answer)
    requires AnsweredAt(h, m, o, a)
    ensures a.verdict.value.release ==>
              o !in h[m.read].orders || CancelledIn(h[m.read], o) || CancelledIn(h[m.write + 1], o)
    ensures a.verdict.value.commit ==> SettledIn(h[m.read], o)
  {
  }

  /** Whether or not the other calls of the pass are answered, a row that the pass released or committed was
      asked about and answered, and was settled for good. */
  lemma SettledForGood(h: seq<Orders>, p: ReservationWorker.Pass, moments: seq<Moment>, i: nat, j: nat)
    requires ReservationWorker.IsPass(p) && Consulted(h, p, moments) && IsTimeline(h)
    requires i < |p.batch| && moments[i].write < j < |h|
    requires p.batch[i] in p.after.cat.reservations && p.after.cat.reservations[p.batch[i]].status != RESERVED
    ensures var x := p.batch[i];
            && p.answers[i].verdict.Some? && moments[i].read < |h|
            && (p.after.cat.reservations[x].status == RELEASED ==>
                  x !in h[moments[i].read].orders || CancelledIn(h[j], x))
            && (p.after.cat.reservations[x].status == COMMITTED ==> SettledIn(h[j], x))
  {
    ReservationWorker.PassEffect(p.before, p.batch, p.answers);
    assert ReservationWorker.RowAfter(p.before, p.after, p.batch[i], p.answers[i]);
    assert AnsweredAt(h, moments[i], p.batch[i], p.answers[i]);
    AnswerStaysTrue(h, moments[i], p.batch[i], p.answers[i], j);
  }

  // ---------------------------------------------------------------------------------------------
  // The saga supplies such timelines and moments

  function OrderStates(run: seq<Saga.State>): (h: seq<Orders>)
    ensures |h| == |run| && forall i :: 0 <= i < |run| ==> h[i] == run[i].ord
  {
    seq(|run|, i requires 0 <= i < |run| => run[i].ord)
  }

  lemma SagaIsTimeline(run: seq<Saga.State>)
    requires Saga.IsRun(run)
    ensures IsTimeline(OrderStates(run))
  {
    forall i, j | 0 <= i && j == i + 1 && j < |run| ensures Persists(run[i].ord, run[j].ord) {
      SagaTheorems.RunStep(run, i);
      EvolvesPersists(run[i], run[j]);
    }
  }

  lemma EvolvesPersists(s: Saga.State, t: Saga.State)
    requires OrdersEvolve(s.ord, s.history, t.ord, t.history) && HistoryInv(s.ord, s.history)
    ensures Persists(s.ord, t.ord)
  {
    assert forall o :: o in s.ord.orders ==> o in s.history;
  }

  lemma SeenAt(run: seq<Saga.State>, f: nat)
    requires Saga.IsRun(run) && f < |run|
    ensures SeenInv(run[f].ord, run[f].reconciling)
  {
    SagaSteps.InvRun(run, f);
  }

  /** What was read under the lock still tells whether the order exists. */
  lemma SeenTellsExistence(s: Saga.State, o: OrderId, read: Orders)
    requires SeenInv(s.ord, s.reconciling) && o in s.reconciling && s.reconciling[o] == Find(read, o)
    ensures o in read.orders <==> o in s.ord.orders
  {
  }

  lemma FinishConsults(s: Saga.State, t: Saga.State, o: OrderId, now: int)
    requires Saga.FinishReconcile(s, t, o, now)
    ensures t.ord == Consult(s.ord, o, s.reconciling[o], now).0
  {
  }

  lemma ConsultedStates(h: seq<Orders>, s: Saga.State, t: Saga.State, b: nat, f: nat, o: OrderId, now: int, at: int)
    requires b <= f && f + 1 < |h| && h[f] == s.ord && h[f + 1] == t.ord
    requires SeenInv(s.ord, s.reconciling) && o in s.reconciling && s.reconciling[o] == Find(h[b], o)
    requires t.ord == Consult(s.ord, o, s.reconciling[o], now).0
    ensures AnsweredAt(h, Moment(b, f, now), o, ReservationWorker.Answer(Consult(s.ord, o, Find(h[b], o), now).1, at))
  {
    SeenTellsExistence(s, o, h[b]);
  }

  ghost predicate ReadsAlong(run: seq<Saga.State>, o: OrderId) {
    forall i, j :: 0 <= i && j == i + 1 && j < |run| && o in run[j].reconciling ==>
      || (o in run[i].reconciling && run[j].reconciling[o] == run[i].reconciling[o])
      || Saga.BeginReconcile(run[i], run[j], o)
  }

  lemma RunReadsAlong(run: seq<Saga.State>, o: OrderId)
    requires Saga.IsRun(run)
    ensures ReadsAlong(run, o)
  {
    forall i, j | 0 <= i && j == i + 1 && j < |run| && o in run[j].reconciling
      ensures || (o in run[i].reconciling && run[j].reconciling[o] == run[i].reconciling[o])
              || Saga.BeginReconcile(run[i], run[j], o)
    {
      assert Saga.Next(run[i], run[i + 1]);
      SagaFrames.ReadByBegin(run[i], run[j], o);
    }
  }

  lemma {:induction false} ReadFound(run: seq<Saga.State>, f: nat, o: OrderId) returns (b: nat)
    requires ReadsAlong(run, o) && f < |run| && o !in run[0].reconciling && o in run[f].reconciling
    ensures b < f && Saga.BeginReconcile(run[b], run[b + 1], o) && run[f].reconciling[o] == Find(run[b].ord, o)
  {
    b := f - 1;
    if !Saga.BeginReconcile(run[f - 1], run[f], o) {
      b := ReadFound(run, f - 1, o);
    }
  }

  /** Every reconciliation that a saga run finishes began in some state `b` of the run, and answers at the
      moment that read state `b`. */
  lemma SagaAnswers(run: seq<Saga.State>, f: nat, o: OrderId, now: int, at: int) returns (b: nat)
    requires Saga.IsRun(run) && f + 1 < |run| && Saga.FinishReconcile(run[f], run[f + 1], o, now)
    ensures b < f && Saga.BeginReconcile(run[b], run[b + 1], o)
    ensures AnsweredAt(OrderStates(run), Moment(b, f, now), o,
              ReservationWorker.Answer(Consult(run[f].ord, o, Find(run[b].ord, o), now).1, at))
  {
    RunReadsAlong(run, o);
    b := ReadFound(run, f, o);
    SeenAt(run, f);
    FinishConsults(run[f], run[f + 1], o, now);
    ConsultedStates(OrderStates(run), run[f], run[f + 1], b, f, o, now, at);
  }
}

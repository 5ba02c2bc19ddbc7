/** The catalog's reservation worker: every pass takes the hundred stale reservations that were touched
    longest ago, asks order-service about each, and releases, commits or touches it. Times are
    milliseconds of one clock. */
module ReservationWorker {
  import opened Domain
  import opened Items
  import opened CatalogDb
  import OrderDb
  import StockLaws

  const BATCH: nat := 100
  const WINDOW_MS: int := 15 * 60_000

  datatype Times = Times(created: int, updated: int)

  /** The reservation table with its timestamps, inside the catalog database. */
  datatype Store = Store(cat: Catalog, times: map<OrderId, Times>)

  /** What came back for one row, and the clock then. No verdict stands for any error: the order service
      was unreachable, its reply was empty, or it missed the deadline. */
  datatype Answer = Answer(verdict: Option<OrderDb.Verdict>, at: int)

  predicate IsReserved(s: Store, o: OrderId) {
    o in s.cat.reservations && o in s.times && s.cat.reservations[o].status == RESERVED
  }

  predicate Eligible(s: Store, o: OrderId, now: int) {
    IsReserved(s, o) && s.times[o].created <= now - WINDOW_MS
  }

  predicate AllDistinct(s: seq<OrderId>) {
    forall i, j :: 0 <= i < j < |s| ==> s[i] != s[j]
  }

  /** What the query may return; the order among rows touched at the same time is the database's choice. */
  ghost predicate IsBatch(s: Store, now: int, batch: seq<OrderId>) {
    && |batch| <= BATCH
    && AllDistinct(batch)
    && (forall i :: 0 <= i < |batch| ==> Eligible(s, batch[i], now))
    && (forall i, j :: 0 <= i < j < |batch| ==> s.times[batch[i]].updated <= s.times[batch[j]].updated)
    && (forall x :: Eligible(s, x, now) && x !in batch ==>
          |batch| == BATCH && forall o :: o in batch ==> s.times[o].updated <= s.times[x].updated)
  }

  /** Acting on a verdict. A release that fails rolls back. */
  function Settle(c: Catalog, o: OrderId, v: OrderDb.Verdict): Result<Catalog> {
    if v.release then
      var (after, r) := Release(c, o);
      if r.Err? then Err(r.error) else Ok(after)
    else if v.commit then Ok(CommitReserved(c, o))
    else Ok(c)
  }

  /** One iteration. After any error the row is left for a later pass. */
  function Handle(s: Store, o: OrderId, a: Answer): Store {
    if a.verdict.None? || !IsReserved(s, o) then s
    else
      var c := Settle(s.cat, o, a.verdict.value);
      if c.Err? then s else Store(c.value, s.times[o := s.times[o].(updated := a.at)])
  }

  function AfterPass(s: Store, batch: seq<OrderId>, answers: seq<Answer>): Store
    requires |batch| == |answers|
  {
    if batch == [] then s
    else
      var n := |batch| - 1;
      Handle(AfterPass(s, batch[..n], answers[..n]), batch[n], answers[n])
  }

  class Worker {
    const catalog: CatalogService
    var times: map<OrderId, Times>

    ghost function View(): Store
      reads this, catalog
    {
      Store(catalog.View(), times)
    }

    constructor (catalog: CatalogService, times: map<OrderId, Times>)
      ensures this.catalog == catalog && View() == Store(catalog.View(), times)
    {
      this.catalog := catalog;
      this.times := times;
    }

    /** reconcileReservations: `batch` is the query's answer at `now`. */
    method ReconcileReservations(ghost now: int, batch: seq<OrderId>, answers: seq<Answer>)
      requires |batch| == |answers| && IsBatch(View(), now, batch)
      modifies this`times, catalog`stock, catalog`reservations, catalog`releasedRows
      ensures View() == AfterPass(old(View()), batch, answers)
    {
      for n := 0 to |batch|
        invariant View() == AfterPass(old(View()), batch[..n], answers[..n])
      {
        assert batch[..n + 1][..n] == batch[..n] && answers[..n + 1][..n] == answers[..n];
        HandleRow(batch[n], answers[n]);
      }
      assert batch[..|batch|] == batch && answers[..|answers|] == answers;
    }

    method HandleRow(order: OrderId, answer: Answer)
      modifies this`times, catalog`stock, catalog`reservations, catalog`releasedRows
      ensures View() == Handle(old(View()), order, answer)
    {
      if answer.verdict.None? || order !in catalog.reservations || order !in times ||
         catalog.reservations[order].status != RESERVED
      {
        return;
      }
      if answer.verdict.value.release {
        var r := catalog.ReleaseStock(order);
        if r.Err? {
          return;
        }
      } else if answer.verdict.value.commit {
        catalog.CommitReservation(order);
      }
      times := times[order := times[order].(updated := answer.at)];
    }
  }

  // ---------------------------------------------------------------------------------------------
  // What one pass does to each row

  predicate Releasable(s: Store) {
    forall o :: o in s.cat.reservations ==> AllKnown(s.cat.stock, s.cat.reservations[o].items)
  }

  function StatusAfter(v: OrderDb.Verdict): ReservationStatus {
    if v.release then RELEASED else if v.commit then COMMITTED else RESERVED
  }

  /** From `c` to `d` only the status of reservation `o` and stock levels may have changed. */
  predicate SameRows(c: Catalog, d: Catalog, o: OrderId) {
    && d.stock.Keys == c.stock.Keys
    && d.reservations.Keys == c.reservations.Keys
    && (forall x :: x in c.reservations ==>
          d.reservations[x].items == c.reservations[x].items && (x != o ==> d.reservations[x] == c.reservations[x]))
  }

  lemma SettleEffect(c: Catalog, o: OrderId, v: OrderDb.Verdict)
    requires o in c.reservations && c.reservations[o].status == RESERVED
    ensures var d := Settle(c, o, v);
            && (d.Ok? <==> (v.release ==> AllKnown(c.stock, c.reservations[o].items)))
            && (d.Ok? ==> SameRows(c, d.value, o) && d.value.reservations[o].status == StatusAfter(v))
  {
  }

  predicate OneRow(s: Store, t: Store, o: OrderId) {
    && SameRows(s.cat, t.cat, o)
    && t.times.Keys == s.times.Keys
    && (forall x :: x in s.times ==>
          t.times[x].created == s.times[x].created && (x != o ==> t.times[x] == s.times[x]))
  }

  /** The call was answered, and if it said release, every reserved product still exists. */
  predicate Effective(s: Store, o: OrderId, a: Answer)
    requires o in s.cat.reservations
  {
    a.verdict.Some? && (a.verdict.value.release ==> AllKnown(s.cat.stock, s.cat.reservations[o].items))
  }

  /** Without an answer, or when the release fails, nothing at all happens: the stock stays reserved and the
      row keeps its place for a later pass. */
  lemma NoAnswerNoChange(s: Store, o: OrderId, a: Answer)
    requires o in s.cat.reservations && !Effective(s, o, a)
    ensures Handle(s, o, a) == s
  {
    if IsReserved(s, o) && a.verdict.Some? { SettleEffect(s.cat, o, a.verdict.value); }
  }

  /** With an answer exactly one row changes: it becomes RELEASED and its totals return to the stock and are
      announced, or COMMITTED, or stays RESERVED; and it is touched. */
  lemma AnswerExactly(s: Store, o: OrderId, a: Answer)
    requires IsReserved(s, o) && Effective(s, o, a)
    ensures var (t, c, v) := (Handle(s, o, a), s.cat, a.verdict.value);
            && t.times == s.times[o := Times(s.times[o].created, a.at)]
            && t.cat.reservations == c.reservations[o := c.reservations[o].(status :=
                 if v.release then RELEASED else if v.commit then COMMITTED else RESERVED)]
            && t.cat.stock.Keys == c.stock.Keys
            && (forall p :: p in c.stock ==>
                 t.cat.stock[p] == c.stock[p] + if v.release then Total(c.reservations[o].items, p) else 0)
            && t.cat.releasedRows == c.releasedRows + (if v.release then multiset{o} else multiset{})
            && t.cat.processed == c.processed && t.cat.failedRows == c.failedRows
  {
    StockLaws.ReleaseExactly(s.cat, o);
  }

  lemma HandleConserves(s: Store, o: OrderId, a: Answer, p: ProductId)
    requires p in s.cat.stock
    ensures var c := Handle(s, o, a).cat; p in c.stock && StockLaws.Supply(c, p) == StockLaws.Supply(s.cat, p)
  {
    if IsReserved(s, o) && Effective(s, o, a) {
      AnswerExactly(s, o, a);
      HeldUpdate(s.cat.reservations, o, Handle(s, o, a).cat.reservations[o], p);
    } else if o in s.cat.reservations && !Effective(s, o, a) {
      NoAnswerNoChange(s, o, a);
    }
  }

  /** Row `o` got verdict `a`: its status and its time of last touch. */
  predicate Applied(t: Store, o: OrderId, a: Answer) {
    && o in t.cat.reservations && o in t.times && a.verdict.Some?
    && t.cat.reservations[o].status == StatusAfter(a.verdict.value) && t.times[o].updated == a.at
  }

  /** Row `o` kept its status, its items and its times. */
  predicate Kept(s: Store, t: Store, o: OrderId) {
    && o in s.cat.reservations && o in s.times && o in t.cat.reservations && o in t.times
    && t.cat.reservations[o] == s.cat.reservations[o] && t.times[o] == s.times[o]
  }

  predicate RowAfter(s: Store, t: Store, o: OrderId, a: Answer) {
    o in s.cat.reservations && if Effective(s, o, a) then Applied(t, o, a) else Kept(s, t, o)
  }

  lemma HandleEffect(s: Store, o: OrderId, a: Answer)
    ensures OneRow(s, Handle(s, o, a), o)
    ensures IsReserved(s, o) ==> RowAfter(s, Handle(s, o, a), o, a)
  {
    if IsReserved(s, o) && a.verdict.Some? {
      SettleEffect(s.cat, o, a.verdict.value);
    }
  }

  /** From `s` to `t` rows outside `batch` are unchanged, no row appeared or vanished, and items, creation times
      and the set of products are the same. */
  predicate OnlyRows(s: Store, t: Store, batch: seq<OrderId>) {
    && t.cat.reservations.Keys == s.cat.reservations.Keys && t.times.Keys == s.times.Keys
    && t.cat.stock.Keys == s.cat.stock.Keys
    && (forall x :: x in s.times ==> t.times[x].created == s.times[x].created)
    && (forall x :: x in s.cat.reservations ==> t.cat.reservations[x].items == s.cat.reservations[x].items)
    && (forall x :: x in s.cat.reservations && x !in batch ==> t.cat.reservations[x] == s.cat.reservations[x])
    && (forall x :: x in s.times && x !in batch ==> t.times[x] == s.times[x])
  }

  lemma SameEffective(s: Store, t: Store, batch: seq<OrderId>, o: OrderId, a: Answer)
    requires OnlyRows(s, t, batch) && o in s.cat.reservations
    ensures Effective(t, o, a) <==> Effective(s, o, a)
  {
  }

  /** Whichever calls of a pass are answered, each row of the batch whose call was gets its own verdict once,
      every other row of the batch keeps its status, its items and its times, and no row outside it changes. */
  lemma {:induction false} PassEffect(s: Store, batch: seq<OrderId>, answers: seq<Answer>)
    requires |batch| == |answers| && AllDistinct(batch)
    requires forall i :: 0 <= i < |batch| ==> IsReserved(s, batch[i])
    ensures var t := AfterPass(s, batch, answers);
            && OnlyRows(s, t, batch)
            && forall i :: 0 <= i < |batch| ==> RowAfter(s, t, batch[i], answers[i])
  {
    if batch != [] {
      var n := |batch| - 1;
      var before := AfterPass(s, batch[..n], answers[..n]);
      var t := Handle(before, batch[n], answers[n]);
      PassEffect(s, batch[..n], answers[..n]);
      HandleEffect(before, batch[n], answers[n]);
      AddRow(s, before, t, batch);
      SameEffective(s, before, batch[..n], batch[n], answers[n]);
      forall i | 0 <= i < n ensures RowAfter(s, t, batch[i], answers[i]) {
        assert RowAfter(s, before, batch[..n][i], answers[..n][i]);
      }
    }
  }

  lemma AddRow(s: Store, before: Store, t: Store, batch: seq<OrderId>)
    requires |batch| > 0 && AllDistinct(batch)
    requires OnlyRows(s, before, batch[..|batch| - 1]) && OneRow(before, t, batch[|batch| - 1])
    ensures OnlyRows(s, t, batch)
    ensures IsReserved(s, batch[|batch| - 1]) ==>
              IsReserved(before, batch[|batch| - 1]) && Kept(s, before, batch[|batch| - 1])
  {
    var n := |batch| - 1;
    assert batch[n] !in batch[..n];
    assert batch == batch[..n] + [batch[n]];
  }

  /** A pass moves stock between products' shelves and reservations, and loses none. */
  lemma {:induction false} PassConserves(s: Store, batch: seq<OrderId>, answers: seq<Answer>, p: ProductId)
    requires |batch| == |answers| && p in s.cat.stock
    ensures var c := AfterPass(s, batch, answers).cat;
            p in c.stock && StockLaws.Supply(c, p) == StockLaws.Supply(s.cat, p)
  {
    if batch != [] {
      var n := |batch| - 1;
      PassConserves(s, batch[..n], answers[..n], p);
      HandleConserves(AfterPass(s, batch[..n], answers[..n]), batch[n], answers[n], p);
    }
  }

  // ---------------------------------------------------------------------------------------------
  // Fairness

  /** One pass, from the table its query saw to the table it left. */
  datatype Pass = Pass(now: int, before: Store, batch: seq<OrderId>, answers: seq<Answer>, after: Store)

  ghost predicate IsPass(p: Pass) {
    && |p.batch| == |p.answers| && IsBatch(p.before, p.now, p.batch)
    && p.after == AfterPass(p.before, p.batch, p.answers)
  }

  lemma AnsweredPass(p: Pass, u: int)
    requires IsPass(p) && Answered(p, u)
    ensures OnlyRows(p.before, p.after, p.batch)
    ensures forall i :: 0 <= i < |p.batch| ==> Applied(p.after, p.batch[i], p.answers[i])
  {
    PassEffect(p.before, p.batch, p.answers);
    forall i | 0 <= i < |p.batch| ensures Applied(p.after, p.batch[i], p.answers[i]) {
      assert p.answers[i] in p.answers;
      assert RowAfter(p.before, p.after, p.batch[i], p.answers[i]);
    }
  }

  /** Every call of the pass is answered, later than `u`, and no reserved product is missing. */
  ghost predicate Answered(p: Pass, u: int) {
    Releasable(p.before) && forall a :: a in p.answers ==> a.verdict.Some? && a.at > u
  }

  /** What others may do between two passes: reserve, release, commit. They do not touch a row that stays
      RESERVED, and no row enters the queue of those last touched by `u`. */
  ghost predicate Between(p: Pass, q: Pass, u: int) {
    && p.now <= q.now
    && (forall x :: x in p.after.cat.reservations ==>
          x in q.before.cat.reservations && (IsReserved(q.before, x) ==> IsReserved(p.after, x)))
    && (forall x :: IsReserved(p.after, x) && IsReserved(q.before, x) ==> q.before.times[x] == p.after.times[x])
    && (forall x :: Eligible(q.before, x, q.now) && q.before.times[x].updated <= u ==> Eligible(p.after, x, p.now))
  }

  ghost predicate IsRun(run: seq<Pass>, u: int) {
    && (forall k :: 0 <= k < |run| ==> IsPass(run[k]) && Answered(run[k], u))
    && (forall k :: 0 < k < |run| ==> Between(run[k - 1], run[k], u))
  }

  /** The stale rows last touched by `u`. */
  ghost function Queue(s: Store, now: int, u: int): set<OrderId> {
    set x | x in s.times && Eligible(s, x, now) && s.times[x].updated <= u
  }

  /** Row `x` was examined by pass `k`, or had been settled by someone else before it. */
  ghost predicate DealtWith(p: Pass, x: OrderId) {
    x in p.batch || !IsReserved(p.before, x)
  }

  function Ids(s: seq<OrderId>): set<OrderId> {
    set x | x in s
  }

  lemma {:induction false} DistinctCount(s: seq<OrderId>)
    requires AllDistinct(s)
    ensures |Ids(s)| == |s|
  {
    if s != [] {
      var n := |s| - 1;
      DistinctCount(s[..n]);
      assert s[n] !in s[..n] && s == s[..n] + [s[n]];
      assert Ids(s) == Ids(s[..n]) + {s[n]};
    }
  }

  lemma TouchedLater(p: Pass, u: int)
    requires IsPass(p) && Answered(p, u)
    ensures forall o :: o in p.batch ==> o in p.after.times && p.after.times[o].updated > u
  {
    AnsweredPass(p, u);
    forall o | o in p.batch ensures o in p.after.times && p.after.times[o].updated > u {
      var i :| 0 <= i < |p.batch| && p.batch[i] == o;
      assert Applied(p.after, p.batch[i], p.answers[i]) && p.answers[i] in p.answers;
    }
  }

  /** A pass takes its rows from the front: all of the queue, or a hundred of it. */
  lemma PassDrains(p: Pass, u: int)
    requires IsPass(p) && Answered(p, u)
    ensures Queue(p.after, p.now, u) <= Queue(p.before, p.now, u) - Ids(p.batch)
    ensures Queue(p.before, p.now, u) <= Ids(p.batch)
         || |Queue(p.after, p.now, u)| <= |Queue(p.before, p.now, u)| - BATCH
  {
    AnsweredPass(p, u);
    TouchedLater(p, u);
    var queue, rest := Queue(p.before, p.now, u), Queue(p.after, p.now, u);
    forall x | x in rest ensures x in queue && x !in p.batch {
    }
    if !(queue <= Ids(p.batch)) {
      var x :| x in queue && x !in p.batch;
      assert Ids(p.batch) <= queue;
      DistinctCount(p.batch);
      SubsetSize(rest, queue - Ids(p.batch));
    }
  }

  lemma {:induction false} SubsetSize<T>(a: set<T>, b: set<T>)
    requires a <= b
    ensures |a| <= |b|
  {
    if a != {} {
      var x :| x in a;
      SubsetSize(a - {x}, b - {x});
    }
  }

  lemma Untouched(p: Pass, u: int, x: OrderId)
    requires IsPass(p) && Answered(p, u)
    requires x in Queue(p.before, p.now, u) && x !in p.batch
    ensures x in Queue(p.after, p.now, u)
  {
    AnsweredPass(p, u);
  }

  lemma TailIsRun(run: seq<Pass>, u: int)
    requires IsRun(run, u) && run != []
    ensures IsRun(run[1..], u)
  {
    var rest := run[1..];
    forall k | 0 < k < |rest| ensures Between(rest[k - 1], rest[k], u) {
      assert Between(run[k + 1 - 1], run[k + 1], u);
    }
  }

  /** Between two passes the queue only shrinks, and a row leaves it only by being settled. */
  lemma QueueCarriesOver(p: Pass, q: Pass, u: int, x: OrderId)
    requires Between(p, q, u) && x in Queue(p.after, p.now, u) && x in p.after.cat.reservations
    ensures |Queue(q.before, q.now, u)| <= |Queue(p.after, p.now, u)|
    ensures IsReserved(q.before, x) ==> x in Queue(q.before, q.now, u)
  {
    forall y | y in Queue(q.before, q.now, u) ensures y in Queue(p.after, p.now, u) {
      assert Eligible(q.before, y, q.now);
    }
    SubsetSize(Queue(q.before, q.now, u), Queue(p.after, p.now, u));
  }

  /** ceil(N / 100) passes reach all N rows of the queue, whoever else settles rows meanwhile. */
  lemma {:induction false} EveryRowIsReached(run: seq<Pass>, u: int, x: OrderId)
    requires IsRun(run, u) && run != []
    requires |Queue(run[0].before, run[0].now, u)| <= BATCH * |run|
    requires x in Queue(run[0].before, run[0].now, u)
    ensures exists k :: 0 <= k < |run| && DealtWith(run[k], x)
    decreases |run|
  {
    var p := run[0];
    if x in p.batch {
      assert DealtWith(run[0], x);
    } else {
      PassDrains(p, u);
      Untouched(p, u, x);
      if |run| > 1 {
        assert Between(run[1 - 1], run[1], u);
        QueueCarriesOver(p, run[1], u, x);
        if !IsReserved(run[1].before, x) {
          assert DealtWith(run[1], x);
        } else {
          TailIsRun(run, u);
          EveryRowIsReached(run[1..], u, x);
          var k :| 0 <= k < |run[1..]| && DealtWith(run[1..][k], x);
          assert DealtWith(run[k + 1], x);
        }
      }
    }
  }

  /** With a steady supply of new reservations the queue of rows not touched since before the window still
      admits nobody: a row cannot have been touched before it was created. */
  lemma NewcomersQueueBehind(p: Pass, q: Pass, u: int)
    requires p.now <= q.now && u <= p.now - WINDOW_MS
    requires forall x :: x in p.after.cat.reservations ==> x in q.before.cat.reservations
    requires forall x :: IsReserved(q.before, x) ==> q.before.times[x].created <= q.before.times[x].updated
    requires forall x :: IsReserved(q.before, x) && x in p.after.cat.reservations ==>
               IsReserved(p.after, x) && q.before.times[x] == p.after.times[x]
    requires forall x :: IsReserved(q.before, x) && x !in p.after.cat.reservations ==>
               q.before.times[x].created > p.now - WINDOW_MS
    ensures Between(p, q, u)
  {
    forall x | Eligible(q.before, x, q.now) && q.before.times[x].updated <= u ensures Eligible(p.after, x, p.now) {
      assert IsReserved(q.before, x);
    }
  }

  lemma PassKeepsSettled(p: Pass, u: int, x: OrderId)
    requires IsPass(p) && Answered(p, u) && x in p.before.cat.reservations
    ensures x in p.after.cat.reservations && (IsReserved(p.after, x) ==> IsReserved(p.before, x))
  {
    AnsweredPass(p, u);
  }

  /** A row RESERVED at the end of the run was RESERVED before and after every pass. */
  lemma {:induction false} ReservedThroughout(run: seq<Pass>, u: int, x: OrderId)
    requires IsRun(run, u) && run != []
    requires x in run[0].before.cat.reservations && IsReserved(run[|run| - 1].after, x)
    ensures forall k :: 0 <= k < |run| ==> IsReserved(run[k].before, x) && IsReserved(run[k].after, x)
    decreases |run|
  {
    PassKeepsSettled(run[0], u, x);
    if |run| > 1 {
      assert Between(run[1 - 1], run[1], u);
      TailIsRun(run, u);
      ReservedThroughout(run[1..], u, x);
      assert forall k :: 0 < k < |run| ==> run[k] == run[1..][k - 1];
      assert IsReserved(run[1..][0].before, x);
    }
  }
}

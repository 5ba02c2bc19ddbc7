/** Row and advisory locks of the catalog database, held by transactions until they end. A transaction is
    a script of locks taken one at a time; it may end in failure at any point. */
module Locks {
  import opened Domain
  import opened Items
  import CatalogDb
  import StockLaws

  /** Orders with the same advisory key (a 64-bit hash) share one advisory lock. */
  datatype Lock = Advisory(key: int) | ReservationRow(order: OrderId) | ProductRow(product: ProductId)

  /** reserveStock locks the advisory key, then the product rows in list order, then the new reservation's
      key; releaseStock the advisory key, the reservation row, then the product rows. */
  datatype Kind =
    | ReserveNew(order: OrderId, items: seq<Item>)
    | Release(order: OrderId, items: seq<Item>)
    | LockOnly(order: OrderId)          // repeated reserveStock, idle releaseStock, OrderCreated consumer
    | WorkerCommit(order: OrderId)      // one conditional update
    | ProductEdit(product: ProductId)   // an administrator's update

  datatype Tx = Tx(kind: Kind, taken: nat)

  type Hash = OrderId -> int

  function Products(items: seq<Item>): seq<Lock> {
    seq(|items|, i requires 0 <= i < |items| => ProductRow(items[i].product))
  }

  function Script(k: Kind, h: Hash): seq<Lock> {
    match k
    case ReserveNew(o, items) => [Advisory(h(o))] + Products(items) + [ReservationRow(o)]
    case Release(o, items) => [Advisory(h(o)), ReservationRow(o)] + Products(items)
    case LockOnly(o) => [Advisory(h(o))]
    case WorkerCommit(o) => [ReservationRow(o)]
    case ProductEdit(p) => [ProductRow(p)]
  }

  predicate Admissible(k: Kind) {
    match k
    case ReserveNew(_, items) => Sorted(items)
    case Release(_, items) => Sorted(items)
    case _ => true
  }

  type LockTable = map<nat, Tx>

  predicate Waiting(t: Tx, h: Hash) {
    t.taken < |Script(t.kind, h)|
  }

  predicate Holds(t: Tx, l: Lock, h: Hash) {
    exists i :: 0 <= i < t.taken && i < |Script(t.kind, h)| && Script(t.kind, h)[i] == l
  }

  function Wanted(t: Tx, h: Hash): Lock
    requires Waiting(t, h)
  {
    Script(t.kind, h)[t.taken]
  }

  /** Transaction `a` waits for transaction `b`. */
  ghost predicate WaitsFor(s: LockTable, a: nat, b: nat, h: Hash) {
    a in s && b in s && a != b && Waiting(s[a], h) && Holds(s[b], Wanted(s[a], h), h)
  }

  ghost predicate CanAcquire(s: LockTable, a: nat, h: Hash) {
    a in s && Waiting(s[a], h) && forall b :: !WaitsFor(s, a, b, h)
  }

  predicate CanFinish(s: LockTable, a: nat, h: Hash) {
    a in s && !Waiting(s[a], h)
  }

  ghost predicate Step(s: LockTable, t: LockTable, h: Hash) {
    || (exists a: nat, k :: a !in s && Admissible(k) && t == s[a := Tx(k, 0)])
    || (exists a :: CanAcquire(s, a, h) && t == s[a := s[a].(taken := s[a].taken + 1)])
    || (exists a :: a in s && t == s - {a})
  }

  /** No lock is held by two transactions, and the item lists are in canonical order. */
  ghost predicate Inv(s: LockTable, h: Hash) {
    && (forall a :: a in s ==> Admissible(s[a].kind) && s[a].taken <= |Script(s[a].kind, h)|)
    && (forall a, b, l :: a in s && b in s && Holds(s[a], l, h) && Holds(s[b], l, h) ==> a == b)
  }

  lemma AcquireHolds(t: Tx, l: Lock, h: Hash)
    requires Waiting(t, h)
    ensures Holds(t.(taken := t.taken + 1), l, h) <==> Holds(t, l, h) || l == Wanted(t, h)
  {
    var u := t.(taken := t.taken + 1);
    if Holds(u, l, h) {
      var i :| 0 <= i < u.taken && i < |Script(t.kind, h)| && Script(t.kind, h)[i] == l;
      assert i < t.taken || i == t.taken;
    }
    if l == Wanted(t, h) { assert Script(u.kind, h)[t.taken] == l; }
    if Holds(t, l, h) {
      var i :| 0 <= i < t.taken && i < |Script(t.kind, h)| && Script(t.kind, h)[i] == l;
      assert Script(u.kind, h)[i] == l;
    }
  }

  lemma AcquireKeeps(s: LockTable, a: nat, h: Hash)
    requires Inv(s, h) && CanAcquire(s, a, h)
    ensures Inv(s[a := s[a].(taken := s[a].taken + 1)], h)
  {
    var t := s[a := s[a].(taken := s[a].taken + 1)];
    forall b | b in s && b != a ensures !Holds(s[b], Wanted(s[a], h), h) {
      assert !WaitsFor(s, a, b, h);
    }
    forall x, y, l | x in t && y in t && Holds(t[x], l, h) && Holds(t[y], l, h) ensures x == y {
      AcquireHolds(s[a], l, h);
    }
  }

  lemma StepKeeps(s: LockTable, t: LockTable, h: Hash)
    requires Inv(s, h) && Step(s, t, h)
    ensures Inv(t, h)
  {
    if a: nat, k :| a !in s && Admissible(k) && t == s[a := Tx(k, 0)] {
    } else if a :| CanAcquire(s, a, h) && t == s[a := s[a].(taken := s[a].taken + 1)] {
      AcquireKeeps(s, a, h);
    }
  }

  // ---------------------------------------------------------------------------------------------
  // Levels: what a waiting transaction waits for only ever has a holder that waits for something higher.

  /** The level of the lock a transaction waits for. */
  function Level(t: Tx, h: Hash): nat
    requires Waiting(t, h)
  {
    match Wanted(t, h)
    case Advisory(_) => 0
    case ReservationRow(_) => if t.kind.ReserveNew? then Top(t.kind.items) else 1
    case ProductRow(p) => p + 2
  }

  /** Above every product of the list. */
  function Top(items: seq<Item>): nat {
    if items == [] then 2 else items[|items| - 1].product + 3
  }

  /** The advisory lock of a reserve or release that has taken anything. */
  lemma HoldsAdvisory(t: Tx, h: Hash)
    requires (t.kind.ReserveNew? || t.kind.Release?) && t.taken >= 1
    ensures Holds(t, Advisory(h(t.kind.order)), h)
  {
    assert Script(t.kind, h)[0] == Advisory(h(t.kind.order));
  }

  lemma ProductHolder(t: Tx, p: ProductId, h: Hash)
    requires Admissible(t.kind) && Waiting(t, h) && Holds(t, ProductRow(p), h)
    ensures Level(t, h) > p + 2
  {
    var i :| 0 <= i < t.taken && i < |Script(t.kind, h)| && Script(t.kind, h)[i] == ProductRow(p);
    var skip := if t.kind.ReserveNew? then 1 else 2;
    if t.kind.ReserveNew? || t.kind.Release? {
      var items := t.kind.items;
      assert items[i - skip].product == p;
      if t.taken - skip < |items| {
        assert Wanted(t, h) == ProductRow(items[t.taken - skip].product);
      } else {
        assert i - skip <= |items| - 1;
      }
    }
  }

  lemma RowHolder(t: Tx, o: OrderId, h: Hash)
    requires Waiting(t, h) && Holds(t, ReservationRow(o), h)
    ensures t.kind.Release? && t.kind.order == o && t.taken >= 2 && Level(t, h) > 1
  {
    var i :| 0 <= i < t.taken && i < |Script(t.kind, h)| && Script(t.kind, h)[i] == ReservationRow(o);
  }

  lemma WantsRow(t: Tx, o: OrderId, h: Hash)
    requires Waiting(t, h) && Wanted(t, h) == ReservationRow(o)
    ensures t.kind.WorkerCommit? || ((t.kind.ReserveNew? || t.kind.Release?) && t.kind.order == o && t.taken >= 1)
  {
  }

  lemma AdvisoryHolder(t: Tx, key: int, h: Hash)
    requires Waiting(t, h) && Holds(t, Advisory(key), h)
    ensures Level(t, h) > 0
  {
    var i :| 0 <= i < t.taken && i < |Script(t.kind, h)| && Script(t.kind, h)[i] == Advisory(key);
    assert i == 0;
  }

  /** Only the worker can be kept waiting for a reservation row by a transaction that waits itself: a
      second reserve or release of the order is still waiting for the advisory lock. */
  lemma RowWaiter(s: LockTable, a: nat, b: nat, o: OrderId, h: Hash)
    requires Inv(s, h) && WaitsFor(s, a, b, h) && Waiting(s[b], h) && Wanted(s[a], h) == ReservationRow(o)
    ensures s[a].kind.WorkerCommit? && Level(s[b], h) > 1
  {
    RowHolder(s[b], o, h);
    HoldsAdvisory(s[b], h);
    WantsRow(s[a], o, h);
    if !s[a].kind.WorkerCommit? { HoldsAdvisory(s[a], h); }
  }

  /** Along the wait-for relation levels rise, as long as the holder itself waits. */
  lemma LevelsRise(s: LockTable, a: nat, b: nat, h: Hash)
    requires Inv(s, h) && WaitsFor(s, a, b, h) && Waiting(s[b], h)
    ensures Level(s[b], h) > Level(s[a], h)
  {
    match Wanted(s[a], h)
    case Advisory(key) => AdvisoryHolder(s[b], key, h);
    case ProductRow(p) => ProductHolder(s[b], p, h);
    case ReservationRow(o) => RowWaiter(s, a, b, o, h);
  }

  // ---------------------------------------------------------------------------------------------

  ghost predicate IsRun(run: seq<LockTable>, h: Hash) {
    && |run| >= 1 && run[0] == map[]
    && forall i :: 0 <= i < |run| - 1 ==> Step(run[i], run[i + 1], h)
  }

  lemma {:induction false} RunKeeps(run: seq<LockTable>, h: Hash, i: nat)
    requires IsRun(run, h) && i < |run|
    ensures Inv(run[i], h)
  {
    if i > 0 {
      RunKeeps(run, h, i - 1);
      assert Step(run[i - 1], run[i - 1 + 1], h);
      StepKeeps(run[i - 1], run[i], h);
    }
  }

  /** A chain of transactions each waiting for the next. */
  ghost predicate Chain(s: LockTable, path: seq<nat>, h: Hash) {
    |path| >= 2 ==> WaitsFor(s, path[0], path[1], h) && Chain(s, path[1..], h)
  }

  /** `a` waits, at a lower level than `b` if `b` waits too. */
  predicate Below(s: LockTable, a: nat, b: nat, h: Hash) {
    a in s && b in s && Waiting(s[a], h) && (Waiting(s[b], h) ==> Level(s[a], h) < Level(s[b], h))
  }

  ghost predicate Ordered(s: LockTable, h: Hash) {
    forall a, b :: WaitsFor(s, a, b, h) ==> Below(s, a, b, h)
  }

  lemma WaitersAreOrdered(s: LockTable, h: Hash)
    requires Inv(s, h)
    ensures Ordered(s, h)
  {
    forall a, b | WaitsFor(s, a, b, h) ensures Below(s, a, b, h) {
      if Waiting(s[b], h) { LevelsRise(s, a, b, h); }
    }
  }

  lemma BelowTransitive(s: LockTable, a: nat, b: nat, c: nat, h: Hash)
    requires Below(s, a, b, h) && Below(s, b, c, h)
    ensures Below(s, a, c, h)
  {
  }

  lemma {:induction false} ChainRises(s: LockTable, path: seq<nat>, h: Hash)
    requires Ordered(s, h) && Chain(s, path, h) && |path| >= 2
    ensures Below(s, path[0], path[|path| - 1], h)
  {
    var tail := path[1..];
    assert WaitsFor(s, path[0], tail[0], h);
    if |tail| > 1 {
      ChainRises(s, tail, h);
      BelowTransitive(s, path[0], tail[0], tail[|tail| - 1], h);
    }
  }

  /** In every reachable state the wait-for graph has no cycle. */
  lemma NoWaitCycle(run: seq<LockTable>, h: Hash, n: nat, path: seq<nat>)
    requires IsRun(run, h) && n < |run|
    requires |path| >= 2 && Chain(run[n], path, h)
    ensures path[0] != path[|path| - 1]
  {
    RunKeeps(run, h, n);
    WaitersAreOrdered(run[n], h);
    ChainRises(run[n], path, h);
  }

  lemma {:induction false} HighestWaiter(s: LockTable, among: set<nat>, h: Hash) returns (top: nat)
    requires among != {} && forall a :: a in among ==> a in s && Waiting(s[a], h)
    ensures top in among && forall a :: a in among ==> Level(s[a], h) <= Level(s[top], h)
    decreases |among|
  {
    var a :| a in among;
    if among == {a} {
      top := a;
    } else {
      var rest := among - {a};
      assert among == {a} + rest;
      var high := HighestWaiter(s, rest, h);
      top := if Level(s[a], h) > Level(s[high], h) then a else high;
    }
  }

  /** In every reachable state with a transaction in progress, some transaction can take its next lock or
      has taken all of them. */
  lemma SomeoneProceeds(run: seq<LockTable>, h: Hash, n: nat) returns (a: nat)
    requires IsRun(run, h) && n < |run| && run[n] != map[]
    ensures CanAcquire(run[n], a, h) || CanFinish(run[n], a, h)
  {
    RunKeeps(run, h, n);
    var s := run[n];
    var waiting := set b | b in s && Waiting(s[b], h);
    if waiting == {} {
      assert s.Keys != {};
      a :| a in s;
      assert a !in waiting;
    } else {
      a := HighestWaiter(s, waiting, h);
      if b :| WaitsFor(s, a, b, h) {
        if b in waiting { LevelsRise(s, a, b, h); }
        a := b;
      }
    }
  }

  /** What reserveStock sorts, and what a reservation stores, is admissible: canonical lists are sorted. */
  lemma CanonicalIsAdmissible(input: seq<Item>, o: OrderId)
    requires ValidLines(input)
    ensures Admissible(ReserveNew(o, CanonicalOf(input).value)) && Admissible(Release(o, CanonicalOf(input).value))
  {
    CanonicalMeaning(input);
  }

  // ---------------------------------------------------------------------------------------------
  // The scripts name every row that the transactions write

  lemma ListedProduct(items: seq<Item>, p: ProductId)
    requires Total(items, p) != 0
    ensures ProductRow(p) in Products(items)
  {
    if !Mentions(items, p) { TotalOfAbsent(items, p); }
    var i :| 0 <= i < |items| && items[i].product == p;
    assert Products(items)[i] == ProductRow(p);
  }

  /** releaseStock locks its order, its reservation row and every product row whose stock it changes. */
  lemma ReleaseLocksWhatItWrites(c: CatalogDb.Catalog, o: OrderId, h: Hash)
    requires o in c.reservations
    ensures var (d, script) := (CatalogDb.Release(c, o).0, Script(Release(o, c.reservations[o].items), h));
            && script[0] == Advisory(h(o))
            && (forall x :: x in d.reservations && (x !in c.reservations || d.reservations[x] != c.reservations[x]) ==>
                  ReservationRow(x) in script)
            && (forall p :: p in d.stock && (p !in c.stock || d.stock[p] != c.stock[p]) ==> ProductRow(p) in script)
  {
    var (d, items) := (CatalogDb.Release(c, o).0, c.reservations[o].items);
    var script := Script(Release(o, items), h);
    StockLaws.ReleaseExactly(c, o);
    assert script[1] == ReservationRow(o);
    forall p | p in d.stock && (p !in c.stock || d.stock[p] != c.stock[p]) ensures ProductRow(p) in script {
      ListedProduct(items, p);
      ScriptHasProducts(Release(o, items), p, h);
    }
  }

  lemma ScriptHasProducts(k: Kind, p: ProductId, h: Hash)
    requires (k.ReserveNew? || k.Release?) && ProductRow(p) in Products(k.items)
    ensures ProductRow(p) in Script(k, h)
  {
  }

  /** reserveStock locks its order, every product row whose stock it changes, and the reservation it adds. */
  lemma ReserveLocksWhatItWrites(c: CatalogDb.Catalog, o: OrderId, input: seq<Item>, h: Hash)
    requires o !in c.reservations && ValidLines(input)
    ensures var (d, script) := (CatalogDb.Reserve(c, o, input).0, Script(ReserveNew(o, CanonicalOf(input).value), h));
            && script[0] == Advisory(h(o))
            && (forall x :: x in d.reservations && (x !in c.reservations || d.reservations[x] != c.reservations[x]) ==>
                  ReservationRow(x) in script)
            && (forall p :: p in d.stock && (p !in c.stock || d.stock[p] != c.stock[p]) ==> ProductRow(p) in script)
  {
    var (d, items) := (CatalogDb.Reserve(c, o, input).0, CanonicalOf(input).value);
    var script := Script(ReserveNew(o, items), h);
    StockLaws.ReserveExactly(c, o, input);
    CanonicalMeaning(input);
    assert script[|script| - 1] == ReservationRow(o);
    forall p | p in d.stock && (p !in c.stock || d.stock[p] != c.stock[p]) ensures ProductRow(p) in script {
      assert Total(items, p) == Total(input, p);
      ListedProduct(items, p);
      ScriptHasProducts(ReserveNew(o, items), p, h);
    }
  }
}

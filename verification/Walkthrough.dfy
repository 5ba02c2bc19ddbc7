/** One run of the saga from beginning to end: a customer orders one piece, cancels, and the stock comes
    back. It shows that the situations the theorems speak about do arise. */
module Walkthrough {
  import opened Domain
  import opened Items
  import opened Money
  import opened OrderStatusMachine
  import opened CatalogDb
  import opened OrderDb
  import opened Saga
  import opened SagaInvariants
  import opened SagaSteps
  import opened Convergence

  const ID: OrderId := Random(0)
  const PIECE: seq<Item> := [Item(1, 1)]
  const LINES: seq<Line> := [Line(1, 1, 100)]

  function Begun(): State {
    Init(map[1 := 1]).(calls := map[0 := Call(1, None, PIECE, None, [], Started)])
  }

  function WithPc(s: State, pc: CallPc): State
    requires 0 in s.calls
  {
    s.(calls := s.calls[0 := s.calls[0].(pc := pc)])
  }

  function Asked(): State {
    Begun().(calls := map[0 := Call(1, None, PIECE, Some(Quote(LINES, 100)), [Priced(100)], Sent)])
  }

  function Holding(): State {
    Asked().(cat := Asked().cat.(stock := map[1 := 0], reservations := map[ID := Reservation(RESERVED, PIECE)]),
             replies := {0})
  }

  function Placed(): Order {
    Order(ID, 1, None, LINES, 100, PENDING, 0)
  }

  function Ordered(): State {
    WithPc(Holding(), Returned(Placed())).(
      ord := Orders(map[ID := Placed()], map[], map[0 := ID], multiset{}),
      creator := map[ID := 0],
      history := map[ID := []])
  }

  function Cancelling(): State {
    Ordered().(updates := map[0 := UpdateTx(ID, PENDING, CANCELLED, false)])
  }

  function Off(): State {
    Ordered().(
      ord := Orders(map[ID := Placed().(status := CANCELLED)], map[], map[0 := ID], multiset{ID}),
      history := map[ID := [Change(PENDING, CANCELLED, Customer)]])
  }

  lemma PieceIsCanonical()
    ensures Merged(PIECE) == PIECE && CanonicalOf(PIECE) == Ok(PIECE)
  {
    assert PIECE[..0] == [];
    assert Merged(PIECE) == AddTo([], PIECE[0]);
    CanonicalMeaning(PIECE);
    SortedUnique(CanonicalOf(PIECE).value, PIECE);
  }

  // ---------------------------------------------------------------------------------------------

  ghost predicate Reachable(s: State) {
    exists run :: IsRun(run) && run[|run| - 1] == s
  }

  lemma InitIsReachable(stock: map<ProductId, nat>)
    ensures Reachable(Init(stock))
  {
    assert IsRun([Init(stock)]);
  }

  lemma NextIsReachable(s: State, t: State)
    requires Reachable(s) && Next(s, t)
    ensures Reachable(t)
  {
    var run :| IsRun(run) && run[|run| - 1] == s;
    RunExtends(run, t);
    assert (run + [t])[|run + [t]| - 1] == t;
  }

  lemma RunExtends(run: seq<State>, t: State)
    requires IsRun(run) && Next(run[|run| - 1], t)
    ensures IsRun(run + [t])
  {
    var r := run + [t];
    forall i | 0 <= i < |r| - 1 ensures Next(r[i], r[i + 1]) {
      if i < |run| - 1 { assert Next(run[i], run[i + 1]); }
    }
  }

  lemma ByCall(s: State, t: State)
    requires Reachable(s) && CallStep(s, t, 0)
    ensures Reachable(t)
  {
    NextIsReachable(s, t);
  }

  lemma Starts()
    ensures Reachable(Begun())
  {
    var s := Init(map[1 := 1]);
    InitIsReachable(map[1 := 1]);
    PieceIsCanonical();
    assert StartCall(s, Begun(), 0, 1, None, PIECE);
    ByCall(s, Begun());
  }

  lemma Looks()
    ensures Reachable(WithPc(Begun(), Missed))
  {
    Starts();
    assert Lookup(Begun(), WithPc(Begun(), Missed), 0);
    ByCall(Begun(), WithPc(Begun(), Missed));
  }

  lemma Prices()
    ensures Reachable(Asked())
  {
    Looks();
    assert LinesOf(PIECE, [Priced(100)]) == LINES;
    assert LINES[..0] == [];
    assert ExactTotal(LINES) == 100;
    TotalIsExact(LINES);
    assert PriceCall(WithPc(Begun(), Missed), Asked(), 0, [Priced(100)]);
    ByCall(WithPc(Begun(), Missed), Asked());
  }

  lemma PieceIsTaken()
    ensures DecrementAll(map[1 := 1], PIECE) == Ok(map[1 := 0])
  {
    var stock: map<ProductId, int> := map[1 := 1];
    assert PIECE[..0] == [];
    assert DecrementAll(stock, []) == Ok(stock);
    assert stock[1 := 0] == map[1 := 0];
  }

  lemma Reserves()
    ensures Reachable(Holding())
  {
    Prices();
    PieceIsCanonical();
    PieceIsTaken();
    assert ExecReserve(Asked(), Holding(), 0);
    ByCall(Asked(), Holding());
  }

  lemma Answers()
    ensures Reachable(WithPc(Holding(), Reserved))
  {
    Reserves();
    assert ReserveAnswered(Holding(), WithPc(Holding(), Reserved), 0);
    ByCall(Holding(), WithPc(Holding(), Reserved));
  }

  lemma OrderIsCreated()
    ensures Create(WithPc(Holding(), Reserved), Ordered(), 0, 0, false)
  {
  }

  lemma Creates()
    ensures Reachable(Ordered())
  {
    Answers();
    OrderIsCreated();
    ByCall(WithPc(Holding(), Reserved), Ordered());
  }

  lemma CancellationIsChecked()
    ensures BeginUpdate(Ordered(), Cancelling(), 0, ID, CANCELLED, 1, false)
  {
  }

  lemma ByUser(s: State, t: State)
    requires Reachable(s) && UserStep(s, t)
    ensures Reachable(t)
  {
    NextIsReachable(s, t);
  }

  lemma Checks()
    ensures Reachable(Cancelling())
  {
    Creates();
    CancellationIsChecked();
    ByUser(Ordered(), Cancelling());
  }

  lemma OffIsWritten()
    ensures FinishUpdate(Cancelling(), Off(), 0)
  {
    var s, t := Cancelling(), Off();
    assert (t.ord, true) == CompareAndSet(s.ord, ID, {PENDING}, CANCELLED) by {
      assert s.ord.orders[ID := Placed().(status := CANCELLED)] == t.ord.orders;
      assert s.ord.releaseRows + multiset{ID} == t.ord.releaseRows;
    }
    assert Logged(s, t.ord, ID, Customer) == t.history by {
      assert s.history[ID] + [Change(PENDING, CANCELLED, Customer)] == t.history[ID];
    }
    assert s.updates - {0} == t.updates;
  }

  lemma Cancels()
    ensures Reachable(Off())
  {
    Checks();
    OffIsWritten();
    ByUser(Cancelling(), Off());
  }

  lemma ReachableIsGood(s: State)
    requires Reachable(s)
    ensures Inv(s)
  {
    var run :| IsRun(run) && run[|run| - 1] == s;
    InvRun(run, |run| - 1);
  }

  /** A state is reachable in which an order is CANCELLED and its stock still held, as Converges supposes; two
      more events release it. */
  lemma CancellationArises() returns (s: State, events: seq<State>)
    ensures Reachable(s) && Inv(s) && Cancelled(s, ID) && s.cat.reservations[ID].status == RESERVED
    ensures events != [] && events[0] == s && EventRun(events, ID) && ReleasedBefore(events, ID, |events| - 1)
  {
    s := Off();
    Cancels();
    ReachableIsGood(s);
    var t, u := ReleaseCanRun(s, ID);
    events := [s, t, u];
    TwoEvents(s, t, u);
  }

  lemma TwoEvents(s: State, t: State, u: State)
    requires BeginRelease(s, t, ID, OrderCancelled) && FinishRelease(t, u, ID)
    ensures EventRun([s, t, u], ID) && ReleasedBefore([s, t, u], ID, 2)
  {
    var events := [s, t, u];
    assert EventStep(s, t, ID) && EventStep(t, u, ID);
    assert FinishRelease(events[1], events[1 + 1], ID);
  }
}

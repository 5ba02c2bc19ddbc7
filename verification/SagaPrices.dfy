/** Every stored order is charged at the prices that the catalog answered when its creating call asked. */
module SagaPrices {
  import opened Domain
  import opened Items
  import opened Money
  import opened OrderStatusMachine
  import opened Saga
  import opened SagaInvariants
  import opened SagaSteps

  predicate HasQuote(s: State, c: CallId) {
    c in s.calls && s.calls[c].quote.Some?
  }

  predicate KeepsQuote(s: State, t: State, c: CallId) {
    && c in s.calls && c in t.calls
    && t.calls[c].quote == s.calls[c].quote && t.calls[c].quoted == s.calls[c].quoted
  }

  // ---------------------------------------------------------------------------------------------
  // Only createOrder calls change calls

  lemma BeginReleaseCalls(s: State, t: State, q: OrderId, cause: Cause)
    requires BeginRelease(s, t, q, cause)
    ensures t.calls == s.calls
  {
  }

  lemma ReleaseCalls(s: State, t: State, q: OrderId)
    requires FinishRelease(s, t, q) || AbortRelease(s, t, q)
    ensures t.calls == s.calls
  {
  }

  lemma CreatedCalls(s: State, t: State, e: CallId)
    requires DeliverCreated(s, t, e)
    ensures t.calls == s.calls
  {
  }

  lemma CommitCalls(s: State, t: State, q: OrderId)
    requires ApplyCommit(s, t, q) || DropCommit(s, t, q)
    ensures t.calls == s.calls
  {
  }

  lemma FailedCalls(s: State, t: State, q: OrderId)
    requires DeliverFailed(s, t, q)
    ensures t.calls == s.calls
  {
  }

  lemma ReconcileCalls(s: State, t: State, q: OrderId)
    requires BeginReconcile(s, t, q) || AbortReconcile(s, t, q)
    ensures t.calls == s.calls
  {
  }

  lemma VerdictCalls(s: State, t: State, q: OrderId, now: int)
    requires FinishReconcile(s, t, q, now)
    ensures t.calls == s.calls
  {
  }

  lemma EventCalls(s: State, t: State, q: OrderId)
    requires EventStep(s, t, q)
    ensures t.calls == s.calls
  {
    if cause :| BeginRelease(s, t, q, cause) {
      BeginReleaseCalls(s, t, q, cause);
    } else if FinishRelease(s, t, q) || AbortRelease(s, t, q) {
      ReleaseCalls(s, t, q);
    } else if e :| e in s.ord.createdRows && s.ord.createdRows[e] == q && DeliverCreated(s, t, e) {
      CreatedCalls(s, t, e);
    } else if ApplyCommit(s, t, q) || DropCommit(s, t, q) {
      CommitCalls(s, t, q);
    } else if DeliverFailed(s, t, q) {
      FailedCalls(s, t, q);
    } else if now :| FinishReconcile(s, t, q, now) {
      VerdictCalls(s, t, q, now);
    } else {
      ReconcileCalls(s, t, q);
    }
  }

  lemma CheckCalls(s: State, t: State, u: nat, o: OrderId, target: OrderStatus, user: UserId, admin: bool)
    requires BeginUpdate(s, t, u, o, target, user, admin)
    ensures t.calls == s.calls
  {
  }

  lemma WriteCalls(s: State, t: State, u: nat)
    requires FinishUpdate(s, t, u)
    ensures t.calls == s.calls
  {
  }

  lemma EditCalls(s: State, t: State, p: ProductId, n: nat)
    requires SetStock(s, t, p, n)
    ensures t.calls == s.calls
  {
  }

  lemma UserCalls(s: State, t: State)
    requires UserStep(s, t)
    ensures t.calls == s.calls
  {
    if p, n :| SetStock(s, t, p, n) {
      EditCalls(s, t, p, n);
    } else if u :| FinishUpdate(s, t, u) {
      WriteCalls(s, t, u);
    } else {
      var u, o, target, user, admin :| BeginUpdate(s, t, u, o, target, user, admin);
      CheckCalls(s, t, u, o, target, user, admin);
    }
  }

  // ---------------------------------------------------------------------------------------------
  // A createOrder call is quoted when its items are priced, and then keeps its quote

  ghost predicate QuotedBy(s: State, t: State, c: CallId) {
    HasQuote(t, c) ==> KeepsQuote(s, t, c) || exists replies :: PriceCall(s, t, c, replies)
  }

  lemma StartQuotes(s: State, t: State, c: CallId, user: UserId, key: Option<Key>, raw: seq<Item>, d: CallId)
    requires StartCall(s, t, c, user, key, raw)
    ensures HasQuote(t, d) ==> KeepsQuote(s, t, d)
  {
  }

  lemma MoveQuotes(s: State, t: State, c: CallId, pc: CallPc, d: CallId)
    requires c in s.calls && Moves(s, t, c, pc)
    ensures HasQuote(t, d) ==> KeepsQuote(s, t, d)
  {
  }

  lemma LookupQuotes(s: State, t: State, c: CallId, d: CallId)
    requires Lookup(s, t, c)
    ensures HasQuote(t, d) ==> KeepsQuote(s, t, d)
  {
    MoveQuotes(s, t, c, t.calls[c].pc, d);
  }

  lemma RecheckQuotes(s: State, t: State, c: CallId, d: CallId)
    requires Recheck(s, t, c)
    ensures HasQuote(t, d) ==> KeepsQuote(s, t, d)
  {
    MoveQuotes(s, t, c, t.calls[c].pc, d);
  }

  lemma PriceQuotes(s: State, t: State, c: CallId, replies: seq<PriceReply>, d: CallId)
    requires PriceCall(s, t, c, replies)
    ensures HasQuote(t, d) ==> KeepsQuote(s, t, d) || d == c
  {
  }

  lemma ReserveQuotes(s: State, t: State, c: CallId, d: CallId)
    requires ExecReserve(s, t, c)
    ensures HasQuote(t, d) ==> KeepsQuote(s, t, d)
  {
  }

  lemma CreateQuotes(s: State, t: State, c: CallId, now: int, lost: bool, d: CallId)
    requires Create(s, t, c, now, lost)
    ensures HasQuote(t, d) ==> KeepsQuote(s, t, d)
  {
  }

  lemma GiveBackQuotes(s: State, t: State, c: CallId, d: CallId)
    requires GiveBack(s, t, c)
    ensures HasQuote(t, d) ==> KeepsQuote(s, t, d)
  {
  }

  lemma CallQuotes(s: State, t: State, c: CallId, d: CallId)
    requires CallStep(s, t, c)
    ensures QuotedBy(s, t, d)
  {
    if user, key, raw :| StartCall(s, t, c, user, key, raw) {
      StartQuotes(s, t, c, user, key, raw, d);
    } else if replies :| PriceCall(s, t, c, replies) {
      PriceQuotes(s, t, c, replies, d);
    } else if ExecReserve(s, t, c) {
      ReserveQuotes(s, t, c, d);
    } else if now, lost :| Create(s, t, c, now, lost) {
      CreateQuotes(s, t, c, now, lost, d);
    } else if GiveBack(s, t, c) {
      GiveBackQuotes(s, t, c, d);
    } else if Lookup(s, t, c) {
      LookupQuotes(s, t, c, d);
    } else if Recheck(s, t, c) {
      RecheckQuotes(s, t, c, d);
    } else if unique :| CreateAborts(s, t, c, unique) {
      MoveQuotes(s, t, c, CreateFailed(unique), d);
    } else if ReserveAnswered(s, t, c) {
      MoveQuotes(s, t, c, Reserved, d);
    } else {
      MoveQuotes(s, t, c, Threw, d);
    }
  }

  lemma NextQuotes(s: State, t: State, d: CallId)
    requires Next(s, t)
    ensures QuotedBy(s, t, d)
  {
    if q :| EventStep(s, t, q) {
      EventCalls(s, t, q);
    } else if c :| CallStep(s, t, c) {
      CallQuotes(s, t, c, d);
    } else {
      UserCalls(s, t);
    }
  }

  ghost predicate QuotesAlong(run: seq<State>, c: CallId) {
    forall i, j :: 0 <= i && j == i + 1 && j < |run| ==> QuotedBy(run[i], run[j], c)
  }

  lemma RunQuotesAlong(run: seq<State>, c: CallId)
    requires IsRun(run)
    ensures QuotesAlong(run, c)
  {
    forall i, j | 0 <= i && j == i + 1 && j < |run| ensures QuotedBy(run[i], run[j], c) {
      assert Next(run[i], run[i + 1]);
      NextQuotes(run[i], run[j], c);
    }
  }

  lemma PriceRecords(s: State, t: State, c: CallId, replies: seq<PriceReply>)
    requires PriceCall(s, t, c, replies)
    ensures HasQuote(t, c) && t.calls[c].quoted == replies
  {
  }

  lemma {:induction false} PricingFound(run: seq<State>, i: nat, c: CallId) returns (k: nat, replies: seq<PriceReply>)
    requires QuotesAlong(run, c) && i < |run| && !HasQuote(run[0], c) && HasQuote(run[i], c)
    ensures k < i && PriceCall(run[k], run[k + 1], c, replies) && run[i].calls[c].quoted == replies
  {
    var s, t := run[i - 1], run[i];
    assert QuotedBy(s, t, c);
    if r :| PriceCall(s, t, c, r) {
      PriceRecords(s, t, c, r);
      k, replies := i - 1, r;
    } else {
      k, replies := PricingFound(run, i - 1, c);
    }
  }

  lemma OrderIsQuoted(s: State, o: OrderId)
    requires OrderInv(s.ord, s.creator, s.calls) && o in s.ord.orders
    ensures o in s.creator && HasQuote(s, s.creator[o])
    ensures PricedAs(s.ord.orders[o].lines, s.calls[s.creator[o]].items, s.calls[s.creator[o]].quoted)
  {
    assert MadeBy(s.ord.orders[o], s.creator[o], s.calls[s.creator[o]]);
  }

  /** The call that created a stored order asked for prices in some transition `k`; each line of the order
      bears the price answered then for its own product, and the total is the sum of those prices times the
      quantities, with no rounding. */
  lemma OrdersBearAnsweredPrices(run: seq<State>, i: nat, o: OrderId) returns (k: nat, replies: seq<PriceReply>)
    requires IsRun(run) && i < |run| && o in run[i].ord.orders
    ensures o in run[i].creator && run[i].creator[o] in run[i].calls
    ensures k < i && PriceCall(run[k], run[k + 1], run[i].creator[o], replies)
    ensures var (x, items) := (run[i].ord.orders[o], run[i].calls[run[i].creator[o]].items);
            && PricedAs(x.lines, items, replies)
            && x.total == AnsweredTotal(items, replies)
  {
    OrderFacts(run, i, o);
    var c := run[i].creator[o];
    RunQuotesAlong(run, c);
    k, replies := PricingFound(run, i, c);
    PricedTotal(run[i].ord.orders[o].lines, run[i].calls[c].items, replies);
    TotalIsExact(run[i].ord.orders[o].lines);
  }

  lemma OrderFacts(run: seq<State>, i: nat, o: OrderId)
    requires IsRun(run) && i < |run| && o in run[i].ord.orders
    ensures var s := run[i];
            && o in s.creator && HasQuote(s, s.creator[o])
            && PricedAs(s.ord.orders[o].lines, s.calls[s.creator[o]].items, s.calls[s.creator[o]].quoted)
            && s.ord.orders[o].total == RoundedTotal(s.ord.orders[o].lines) < COLUMN_LIMIT
  {
    InvRun(run, i);
    assert OrderInv(run[i].ord, run[i].creator, run[i].calls);
    OrderIsQuoted(run[i], o);
  }
}

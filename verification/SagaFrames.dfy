/** What a transition of the saga leaves alone: most touch neither reservations nor verdicts, and the others
    touch those of one order. */
module SagaFrames {
  import opened Domain
  import opened Items
  import opened Money
  import opened OrderStatusMachine
  import opened CatalogDb
  import opened OrderDb
  import opened Saga
  import opened SagaInvariants
  import opened SagaSteps

  /** What belongs to order `o` in the catalog and in the verdicts under way is left as it was. */
  ghost predicate Aside(s: State, t: State, o: OrderId) {
    && o in s.cat.reservations && o in t.cat.reservations && t.cat.reservations[o] == s.cat.reservations[o]
    && (o in t.commits ==> o in s.commits)
    && (o in t.reconciling ==> o in s.reconciling && t.reconciling[o] == s.reconciling[o])
  }

  lemma ReleaseIsAside(s: State, t: State, q: OrderId, o: OrderId)
    requires FinishRelease(s, t, q) && q != o && o in s.cat.reservations
    ensures Aside(s, t, o)
  {
  }

  lemma ApplyIsAside(s: State, t: State, q: OrderId, o: OrderId)
    requires (ApplyCommit(s, t, q) || DropCommit(s, t, q)) && q != o && o in s.cat.reservations
    ensures Aside(s, t, o)
  {
  }

  lemma BeginReconcileIsAside(s: State, t: State, q: OrderId, o: OrderId)
    requires BeginReconcile(s, t, q) && q != o && o in s.cat.reservations
    ensures Aside(s, t, o)
  {
  }

  lemma AbortReconcileIsAside(s: State, t: State, q: OrderId, o: OrderId)
    requires AbortReconcile(s, t, q) && q != o && o in s.cat.reservations
    ensures Aside(s, t, o)
  {
  }

  lemma FinishReconcileIsAside(s: State, t: State, q: OrderId, o: OrderId, now: int)
    requires FinishReconcile(s, t, q, now) && q != o && o in s.cat.reservations
    ensures Aside(s, t, o)
  {
  }

  /** A transition on another order that touches reservations or verdicts. */
  ghost predicate Touches(s: State, t: State, q: OrderId) {
    || FinishRelease(s, t, q) || ApplyCommit(s, t, q) || DropCommit(s, t, q)
    || BeginReconcile(s, t, q) || AbortReconcile(s, t, q) || (exists now :: FinishReconcile(s, t, q, now))
  }

  lemma TouchIsAside(s: State, t: State, q: OrderId, o: OrderId)
    requires Touches(s, t, q) && q != o && o in s.cat.reservations
    ensures Aside(s, t, o)
  {
    if FinishRelease(s, t, q) {
      ReleaseIsAside(s, t, q, o);
    } else if BeginReconcile(s, t, q) {
      BeginReconcileIsAside(s, t, q, o);
    } else if AbortReconcile(s, t, q) {
      AbortReconcileIsAside(s, t, q, o);
    } else if now :| FinishReconcile(s, t, q, now) {
      FinishReconcileIsAside(s, t, q, o, now);
    } else {
      ApplyIsAside(s, t, q, o);
    }
  }

  /** Neither reservations nor verdicts change. */
  ghost predicate Quiet(s: State, t: State) {
    t.cat.reservations == s.cat.reservations && t.commits == s.commits && t.reconciling == s.reconciling
  }

  lemma CreatedIsQuiet(s: State, t: State, e: CallId)
    requires DeliverCreated(s, t, e)
    ensures Quiet(s, t)
  {
  }

  lemma BeginReleaseIsQuiet(s: State, t: State, q: OrderId, cause: Cause)
    requires BeginRelease(s, t, q, cause)
    ensures Quiet(s, t)
  {
  }

  lemma AbortReleaseIsQuiet(s: State, t: State, q: OrderId)
    requires AbortRelease(s, t, q)
    ensures Quiet(s, t)
  {
  }

  lemma FailedIsQuiet(s: State, t: State, q: OrderId)
    requires DeliverFailed(s, t, q)
    ensures Quiet(s, t)
  {
  }

  lemma EventIsQuiet(s: State, t: State, q: OrderId)
    requires EventStep(s, t, q) && !Touches(s, t, q)
    ensures Quiet(s, t)
  {
    if cause :| BeginRelease(s, t, q, cause) {
      BeginReleaseIsQuiet(s, t, q, cause);
    } else if AbortRelease(s, t, q) {
      AbortReleaseIsQuiet(s, t, q);
    } else if DeliverFailed(s, t, q) {
      FailedIsQuiet(s, t, q);
    } else {
      var e :| e in s.ord.createdRows && s.ord.createdRows[e] == q && DeliverCreated(s, t, e);
      CreatedIsQuiet(s, t, e);
    }
  }

  lemma CreateIsQuiet(s: State, t: State, c: CallId, now: int, lost: bool)
    requires Create(s, t, c, now, lost)
    ensures Quiet(s, t)
  {
  }

  lemma GiveBackIsQuiet(s: State, t: State, c: CallId)
    requires GiveBack(s, t, c)
    ensures Quiet(s, t)
  {
  }

  lemma LocalIsQuiet(s: State, t: State, c: CallId, call: Call)
    requires Local(s, t, c, call)
    ensures Quiet(s, t)
  {
  }

  lemma PriceIsQuiet(s: State, t: State, c: CallId, replies: seq<PriceReply>)
    requires PriceCall(s, t, c, replies)
    ensures Quiet(s, t)
  {
  }

  lemma LookupIsQuiet(s: State, t: State, c: CallId)
    requires Lookup(s, t, c)
    ensures Quiet(s, t)
  {
  }

  lemma RecheckIsQuiet(s: State, t: State, c: CallId)
    requires Recheck(s, t, c)
    ensures Quiet(s, t)
  {
  }

  lemma MoveIsQuiet(s: State, t: State, c: CallId)
    requires ReserveAnswered(s, t, c) || GiveUp(s, t, c)
    ensures Quiet(s, t)
  {
  }

  lemma CallIsQuiet(s: State, t: State, c: CallId)
    requires CallStep(s, t, c) && !ExecReserve(s, t, c)
    ensures Quiet(s, t)
  {
    if user, key, raw :| StartCall(s, t, c, user, key, raw) {
      LocalIsQuiet(s, t, c, Call(user, key, Merged(raw), None, [], Started));
    } else if replies :| PriceCall(s, t, c, replies) {
      PriceIsQuiet(s, t, c, replies);
    } else if now, lost :| Create(s, t, c, now, lost) {
      CreateIsQuiet(s, t, c, now, lost);
    } else if unique :| CreateAborts(s, t, c, unique) {
      LocalIsQuiet(s, t, c, s.calls[c].(pc := CreateFailed(unique)));
    } else if GiveBack(s, t, c) {
      GiveBackIsQuiet(s, t, c);
    } else if Lookup(s, t, c) {
      LookupIsQuiet(s, t, c);
    } else if Recheck(s, t, c) {
      RecheckIsQuiet(s, t, c);
    } else {
      MoveIsQuiet(s, t, c);
    }
  }

  lemma CheckIsQuiet(s: State, t: State, u: nat, o: OrderId, target: OrderStatus, user: UserId, admin: bool)
    requires BeginUpdate(s, t, u, o, target, user, admin)
    ensures Quiet(s, t)
  {
  }

  lemma WriteIsQuiet(s: State, t: State, u: nat)
    requires FinishUpdate(s, t, u)
    ensures Quiet(s, t)
  {
  }

  lemma EditIsQuiet(s: State, t: State, p: ProductId, n: nat)
    requires SetStock(s, t, p, n)
    ensures Quiet(s, t)
  {
  }

  lemma UserIsQuiet(s: State, t: State)
    requires UserStep(s, t)
    ensures Quiet(s, t)
  {
    if p, n :| SetStock(s, t, p, n) {
      EditIsQuiet(s, t, p, n);
    } else if u :| FinishUpdate(s, t, u) {
      WriteIsQuiet(s, t, u);
    } else {
      var u, o, target, user, admin :| BeginUpdate(s, t, u, o, target, user, admin);
      CheckIsQuiet(s, t, u, o, target, user, admin);
    }
  }

  lemma ReserveIsAside(s: State, t: State, c: CallId, o: OrderId)
    requires ExecReserve(s, t, c) && o in s.cat.reservations
    ensures Aside(s, t, o)
  {
    ExecReserveEffect(s, t, c);
  }

  lemma QuietIsAside(s: State, t: State, o: OrderId)
    requires Quiet(s, t) && o in s.cat.reservations
    ensures Aside(s, t, o)
  {
  }

  lemma AnyStepIsAside(s: State, t: State, o: OrderId)
    requires Next(s, t) && !EventStep(s, t, o) && o in s.cat.reservations
    ensures Aside(s, t, o)
  {
    if q :| EventStep(s, t, q) {
      if Touches(s, t, q) {
        TouchIsAside(s, t, q, o);
      } else {
        EventIsQuiet(s, t, q);
        QuietIsAside(s, t, o);
      }
    } else if c :| CallStep(s, t, c) {
      if ExecReserve(s, t, c) {
        ReserveIsAside(s, t, c, o);
      } else {
        CallIsQuiet(s, t, c);
        QuietIsAside(s, t, o);
      }
    } else {
      UserIsQuiet(s, t);
      QuietIsAside(s, t, o);
    }
  }

  lemma CancelledIsFinal(s: State, t: State, o: OrderId)
    requires HistoryInv(s.ord, s.history) && OrdersEvolve(s.ord, s.history, t.ord, t.history) && CancelledIn(s.ord, o)
    ensures CancelledIn(t.ord, o) && t.ord.orders[o] == s.ord.orders[o]
  {
    assert o in s.history;
  }

  // ---------------------------------------------------------------------------------------------
  // Where a RELEASED reservation and a read under the lock come from

  predicate IsReleased(s: State, o: OrderId) {
    o in s.cat.reservations && s.cat.reservations[o].status == RELEASED
  }

  /** Every transition is quiet, touches one order, or executes a ReserveStock request. */
  lemma NextFrames(s: State, t: State)
    requires Next(s, t)
    ensures Quiet(s, t) || (exists q :: Touches(s, t, q)) || (exists c :: ExecReserve(s, t, c))
  {
    if q :| EventStep(s, t, q) {
      if !Touches(s, t, q) { EventIsQuiet(s, t, q); }
    } else if c :| CallStep(s, t, c) {
      if !ExecReserve(s, t, c) { CallIsQuiet(s, t, c); }
    } else {
      UserIsQuiet(s, t);
    }
  }

  lemma CommitReleasesNothing(s: State, t: State, q: OrderId, o: OrderId)
    requires ApplyCommit(s, t, q) && IsReleased(t, o)
    ensures IsReleased(s, o)
  {
  }

  lemma FinishReleasesItsOrder(s: State, t: State, q: OrderId, o: OrderId)
    requires FinishRelease(s, t, q) && IsReleased(t, o) && q != o
    ensures IsReleased(s, o)
  {
  }

  /** What a transition of reconciliation does to reads and reservations. */
  lemma BeginReads(s: State, t: State, q: OrderId)
    requires BeginReconcile(s, t, q)
    ensures t.cat == s.cat && t.reconciling == s.reconciling[q := Find(s.ord, q)]
  {
  }

  lemma AbortReads(s: State, t: State, q: OrderId)
    requires AbortReconcile(s, t, q)
    ensures t.cat == s.cat && t.reconciling == s.reconciling - {q}
  {
  }

  lemma FinishReads(s: State, t: State, q: OrderId, now: int)
    requires FinishReconcile(s, t, q, now)
    ensures t.cat == s.cat && t.reconciling == s.reconciling - {q}
  {
  }

  lemma DropReads(s: State, t: State, q: OrderId)
    requires DropCommit(s, t, q)
    ensures t.cat == s.cat && t.reconciling == s.reconciling
  {
  }

  lemma WritesRead(s: State, t: State, q: OrderId)
    requires FinishRelease(s, t, q) || ApplyCommit(s, t, q)
    ensures t.reconciling == s.reconciling
  {
  }

  lemma TouchReleases(s: State, t: State, q: OrderId, o: OrderId)
    requires Touches(s, t, q) && IsReleased(t, o)
    ensures IsReleased(s, o) || FinishRelease(s, t, o)
  {
    if FinishRelease(s, t, q) {
      if q != o { FinishReleasesItsOrder(s, t, q, o); }
    } else if ApplyCommit(s, t, q) {
      CommitReleasesNothing(s, t, q, o);
    } else if BeginReconcile(s, t, q) {
      BeginReads(s, t, q);
    } else if AbortReconcile(s, t, q) {
      AbortReads(s, t, q);
    } else if DropCommit(s, t, q) {
      DropReads(s, t, q);
    } else {
      var now :| FinishReconcile(s, t, q, now);
      FinishReads(s, t, q, now);
    }
  }

  /** A reservation becomes RELEASED by the write of a releaseStock of its order, and in no other way. */
  lemma ReleasedByFinish(s: State, t: State, o: OrderId)
    requires Next(s, t) && IsReleased(t, o)
    ensures IsReleased(s, o) || FinishRelease(s, t, o)
  {
    NextFrames(s, t);
    if q :| Touches(s, t, q) {
      TouchReleases(s, t, q, o);
    } else if c :| ExecReserve(s, t, c) {
      ExecReserveEffect(s, t, c);
    }
  }

  lemma TouchReads(s: State, t: State, q: OrderId, o: OrderId)
    requires Touches(s, t, q) && o in t.reconciling
    ensures (o in s.reconciling && t.reconciling[o] == s.reconciling[o]) || BeginReconcile(s, t, o)
  {
    if BeginReconcile(s, t, q) {
      BeginReads(s, t, q);
    } else if AbortReconcile(s, t, q) {
      AbortReads(s, t, q);
    } else if FinishRelease(s, t, q) || ApplyCommit(s, t, q) {
      WritesRead(s, t, q);
    } else if DropCommit(s, t, q) {
      DropReads(s, t, q);
    } else {
      var now :| FinishReconcile(s, t, q, now);
      FinishReads(s, t, q, now);
    }
  }

  /** What a reconciliation has read, it read when it began. */
  lemma ReadByBegin(s: State, t: State, o: OrderId)
    requires Next(s, t) && o in t.reconciling
    ensures (o in s.reconciling && t.reconciling[o] == s.reconciling[o]) || BeginReconcile(s, t, o)
  {
    NextFrames(s, t);
    if q :| Touches(s, t, q) {
      TouchReads(s, t, q, o);
    }
  }
}

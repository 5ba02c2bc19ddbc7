/** Several outbox workers over one table. A worker's updates become visible when its transaction commits;
    its publications cannot be taken back by a rollback. */
module OutboxRuns {
  import opened Domain
  import opened Outbox

  /** A worker's open transaction: claimed rows still to try, rows tried with their attempts, the updates made
      so far, the count to be returned, and the last time seen. */
  datatype Tx = Tx(todo: seq<RowId>, done: seq<RowId>, attempts: seq<Attempt>, buffer: map<RowId, Row>,
                   published: nat, at: int)

  type WorkerId = nat

  datatype State = State(
    rows: Table,
    used: set<RowId>,            // identifiers ever enqueued
    txs: map<WorkerId, Tx>,
    clock: int,
    sent: set<RowId>,            // history: rows whose message the broker has accepted
    firstTry: map<RowId, int>,   // history: when publication of a row was first attempted
    log: map<RowId, seq<Attempt>>)   // history: the committed attempts of each row

  function Init(clock: int): State {
    State(map[], {}, map[], clock, {}, map[], map[])
  }

  function LogOf(log: map<RowId, seq<Attempt>>, id: RowId): seq<Attempt> {
    if id in log then log[id] else []
  }

  /** The history after a transaction that tried these rows with these outcomes. */
  function Committed(log: map<RowId, seq<Attempt>>, done: seq<RowId>, attempts: seq<Attempt>): map<RowId, seq<Attempt>>
    decreases |done|
  {
    if done == [] || attempts == [] then log
    else
      var id := done[|done| - 1];
      var before := Committed(log, done[..|done| - 1], attempts[..|attempts| - 1]);
      before[id := LogOf(before, id) + [attempts[|attempts| - 1]]]
  }

  predicate Owns(x: Tx, id: RowId) {
    id in x.todo || id in x.buffer
  }

  ghost predicate LockedAll(txs: map<WorkerId, Tx>, locked: set<RowId>) {
    forall id :: id in locked <==> exists w :: w in txs && Owns(txs[w], id)
  }

  predicate Tick(s: State, t: State, to: int) {
    to >= s.clock && t == s.(clock := to)
  }

  predicate Enqueue(s: State, t: State, id: RowId) {
    id !in s.used &&
    t == s.(rows := s.rows[id := Row(PENDING, 0, s.clock, None, s.clock)], used := s.used + {id})
  }

  ghost predicate Claim(s: State, t: State, w: WorkerId, batchSize: nat, claim: seq<RowId>) {
    && w !in s.txs && 1 <= batchSize <= 100
    && (exists locked :: LockedAll(s.txs, locked) && IsClaim(s.rows, locked, s.clock, batchSize, claim))
    && t == s.(txs := s.txs[w := Tx(claim, [], [], map[], 0, s.clock)])
  }

  /** One publication, begun at `began` and over now. */
  predicate Try(s: State, t: State, w: WorkerId, began: int, ok: bool, max: nat) {
    && w in s.txs && s.txs[w].todo != []
    && var x := s.txs[w];
    var id := x.todo[0];
    && id in s.rows && x.at <= began <= s.clock
    && t == s.(
         txs := s.txs[w := Tx(x.todo[1..], x.done + [id], x.attempts + [Attempt(s.clock, ok)],
                              x.buffer[id := Updated(s.rows[id], Attempt(s.clock, ok), max)],
                              if ok then x.published + 1 else x.published, s.clock)],
         sent := if ok then s.sent + {id} else s.sent,
         firstTry := if id in s.firstTry then s.firstTry else s.firstTry[id := began])
  }

  predicate Commit(s: State, t: State, w: WorkerId) {
    && w in s.txs && s.txs[w].todo == []
    && t == s.(rows := s.rows + s.txs[w].buffer, txs := s.txs - {w},
               log := Committed(s.log, s.txs[w].done, s.txs[w].attempts))
  }

  predicate Rollback(s: State, t: State, w: WorkerId) {
    w in s.txs && t == s.(txs := s.txs - {w})
  }

  predicate Maintain(s: State, t: State) {
    t == s.(rows := map x | x in s.rows && !Expired(s.rows[x], s.clock) :: s.rows[x])
  }

  ghost predicate Next(s: State, t: State, max: nat) {
    || (exists to :: Tick(s, t, to))
    || (exists id :: Enqueue(s, t, id))
    || (exists w, batchSize, claim :: Claim(s, t, w, batchSize, claim))
    || (exists w, began, ok :: Try(s, t, w, began, ok, max))
    || (exists w :: Commit(s, t, w))
    || (exists w :: Rollback(s, t, w))
    || Maintain(s, t)
  }

  ghost predicate IsRun(run: seq<State>, max: nat) {
    && |run| >= 1
    && (exists clock :: run[0] == Init(clock))
    && forall i :: 0 <= i < |run| - 1 ==> Next(run[i], run[i + 1], max)
  }

  // ---------------------------------------------------------------------------------------------

  /** The waiting times after the first `k` failures, added up. */
  function Waited(k: nat): (ms: int)
    ensures ms >= 0
  {
    if k == 0 then 0 else Waited(k - 1) + Backoff(k)
  }

  /** The number of failures a row is allowed: maxRetries, but the first attempt is always made. */
  function Allowed(max: nat): nat {
    if max == 0 then 1 else max
  }

  /** Status and retry count agree; PUBLISHED means sent; after k failures the next attempt is at least the
      k waiting times after the first attempt, and the last failure is not in the future. */
  predicate GoodRow(id: RowId, row: Row, max: nat, clock: int, sent: set<RowId>, firstTry: map<RowId, int>) {
    && row.retryCount <= Allowed(max)
    && (row.status == FAILED <==> row.retryCount == Allowed(max))
    && (row.status == PUBLISHED ==> id in sent && row.publishedAt.Some? && row.publishedAt.value <= clock)
    && (row.retryCount >= 1 ==>
        && id in firstTry
        && firstTry[id] + Waited(row.retryCount) <= row.nextAttemptAt <= clock + Backoff(row.retryCount))
  }

  ghost predicate RowInv(s: State, max: nat) {
    && s.rows.Keys <= s.used
    && (forall id :: id in s.rows ==> GoodRow(id, s.rows[id], max, s.clock, s.sent, s.firstTry))
    && (forall id :: id in s.firstTry ==> s.firstTry[id] <= s.clock)
  }

  /** What an open transaction has claimed is still PENDING and was due when it was claimed. */
  ghost predicate GoodTx(x: Tx, s: State, max: nat) {
    && DistinctIds(x.todo)
    && x.at <= s.clock
    && (forall id :: Owns(x, id) ==> id in s.rows && s.rows[id].status == PENDING && s.rows[id].nextAttemptAt <= x.at)
    && (forall id :: id in x.buffer ==> id !in x.todo && GoodRow(id, x.buffer[id], max, s.clock, s.sent, s.firstTry))
  }

  /** SKIP LOCKED: no row is claimed by two workers. */
  ghost predicate TxInv(s: State, max: nat) {
    && (forall w :: w in s.txs ==> GoodTx(s.txs[w], s, max))
    && (forall v, w, id :: v in s.txs && w in s.txs && Owns(s.txs[v], id) && Owns(s.txs[w], id) ==> v == w)
  }

  ghost predicate Inv(s: State, max: nat) {
    RowInv(s, max) && TxInv(s, max)
  }

  lemma LaterIsGood(id: RowId, row: Row, max: nat, s: State, t: State)
    requires GoodRow(id, row, max, s.clock, s.sent, s.firstTry)
    requires s.clock <= t.clock && s.sent <= t.sent
    requires forall x :: x in s.firstTry ==> x in t.firstTry && t.firstTry[x] == s.firstTry[x]
    ensures GoodRow(id, row, max, t.clock, t.sent, t.firstTry)
  {
  }

  lemma TickKeeps(s: State, t: State, to: int, max: nat)
    requires Inv(s, max) && Tick(s, t, to)
    ensures Inv(t, max)
  {
    forall id | id in t.rows ensures GoodRow(id, t.rows[id], max, t.clock, t.sent, t.firstTry) {
      LaterIsGood(id, s.rows[id], max, s, t);
    }
    forall w | w in t.txs ensures GoodTx(t.txs[w], t, max) {
      assert GoodTx(s.txs[w], s, max);
    }
  }

  lemma EnqueueKeeps(s: State, t: State, id: RowId, max: nat)
    requires Inv(s, max) && Enqueue(s, t, id)
    ensures Inv(t, max)
  {
    forall w | w in t.txs ensures GoodTx(t.txs[w], t, max) {
      assert GoodTx(s.txs[w], s, max);
    }
  }

  lemma ClaimKeeps(s: State, t: State, w: WorkerId, batchSize: nat, claim: seq<RowId>, max: nat)
    requires Inv(s, max) && Claim(s, t, w, batchSize, claim)
    ensures Inv(t, max)
  {
    var locked :| LockedAll(s.txs, locked) && IsClaim(s.rows, locked, s.clock, batchSize, claim);
    ClaimIsDistinct(s.rows, locked, s.clock, batchSize, claim);
    assert GoodTx(t.txs[w], t, max);
    forall v | v in t.txs && v != w ensures GoodTx(t.txs[v], t, max) {
      assert GoodTx(s.txs[v], s, max);
    }
    forall v, id | v in t.txs && v != w && Owns(t.txs[v], id) ensures !Owns(t.txs[w], id) {
      assert id in locked;
    }
  }

  /** The updated row is as good as the row it replaces, with one more waiting time behind it. */
  lemma UpdatedIsGood(id: RowId, row: Row, at: int, ok: bool, max: nat, s: State, t: State)
    requires GoodRow(id, row, max, s.clock, s.sent, s.firstTry) && row.status == PENDING
    requires row.nextAttemptAt <= at == s.clock == t.clock
    requires id in t.firstTry && t.firstTry[id] <= at
    requires forall x :: x in s.firstTry ==> x in t.firstTry && t.firstTry[x] == s.firstTry[x]
    requires t.sent == if ok then s.sent + {id} else s.sent
    ensures GoodRow(id, Updated(row, Attempt(at, ok), max), max, t.clock, t.sent, t.firstTry)
  {
    if !ok { assert Waited(row.retryCount + 1) == Waited(row.retryCount) + Backoff(row.retryCount + 1); }
  }

  lemma TryTx(s: State, t: State, w: WorkerId, began: int, ok: bool, max: nat)
    requires Inv(s, max) && Try(s, t, w, began, ok, max)
    ensures GoodTx(t.txs[w], t, max)
    ensures forall id :: Owns(t.txs[w], id) ==> Owns(s.txs[w], id)
  {
    var x, y := s.txs[w], t.txs[w];
    assert GoodTx(x, s, max);
    var id := x.todo[0];
    assert Owns(x, id);
    assert x.todo == [id] + y.todo;
    UpdatedIsGood(id, s.rows[id], s.clock, ok, max, s, t);
    forall i | i in y.buffer
      ensures i !in y.todo && GoodRow(i, y.buffer[i], max, t.clock, t.sent, t.firstTry)
    {
      if i != id { LaterIsGood(i, x.buffer[i], max, s, t); }
    }
    forall i | Owns(y, i) ensures Owns(x, i) {
      if i in y.todo { assert i in x.todo; }
    }
  }

  lemma TryKeeps(s: State, t: State, w: WorkerId, began: int, ok: bool, max: nat)
    requires Inv(s, max) && Try(s, t, w, began, ok, max)
    ensures Inv(t, max)
  {
    TryTx(s, t, w, began, ok, max);
    forall id | id in t.rows ensures GoodRow(id, t.rows[id], max, t.clock, t.sent, t.firstTry) {
      LaterIsGood(id, s.rows[id], max, s, t);
    }
    forall v | v in t.txs && v != w ensures GoodTx(t.txs[v], t, max) {
      OtherTx(s.txs[v], s, t, max);
    }
  }

  /** A transaction is not disturbed by changes to rows it does not own. */
  lemma OtherTx(x: Tx, s: State, t: State, max: nat)
    requires GoodTx(x, s, max)
    requires s.clock <= t.clock && s.sent <= t.sent
    requires forall i :: i in s.firstTry ==> i in t.firstTry && t.firstTry[i] == s.firstTry[i]
    requires forall id :: Owns(x, id) && id in s.rows ==> id in t.rows && t.rows[id] == s.rows[id]
    ensures GoodTx(x, t, max)
  {
    forall i | i in x.buffer ensures GoodRow(i, x.buffer[i], max, t.clock, t.sent, t.firstTry) {
      LaterIsGood(i, x.buffer[i], max, s, t);
    }
  }

  lemma CommitKeeps(s: State, t: State, w: WorkerId, max: nat)
    requires Inv(s, max) && Commit(s, t, w)
    ensures Inv(t, max)
  {
    assert GoodTx(s.txs[w], s, max);
    assert forall id :: id in s.txs[w].buffer ==> Owns(s.txs[w], id);
    forall v | v in t.txs ensures GoodTx(t.txs[v], t, max) {
      assert forall id :: Owns(s.txs[v], id) ==> !Owns(s.txs[w], id);
      OtherTx(s.txs[v], s, t, max);
    }
  }

  lemma RollbackKeeps(s: State, t: State, w: WorkerId, max: nat)
    requires Inv(s, max) && Rollback(s, t, w)
    ensures Inv(t, max)
  {
    forall v | v in t.txs ensures GoodTx(t.txs[v], t, max) { OtherTx(s.txs[v], s, t, max); }
  }

  lemma MaintainKeeps(s: State, t: State, max: nat)
    requires Inv(s, max) && Maintain(s, t)
    ensures Inv(t, max)
  {
    forall v | v in t.txs ensures GoodTx(t.txs[v], t, max) {
      assert GoodTx(s.txs[v], s, max);
      OtherTx(s.txs[v], s, t, max);
    }
  }

  lemma NextKeeps(s: State, t: State, max: nat)
    requires Inv(s, max) && Next(s, t, max)
    ensures Inv(t, max)
  {
    if to :| Tick(s, t, to) {
      TickKeeps(s, t, to, max);
    } else if id :| Enqueue(s, t, id) {
      EnqueueKeeps(s, t, id, max);
    } else if w, batchSize, claim :| Claim(s, t, w, batchSize, claim) {
      ClaimKeeps(s, t, w, batchSize, claim, max);
    } else if w, began, ok :| Try(s, t, w, began, ok, max) {
      TryKeeps(s, t, w, began, ok, max);
    } else if w :| Commit(s, t, w) {
      CommitKeeps(s, t, w, max);
    } else if w :| Rollback(s, t, w) {
      RollbackKeeps(s, t, w, max);
    } else {
      MaintainKeeps(s, t, max);
    }
  }

  lemma {:induction false} RunKeeps(run: seq<State>, max: nat, i: nat)
    requires IsRun(run, max) && i < |run|
    ensures Inv(run[i], max)
  {
    if i > 0 {
      RunKeeps(run, max, i - 1);
      assert Next(run[i - 1], run[i - 1 + 1], max);
      NextKeeps(run[i - 1], run[i], max);
    }
  }

  // ---------------------------------------------------------------------------------------------

  /** A row is PUBLISHED only after the broker accepted its message, is never retried more than allowed, and is
      FAILED exactly when what is allowed is used up, in every state of every run with any workers, rollbacks
      and clean-ups. */
  lemma PublishedWasSent(run: seq<State>, max: nat, i: nat, id: RowId)
    requires IsRun(run, max) && i < |run| && id in run[i].rows
    ensures run[i].rows[id].status == PUBLISHED ==> id in run[i].sent
    ensures run[i].rows[id].retryCount <= Allowed(max)
    ensures run[i].rows[id].status == FAILED <==> run[i].rows[id].retryCount == Allowed(max)
  {
    RunKeeps(run, max, i);
  }

  /** In every state of every run a row is FAILED exactly when its retries are used up. */
  ghost predicate FailedMeansUsedUp(max: nat) {
    forall run: seq<State>, s: State, id: RowId :: IsRun(run, max) && s in run && id in s.rows ==>
      (s.rows[id].status == FAILED <==> s.rows[id].retryCount == max)
  }

  /** That is so unless maxRetries is configured as 0, which counts a new row as used up. */
  lemma StatusesAreRight(max: nat)
    ensures FailedMeansUsedUp(max) <==> max >= 1
  {
    if max >= 1 {
      forall run: seq<State>, s: State, id: RowId | IsRun(run, max) && s in run && id in s.rows
        ensures s.rows[id].status == FAILED <==> s.rows[id].retryCount == max
      {
        var i :| 0 <= i < |run| && run[i] == s;
        RunKeeps(run, max, i);
        assert GoodRow(id, s.rows[id], max, s.clock, s.sent, s.firstTry);
      }
    } else {
      var s, t := Init(0), Init(0).(rows := map[1 := Row(PENDING, 0, 0, None, 0)], used := {1});
      assert Enqueue(s, t, 1);
      assert IsRun([s, t], 0);
      assert t in [s, t] && 1 in t.rows && t.rows[1].status != FAILED && t.rows[1].retryCount == 0;
    }
  }

  /** No row is given up sooner than all but the last waiting time after its first attempt. */
  lemma NotFailedEarly(run: seq<State>, max: nat, i: nat, id: RowId)
    requires IsRun(run, max) && i < |run| && id in run[i].rows && run[i].rows[id].status == FAILED
    ensures id in run[i].firstTry && run[i].clock >= run[i].firstTry[id] + Waited(Allowed(max) - 1)
  {
    RunKeeps(run, max, i);
    assert GoodRow(id, run[i].rows[id], max, run[i].clock, run[i].sent, run[i].firstTry);
  }

  lemma BackoffTable()
    ensures Waited(7) == 254_000
    ensures Backoff(8) == 256_000 && Backoff(9) == MAX_BACKOFF_MS
  {
    assert Pow2(3) == 8;
    assert Pow2(6) == 64;
    assert Pow2(9) == 512;
    assert Waited(2) == 6000;
    assert Waited(4) == 30000;
    assert Waited(6) == 126000;
  }

  /** With the default eight retries that is 254 seconds. */
  lemma DefaultPatience(run: seq<State>, i: nat, id: RowId)
    requires IsRun(run, DEFAULT_MAX_RETRIES) && i < |run|
    requires id in run[i].rows && run[i].rows[id].status == FAILED
    ensures id in run[i].firstTry && run[i].clock - run[i].firstTry[id] >= 254_000
  {
    NotFailedEarly(run, DEFAULT_MAX_RETRIES, i, id);
    BackoffTable();
  }

  /** A row disappears only by the clean-up, and only when it was published more than seven days before. */
  lemma DeletedOnlyWhenOld(run: seq<State>, max: nat, i: nat, id: RowId)
    requires IsRun(run, max) && i + 1 < |run|
    requires id in run[i].rows && id !in run[i + 1].rows
    ensures run[i].rows[id].status == PUBLISHED && id in run[i].sent
    ensures run[i].rows[id].publishedAt.Some? && run[i].rows[id].publishedAt.value < run[i].clock - RETENTION_MS
  {
    RunKeeps(run, max, i);
    assert Next(run[i], run[i + 1], max);
  }

  // ---------------------------------------------------------------------------------------------
  // A committed transaction is one batch of ProcessOnce

  predicate InTable(s: seq<RowId>, t: Table) {
    forall i :: 0 <= i < |s| ==> s[i] in t
  }

  /** The open transaction has computed what ProcessOnce computes on the rows it has tried. */
  ghost predicate IsBatch(x: Tx, rows: Table, max: nat) {
    && |x.done| == |x.attempts| && DistinctIds(x.done) && InTable(x.done, rows)
    && (forall id :: id in x.buffer <==> id in x.done)
    && (forall i :: 0 <= i < |x.done| ==> x.buffer[x.done[i]] == Updated(rows[x.done[i]], x.attempts[i], max))
    && x.published == Successes(x.attempts)
  }

  ghost predicate BatchInv(s: State, max: nat) {
    forall w :: w in s.txs ==> IsBatch(s.txs[w], s.rows, max)
  }

  lemma TryIsBatch(x: Tx, rows: Table, id: RowId, a: Attempt, y: Tx, max: nat)
    requires IsBatch(x, rows, max) && id in rows && id !in x.done
    requires y.done == x.done + [id] && y.attempts == x.attempts + [a]
    requires y.buffer == x.buffer[id := Updated(rows[id], a, max)]
    requires y.published == if a.ok then x.published + 1 else x.published
    ensures IsBatch(y, rows, max)
  {
    var n := |x.done|;
    assert y.attempts[..n] == x.attempts;
    forall i | 0 <= i <= n
      ensures y.done[i] in rows && y.buffer[y.done[i]] == Updated(rows[y.done[i]], y.attempts[i], max)
    {
      if i < n { assert y.done[i] == x.done[i] && x.done[i] in x.done; }
    }
  }

  /** Rows a transaction has tried are not changed by anyone else. */
  lemma OtherBatch(x: Tx, rows: Table, after: Table, max: nat)
    requires IsBatch(x, rows, max)
    requires forall id :: id in x.buffer && id in rows ==> id in after && after[id] == rows[id]
    ensures IsBatch(x, after, max)
  {
    forall i | 0 <= i < |x.done| ensures x.done[i] in after && after[x.done[i]] == rows[x.done[i]] {
      assert x.done[i] in x.buffer;
    }
  }

  /** A transition that opens no batch, and changes no row that an open batch has tried. */
  lemma RowsKeepBatches(s: State, t: State, max: nat)
    requires BatchInv(s, max)
    requires forall w :: w in t.txs ==> w in s.txs && t.txs[w] == s.txs[w]
    requires forall w, id :: w in t.txs && id in t.txs[w].buffer && id in s.rows ==>
               id in t.rows && t.rows[id] == s.rows[id]
    ensures BatchInv(t, max)
  {
    forall w | w in t.txs ensures IsBatch(t.txs[w], t.rows, max) {
      OtherBatch(s.txs[w], s.rows, t.rows, max);
    }
  }

  lemma TryKeepsBatches(s: State, t: State, w: WorkerId, began: int, ok: bool, max: nat)
    requires Inv(s, max) && BatchInv(s, max) && Try(s, t, w, began, ok, max)
    ensures BatchInv(t, max)
  {
    var x := s.txs[w];
    assert GoodTx(x, s, max) && IsBatch(x, s.rows, max);
    assert x.todo[0] in x.todo;
    assert x.todo[0] !in x.done;
    TryIsBatch(x, s.rows, x.todo[0], Attempt(s.clock, ok), t.txs[w], max);
    assert t.rows == s.rows;
  }

  lemma CommitKeepsBatches(s: State, t: State, w: WorkerId, max: nat)
    requires Inv(s, max) && BatchInv(s, max) && Commit(s, t, w)
    ensures BatchInv(t, max)
  {
    forall v, id | v in t.txs && id in t.txs[v].buffer && id in s.rows
      ensures id in t.rows && t.rows[id] == s.rows[id]
    {
      assert Owns(s.txs[v], id) && !Owns(s.txs[w], id);
    }
    RowsKeepBatches(s, t, max);
  }

  lemma MaintainKeepsBatches(s: State, t: State, max: nat)
    requires Inv(s, max) && BatchInv(s, max) && Maintain(s, t)
    ensures BatchInv(t, max)
  {
    forall v, id | v in t.txs && id in t.txs[v].buffer && id in s.rows
      ensures id in t.rows && t.rows[id] == s.rows[id]
    {
      assert GoodTx(s.txs[v], s, max) && Owns(s.txs[v], id);
    }
    RowsKeepBatches(s, t, max);
  }

  lemma ClaimKeepsBatches(s: State, t: State, w: WorkerId, batchSize: nat, claim: seq<RowId>, max: nat)
    requires BatchInv(s, max) && Claim(s, t, w, batchSize, claim)
    ensures BatchInv(t, max)
  {
    forall v | v in t.txs ensures IsBatch(t.txs[v], t.rows, max) {
      if v != w { assert IsBatch(s.txs[v], s.rows, max); }
    }
  }

  lemma EnqueueKeepsBatches(s: State, t: State, id: RowId, max: nat)
    requires RowInv(s, max) && BatchInv(s, max) && Enqueue(s, t, id)
    ensures BatchInv(t, max)
  {
    RowsKeepBatches(s, t, max);
  }

  lemma NextKeepsBatches(s: State, t: State, max: nat)
    requires Inv(s, max) && BatchInv(s, max) && Next(s, t, max)
    ensures BatchInv(t, max)
  {
    if w, batchSize, claim :| Claim(s, t, w, batchSize, claim) {
      ClaimKeepsBatches(s, t, w, batchSize, claim, max);
    } else if w, began, ok :| Try(s, t, w, began, ok, max) {
      TryKeepsBatches(s, t, w, began, ok, max);
    } else if w :| Commit(s, t, w) {
      CommitKeepsBatches(s, t, w, max);
    } else if id :| Enqueue(s, t, id) {
      EnqueueKeepsBatches(s, t, id, max);
    } else if Maintain(s, t) {
      MaintainKeepsBatches(s, t, max);
    } else {
      RowsKeepBatches(s, t, max);
    }
  }

  lemma BatchesStep(run: seq<State>, max: nat, i: nat)
    requires IsRun(run, max) && i + 1 < |run| && BatchInv(run[i], max)
    ensures BatchInv(run[i + 1], max)
  {
    RunKeeps(run, max, i);
    assert Next(run[i], run[i + 1], max);
    NextKeepsBatches(run[i], run[i + 1], max);
  }

  ghost predicate BatchesAlong(run: seq<State>, max: nat) {
    forall i, j :: 0 <= i && j == i + 1 && j < |run| && BatchInv(run[i], max) ==> BatchInv(run[j], max)
  }

  lemma RunBatchesAlong(run: seq<State>, max: nat)
    requires IsRun(run, max)
    ensures BatchesAlong(run, max)
  {
    forall i, j | 0 <= i && j == i + 1 && j < |run| && BatchInv(run[i], max) ensures BatchInv(run[j], max) {
      BatchesStep(run, max, i);
    }
  }

  lemma {:induction false} BatchesFar(run: seq<State>, max: nat, i: nat)
    requires BatchesAlong(run, max) && i < |run| && BatchInv(run[0], max)
    ensures BatchInv(run[i], max)
  {
    if i > 0 { BatchesFar(run, max, i - 1); }
  }

  lemma RunKeepsBatches(run: seq<State>, max: nat, i: nat)
    requires IsRun(run, max) && i < |run|
    ensures BatchInv(run[i], max)
  {
    RunBatchesAlong(run, max);
    BatchesFar(run, max, i);
  }

  lemma BufferIsBatch(x: Tx, rows: Table, max: nat)
    requires IsBatch(x, rows, max)
    ensures rows + x.buffer == AfterBatch(rows, x.done, x.attempts, max)
  {
    var after := AfterBatch(rows, x.done, x.attempts, max);
    BatchEffect(rows, x.done, x.attempts, max);
    forall id | id in rows ensures (rows + x.buffer)[id] == after[id] {
      if id in x.done {
        var i :| 0 <= i < |x.done| && x.done[i] == id;
      }
    }
  }

  /** Whatever other workers claimed, published, committed or rolled back meanwhile, a commit turns the table
      into what ProcessOnce computes from the rows it tried, and the number it returns is the number of rows
      that it moved to PUBLISHED. */
  lemma CommitIsProcessOnce(run: seq<State>, max: nat, i: nat, w: WorkerId)
    requires IsRun(run, max) && i + 1 < |run| && Commit(run[i], run[i + 1], w)
    ensures var (x, rows, after) := (run[i].txs[w], run[i].rows, run[i + 1].rows);
            && |x.done| == |x.attempts| && after == AfterBatch(rows, x.done, x.attempts, max)
            && x.published == |NewlyPublished(rows, after)|
  {
    var (x, rows) := (run[i].txs[w], run[i].rows);
    RunKeeps(run, max, i);
    RunKeepsBatches(run, max, i);
    assert GoodTx(x, run[i], max) && IsBatch(x, rows, max);
    BufferIsBatch(x, rows, max);
    forall j | 0 <= j < |x.done| ensures x.done[j] in rows && rows[x.done[j]].status == PENDING {
      assert Owns(x, x.done[j]);
    }
    BatchPublishes(rows, x.done, x.attempts, max);
  }
}

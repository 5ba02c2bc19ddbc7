/** Every outbox row says exactly what became of its publication: it is a function of the attempts that were
    committed for it, whichever workers made them. */
module OutboxLog {
  import opened Domain
  import opened Outbox
  import opened OutboxRuns

  /** The waiting times after one failure, two failures, and so on; five minutes from the ninth on. */
  const WAITS: seq<int> := [0, 2_000, 4_000, 8_000, 16_000, 32_000, 64_000, 128_000, 256_000]

  function Wait(k: nat): int {
    if k < |WAITS| then WAITS[k] else 300_000
  }

  lemma {:induction false} LargePower(k: nat)
    requires k >= 9
    ensures Pow2(k) >= 512
  {
    if k == 9 { SmallPowers(); } else { LargePower(k - 1); }
  }

  lemma SmallPowers()
    ensures Pow2(1) == 2 && Pow2(2) == 4 && Pow2(3) == 8 && Pow2(4) == 16 && Pow2(5) == 32
    ensures Pow2(6) == 64 && Pow2(7) == 128 && Pow2(8) == 256 && Pow2(9) == 512
  {
    assert Pow2(0) == 1;
    assert Pow2(1) == 2;
    assert Pow2(2) == 4;
    assert Pow2(3) == 8;
    assert Pow2(4) == 16;
    assert Pow2(5) == 32;
    assert Pow2(6) == 64;
    assert Pow2(7) == 128;
    assert Pow2(8) == 256;
  }

  lemma BackoffIsWait(k: nat)
    requires k >= 1
    ensures Backoff(k) == Wait(k)
  {
    SmallPowers();
    if k >= 9 { LargePower(k); }
  }

  function Failures(log: seq<Attempt>): nat {
    if log == [] then 0 else Failures(log[..|log| - 1]) + if log[|log| - 1].ok then 0 else 1
  }

  predicate Accepted(log: seq<Attempt>) {
    log != [] && log[|log| - 1].ok
  }

  /** Only the last attempt can have been accepted. The row counts the others, is PUBLISHED since the accepted
      one, is FAILED when the failures are as many as allowed, and waits after its last failure. */
  predicate Tells(row: Row, log: seq<Attempt>, max: nat) {
    && (forall i :: 0 <= i < |log| - 1 ==> !log[i].ok)
    && row.retryCount == Failures(log) <= |log|
    && row.status == (if Accepted(log) then PUBLISHED else if Failures(log) == Allowed(max) then FAILED else PENDING)
    && row.publishedAt == (if Accepted(log) then Some(log[|log| - 1].at) else None)
    && row.nextAttemptAt == (if Failures(log) == 0 then row.createdAt
                             else log[Failures(log) - 1].at + Wait(Failures(log)))
  }

  /** With a log of failures only, their number is its length. */
  lemma {:induction false} AllFailed(log: seq<Attempt>)
    requires forall i :: 0 <= i < |log| ==> !log[i].ok
    ensures Failures(log) == |log|
  {
    if log != [] { AllFailed(log[..|log| - 1]); }
  }

  lemma UpdatedTells(row: Row, log: seq<Attempt>, a: Attempt, max: nat)
    requires Tells(row, log, max) && row.status == PENDING && row.retryCount < Allowed(max)
    ensures Tells(Updated(row, a, max), log + [a], max)
  {
    AllFailed(log);
    var after := log + [a];
    assert after[..|after| - 1] == log;
    BackoffIsWait(row.retryCount + 1);
  }

  // ---------------------------------------------------------------------------------------------

  lemma {:induction false} CommittedOthers(log: map<RowId, seq<Attempt>>, done: seq<RowId>, attempts: seq<Attempt>)
    requires |done| == |attempts|
    ensures var after := Committed(log, done, attempts);
            && (forall id :: id in after <==> id in log || id in done)
            && (forall id :: id !in done ==> LogOf(after, id) == LogOf(log, id))
  {
    if done != [] {
      CommittedOthers(log, done[..|done| - 1], attempts[..|attempts| - 1]);
      assert done == done[..|done| - 1] + [done[|done| - 1]];
    }
  }

  lemma {:induction false} CommittedAt(log: map<RowId, seq<Attempt>>, done: seq<RowId>, attempts: seq<Attempt>, i: nat)
    requires |done| == |attempts| && DistinctIds(done) && i < |done|
    ensures LogOf(Committed(log, done, attempts), done[i]) == LogOf(log, done[i]) + [attempts[i]]
  {
    var n := |done| - 1;
    CommittedOthers(log, done[..n], attempts[..n]);
    if i < n {
      CommittedAt(log, done[..n], attempts[..n], i);
      assert done[..n][i] == done[i] && attempts[..n][i] == attempts[i];
    } else {
      assert done[n] !in done[..n];
    }
  }

  ghost predicate LogInv(s: State, max: nat) {
    && (forall id :: id in s.log ==> id in s.used)
    && (forall id :: id in s.rows ==> Tells(s.rows[id], LogOf(s.log, id), max))
  }

  lemma EnqueueTells(s: State, t: State, id: RowId, max: nat)
    requires LogInv(s, max) && Enqueue(s, t, id)
    ensures LogInv(t, max)
  {
  }

  lemma MaintainTells(s: State, t: State, max: nat)
    requires LogInv(s, max) && Maintain(s, t)
    ensures LogInv(t, max)
  {
  }

  /** The rows of a committed batch, one by one. */
  lemma BatchTells(x: Tx, rows: Table, log: map<RowId, seq<Attempt>>, max: nat, i: nat)
    requires IsBatch(x, rows, max) && i < |x.done|
    requires rows[x.done[i]].status == PENDING && rows[x.done[i]].retryCount < Allowed(max)
    requires Tells(rows[x.done[i]], LogOf(log, x.done[i]), max)
    ensures x.done[i] in x.buffer
    ensures Tells(x.buffer[x.done[i]], LogOf(Committed(log, x.done, x.attempts), x.done[i]), max)
  {
    CommittedAt(log, x.done, x.attempts, i);
    UpdatedTells(rows[x.done[i]], LogOf(log, x.done[i]), x.attempts[i], max);
  }

  lemma PendingIsAllowed(s: State, max: nat, w: WorkerId, id: RowId)
    requires Inv(s, max) && w in s.txs && id in s.txs[w].buffer
    ensures id in s.rows && s.rows[id].status == PENDING && s.rows[id].retryCount < Allowed(max)
  {
    assert GoodTx(s.txs[w], s, max) && Owns(s.txs[w], id);
    assert GoodRow(id, s.rows[id], max, s.clock, s.sent, s.firstTry);
  }

  lemma CommitTells(s: State, t: State, w: WorkerId, max: nat)
    requires Inv(s, max) && BatchInv(s, max) && LogInv(s, max) && Commit(s, t, w)
    ensures LogInv(t, max)
  {
    var x := s.txs[w];
    assert IsBatch(x, s.rows, max);
    CommittedOthers(s.log, x.done, x.attempts);
    forall id | id in t.log ensures id in t.used {
      if id in x.done { PendingIsAllowed(s, max, w, id); }
    }
    forall id | id in t.rows ensures Tells(t.rows[id], LogOf(t.log, id), max) {
      if id in x.done {
        PendingIsAllowed(s, max, w, id);
        var i :| 0 <= i < |x.done| && x.done[i] == id;
        BatchTells(x, s.rows, s.log, max, i);
      }
    }
  }

  lemma SameTells(s: State, t: State, max: nat)
    requires LogInv(s, max) && t.rows == s.rows && t.log == s.log && t.used == s.used
    ensures LogInv(t, max)
  {
  }

  lemma ClaimTells(s: State, t: State, w: WorkerId, batchSize: nat, claim: seq<RowId>, max: nat)
    requires LogInv(s, max) && Claim(s, t, w, batchSize, claim)
    ensures LogInv(t, max)
  {
    SameTells(s, t, max);
  }

  lemma TryTells(s: State, t: State, w: WorkerId, began: int, ok: bool, max: nat)
    requires LogInv(s, max) && Try(s, t, w, began, ok, max)
    ensures LogInv(t, max)
  {
    SameTells(s, t, max);
  }

  lemma NextTells(s: State, t: State, max: nat)
    requires Inv(s, max) && BatchInv(s, max) && LogInv(s, max) && Next(s, t, max)
    ensures LogInv(t, max)
  {
    if id :| Enqueue(s, t, id) {
      EnqueueTells(s, t, id, max);
    } else if w, batchSize, claim :| Claim(s, t, w, batchSize, claim) {
      ClaimTells(s, t, w, batchSize, claim, max);
    } else if w, began, ok :| Try(s, t, w, began, ok, max) {
      TryTells(s, t, w, began, ok, max);
    } else if w :| Commit(s, t, w) {
      CommitTells(s, t, w, max);
    } else if Maintain(s, t) {
      MaintainTells(s, t, max);
    } else {
      SameTells(s, t, max);
    }
  }

  ghost predicate TellsAlong(run: seq<State>, max: nat) {
    forall i, j :: 0 <= i && j == i + 1 && j < |run| && LogInv(run[i], max) ==> LogInv(run[j], max)
  }

  lemma StepTells(run: seq<State>, max: nat, i: nat)
    requires IsRun(run, max) && i + 1 < |run| && LogInv(run[i], max)
    ensures LogInv(run[i + 1], max)
  {
    RunKeeps(run, max, i);
    RunKeepsBatches(run, max, i);
    assert Next(run[i], run[i + 1], max);
    NextTells(run[i], run[i + 1], max);
  }

  lemma RunTellsAlong(run: seq<State>, max: nat)
    requires IsRun(run, max)
    ensures TellsAlong(run, max)
  {
    forall i, j | 0 <= i && j == i + 1 && j < |run| && LogInv(run[i], max) ensures LogInv(run[j], max) {
      StepTells(run, max, i);
    }
  }

  lemma {:induction false} TellsFar(run: seq<State>, max: nat, i: nat)
    requires TellsAlong(run, max) && i < |run| && LogInv(run[0], max)
    ensures LogInv(run[i], max)
  {
    if i > 0 { TellsFar(run, max, i - 1); }
  }

  /** In every state of every run each row tells the log of its committed attempts: retryCount is the number of
      failed ones, FAILED comes exactly with the last failure allowed, PUBLISHED with the accepted one and its
      instant, and the next attempt is due the waiting time after the last failure. */
  lemma RowsTellTheirAttempts(run: seq<State>, max: nat, i: nat, id: RowId)
    requires IsRun(run, max) && i < |run| && id in run[i].rows
    ensures Tells(run[i].rows[id], LogOf(run[i].log, id), max)
  {
    RunTellsAlong(run, max);
    TellsFar(run, max, i);
  }

  // ---------------------------------------------------------------------------------------------

  /** The clean-up removes a row exactly when it was published more than seven days ago. */
  lemma CleanUpExactly(s: State, t: State, id: RowId)
    requires Maintain(s, t) && id in s.rows
    ensures id !in t.rows <==>
              && s.rows[id].status == PUBLISHED && s.rows[id].publishedAt.Some?
              && s.clock - s.rows[id].publishedAt.value > 7 * 24 * 60 * 60 * 1000
    ensures id in t.rows ==> t.rows[id] == s.rows[id]
  {
  }
}

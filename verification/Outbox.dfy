/** The transactional outbox: rows, several workers that claim, publish and update them inside long
    transactions that may roll back, and the periodic clean-up. Times are milliseconds of one clock. */
module Outbox {
  import opened Domain

  datatype Status = PENDING | PUBLISHED | FAILED

  datatype Row = Row(
    status: Status,
    retryCount: nat,
    nextAttemptAt: int,
    publishedAt: Option<int>,
    createdAt: int)

  type RowId = nat
  type Table = map<RowId, Row>

  const MAX_BACKOFF_MS: int := 300_000
  const RETENTION_MS: int := 7 * 86_400_000
  const DEFAULT_MAX_RETRIES: nat := 8

  function Pow2(n: nat): nat {
    if n == 0 then 1 else 2 * Pow2(n - 1)
  }

  /** Math.min(2 ** retryCount * 1000, 300_000). */
  function Backoff(retryCount: nat): int {
    var ms := Pow2(retryCount) * 1000;
    if ms < MAX_BACKOFF_MS then ms else MAX_BACKOFF_MS
  }

  /** The outcome of one publication attempt: the clock after it, and whether the broker took the message. */
  datatype Attempt = Attempt(at: int, ok: bool)

  function Updated(row: Row, a: Attempt, maxRetries: nat): Row {
    if a.ok then row.(status := PUBLISHED, publishedAt := Some(a.at))
    else
      row.(retryCount := row.retryCount + 1,
           status := if row.retryCount + 1 >= maxRetries then FAILED else PENDING,
           nextAttemptAt := a.at + Backoff(row.retryCount + 1))
  }

  predicate Due(row: Row, now: int) {
    row.status == PENDING && row.nextAttemptAt <= now
  }

  /** (createdAt, id) order. */
  predicate Earlier(t: Table, x: RowId, y: RowId)
    requires x in t && y in t
  {
    t[x].createdAt < t[y].createdAt || (t[x].createdAt == t[y].createdAt && x < y)
  }

  /** What the claiming query may return: the first due rows that no other worker has locked. */
  ghost predicate IsClaim(t: Table, locked: set<RowId>, now: int, limit: nat, claim: seq<RowId>) {
    && |claim| <= limit
    && (forall i :: 0 <= i < |claim| ==> claim[i] in t && claim[i] !in locked && Due(t[claim[i]], now))
    && (forall i, j :: 0 <= i < j < |claim| ==> Earlier(t, claim[i], claim[j]))
    && (forall r :: r in t && r !in locked && Due(t[r], now) && r !in claim ==>
          |claim| == limit && forall i :: 0 <= i < |claim| ==> Earlier(t, claim[i], r))
  }

  predicate DistinctIds(s: seq<RowId>) {
    forall i, j :: 0 <= i < j < |s| ==> s[i] != s[j]
  }

  /** The table after a claimed batch has been worked off. */
  function AfterBatch(t: Table, claim: seq<RowId>, attempts: seq<Attempt>, maxRetries: nat): Table
    requires |claim| == |attempts|
  {
    if claim == [] then t
    else
      var n := |claim| - 1;
      var before := AfterBatch(t, claim[..n], attempts[..n], maxRetries);
      if claim[n] in before then before[claim[n] := Updated(before[claim[n]], attempts[n], maxRetries)] else before
  }

  function Successes(attempts: seq<Attempt>): nat {
    if attempts == [] then 0
    else Successes(attempts[..|attempts| - 1]) + if attempts[|attempts| - 1].ok then 1 else 0
  }

  // ---------------------------------------------------------------------------------------------

  class OutboxDb {
    var rows: Table
    const maxRetries: nat

    constructor (maxRetries: nat)
      ensures rows == map[] && this.maxRetries == maxRetries
    {
      this.maxRetries := maxRetries;
      rows := map[];
    }

    /** processOnce: `claim` is the query's answer, which skips the rows other workers have `locked`, and
        `attempts` the broker's, one per claimed row. The number returned is the number of rows that became
        PUBLISHED. */
    method ProcessOnce(batchSize: int, ghost now: int, ghost locked: set<RowId>, claim: seq<RowId>,
                       attempts: seq<Attempt>)
      returns (r: Result<nat>)
      requires |claim| == |attempts|
      requires 1 <= batchSize <= 100 ==> IsClaim(rows, locked, now, batchSize, claim)
      modifies this`rows
      ensures !(1 <= batchSize <= 100) ==> r == Err(RangeError) && rows == old(rows)
      ensures 1 <= batchSize <= 100 ==>
                && rows == AfterBatch(old(rows), claim, attempts, maxRetries)
                && r == Ok(|NewlyPublished(old(rows), rows)|)
    {
      if batchSize < 1 || batchSize > 100 {
        return Err(RangeError);
      }
      ClaimIsDistinct(rows, locked, now, batchSize, claim);
      var published: nat := 0;
      for n := 0 to |claim|
        invariant rows == AfterBatch(old(rows), claim[..n], attempts[..n], maxRetries)
        invariant rows.Keys == old(rows).Keys
        invariant published == Successes(attempts[..n])
      {
        assert claim[..n + 1][..n] == claim[..n] && attempts[..n + 1][..n] == attempts[..n];
        var id, a := claim[n], attempts[n];
        var row := rows[id];
        if !a.ok {
          var retryCount := row.retryCount + 1;
          rows := rows[id := row.(retryCount := retryCount,
                                  status := if retryCount >= maxRetries then FAILED else PENDING,
                                  nextAttemptAt := a.at + Backoff(retryCount))];
        } else {
          rows := rows[id := row.(status := PUBLISHED, publishedAt := Some(a.at))];
          published := published + 1;
        }
      }
      assert claim[..|claim|] == claim && attempts[..|attempts|] == attempts;
      BatchPublishes(old(rows), claim, attempts, maxRetries);
      return Ok(published);
    }

    /** maintain: delete what was published more than seven days ago. */
    method Maintain(now: int)
      modifies this`rows
      ensures rows == map x | x in old(rows) && !Expired(old(rows)[x], now) :: old(rows)[x]
      ensures forall x :: x in old(rows) && x !in rows <==>
                && x in old(rows) && old(rows)[x].status == PUBLISHED && old(rows)[x].publishedAt.Some?
                && now - old(rows)[x].publishedAt.value > 7 * 24 * 60 * 60 * 1000
    {
      rows := map x | x in rows && !Expired(rows[x], now) :: rows[x];
    }
  }

  predicate Expired(row: Row, now: int) {
    row.status == PUBLISHED && row.publishedAt.Some? && row.publishedAt.value < now - RETENTION_MS
  }

  ghost function NewlyPublished(a: Table, b: Table): set<RowId> {
    set x | x in b && x in a && b[x].status == PUBLISHED && a[x].status != PUBLISHED
  }

  /** Working off a batch touches each claimed row once, and publishes exactly the successful ones. */
  lemma {:induction false} BatchEffect(t: Table, claim: seq<RowId>, attempts: seq<Attempt>, maxRetries: nat)
    requires |claim| == |attempts| && DistinctIds(claim) && forall i :: 0 <= i < |claim| ==> claim[i] in t
    ensures var after := AfterBatch(t, claim, attempts, maxRetries);
            && after.Keys == t.Keys
            && (forall x :: x in t && x !in claim ==> after[x] == t[x])
            && (forall i :: 0 <= i < |claim| ==> after[claim[i]] == Updated(t[claim[i]], attempts[i], maxRetries))
  {
    if claim != [] {
      var n := |claim| - 1;
      var before := AfterBatch(t, claim[..n], attempts[..n], maxRetries);
      var after := AfterBatch(t, claim, attempts, maxRetries);
      BatchEffect(t, claim[..n], attempts[..n], maxRetries);
      assert claim[n] !in claim[..n];
      assert after == before[claim[n] := Updated(t[claim[n]], attempts[n], maxRetries)];
      forall i | 0 <= i < |claim| ensures after[claim[i]] == Updated(t[claim[i]], attempts[i], maxRetries) {
        if i < n { assert claim[..n][i] == claim[i] && attempts[..n][i] == attempts[i]; }
      }
    }
  }

  lemma {:induction false} BatchPublishes(t: Table, claim: seq<RowId>, attempts: seq<Attempt>, maxRetries: nat)
    requires |claim| == |attempts| && DistinctIds(claim)
    requires forall i :: 0 <= i < |claim| ==> claim[i] in t && t[claim[i]].status == PENDING
    ensures |NewlyPublished(t, AfterBatch(t, claim, attempts, maxRetries))| == Successes(attempts)
  {
    var after := AfterBatch(t, claim, attempts, maxRetries);
    if claim == [] {
      assert NewlyPublished(t, after) == {};
    } else {
      var n := |claim| - 1;
      var before := AfterBatch(t, claim[..n], attempts[..n], maxRetries);
      BatchPublishes(t, claim[..n], attempts[..n], maxRetries);
      BatchEffect(t, claim[..n], attempts[..n], maxRetries);
      assert claim[n] !in claim[..n];
      assert after == before[claim[n] := Updated(t[claim[n]], attempts[n], maxRetries)];
      OneMorePublished(t, before, claim[n], attempts[n], maxRetries);
    }
  }

  lemma OneMorePublished(t: Table, before: Table, id: RowId, a: Attempt, maxRetries: nat)
    requires id in t && id in before && before[id] == t[id] && t[id].status == PENDING
    ensures var after := before[id := Updated(t[id], a, maxRetries)];
            |NewlyPublished(t, after)| == |NewlyPublished(t, before)| + if a.ok then 1 else 0
  {
    var after := before[id := Updated(t[id], a, maxRetries)];
    assert id !in NewlyPublished(t, before);
    if a.ok {
      assert NewlyPublished(t, after) == NewlyPublished(t, before) + {id};
    } else {
      assert NewlyPublished(t, after) == NewlyPublished(t, before);
    }
  }

  lemma ClaimIsDistinct(t: Table, locked: set<RowId>, now: int, limit: nat, claim: seq<RowId>)
    requires IsClaim(t, locked, now, limit, claim)
    ensures DistinctIds(claim)
  {
  }
}

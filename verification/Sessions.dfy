/** Refresh-token rotation: the RefreshToken table, the transactions of authService on it, and any number
    of callers that present tokens while others log in and out. */
module Sessions {
  import opened Domain
  import opened AccessTokens

  /** A token is known by its hash, treated as injective. */
  type Hash = nat

  datatype Token = Token(user: UserId, revoked: bool, expiresAt: int)

  type Table = map<Hash, Token>

  /** refreshToken.create: hashes are unique. */
  function Create(t: Table, hash: Hash, user: UserId, expiresAt: int): Result<Table> {
    if hash in t then Err(UniqueViolation) else Ok(t[hash := Token(user, false, expiresAt)])
  }

  /** updateMany where userId, revoked := true. */
  function RevokeAll(t: Table, user: UserId): Table {
    map h | h in t :: if t[h].user == user then t[h].(revoked := true) else t[h]
  }

  datatype Outcome = Exchanged | Reused | Failed(error: Error)

  /** The rest of the refresh transaction once `seen` was read under the user's advisory lock. Reuse is
      committed; any failure rolls back. */
  function Settle(t: Table, hash: Hash, seen: Token, next: Hash, expiresAt: int, now: int): (Table, Outcome) {
    if seen.revoked then (RevokeAll(t, seen.user), Reused)
    else if seen.expiresAt <= now then (t, Failed(UnauthenticatedError))
    else if hash !in t || t[hash].revoked then (t, Failed(UnauthenticatedError))
    else
      var made := Create(t[hash := t[hash].(revoked := true)], next, seen.user, expiresAt);
      if made.Err? then (t, Failed(made.error)) else (made.value, Exchanged)
  }

  // ---------------------------------------------------------------------------------------------

  class AuthService {
    var tokens: Table
    var redis: Redis

    constructor ()
      ensures tokens == map[] && redis == map[]
    {
      tokens, redis := map[], map[];
    }

    /** `hash` is the hash of the new refresh token; `now` is when the access token's payload was built. */
    method GenerateTokens(user: UserId, role: Role, hash: Hash, expiresAt: int, now: nat) returns (r: Result<Claims>)
      modifies this`tokens
      ensures var made := Create(old(tokens), hash, user, expiresAt);
              if made.Ok? then r == Ok(Issue(user, role, now)) && tokens == made.value
              else r == Err(made.error) && tokens == old(tokens)
    {
      if hash in tokens {
        return Err(UniqueViolation);
      }
      tokens := tokens[hash := Token(user, false, expiresAt)];
      return Ok(Issue(user, role, now));
    }

    /** revokeUserAccess: a failure of Redis is swallowed. */
    method RevokeUserAccess(user: UserId, now: nat, redisUp: bool)
      modifies this`redis
      ensures redis == if redisUp then SetEx(old(redis), user, now, now) else old(redis)
    {
      if redisUp {
        redis := redis[user := Entry(now, now + KEY_LIFE_MS)];
      }
    }

    /** refreshTokens when nothing runs inside its transaction. */
    method RefreshTokens(hash: Hash, role: Role, next: Hash, expiresAt: int, now: nat, redisUp: bool)
      returns (r: Result<Claims>)
      modifies this
      ensures hash !in old(tokens) ==>
                r == Err(UnauthenticatedError) && tokens == old(tokens) && redis == old(redis)
      ensures hash in old(tokens) ==>
                var seen := old(tokens)[hash];
                var (after, outcome) := Settle(old(tokens), hash, seen, next, expiresAt, now);
                && tokens == after
                && redis == (if outcome.Reused? && redisUp then SetEx(old(redis), seen.user, now, now) else old(redis))
                && r == match outcome
                        case Exchanged => Ok(Issue(seen.user, role, now))
                        case Reused => Err(UnauthenticatedError)
                        case Failed(e) => Err(e)
    {
      if hash !in tokens {
        return Err(UnauthenticatedError);
      }
      var record := tokens[hash];
      if record.revoked {
        tokens := map h | h in tokens ::
          if tokens[h].user == record.user then tokens[h].(revoked := true) else tokens[h];
        RevokeUserAccess(record.user, now, redisUp);
        return Err(UnauthenticatedError);
      }
      if record.expiresAt <= now {
        return Err(UnauthenticatedError);
      }
      var snapshot := tokens;
      tokens := tokens[hash := record.(revoked := true)];
      r := GenerateTokens(record.user, role, next, expiresAt, now);
      if r.Err? {
        tokens := snapshot;
      }
    }

    method LogoutUser(user: Option<UserId>, now: nat, redisUp: bool) returns (r: Result<()>)
      modifies this
      ensures user.None? ==> r == Err(UnauthenticatedError) && tokens == old(tokens) && redis == old(redis)
      ensures user.Some? ==>
                && r == Ok(())
                && tokens == RevokeAll(old(tokens), user.value)
                && redis == if redisUp then SetEx(old(redis), user.value, now, now) else old(redis)
    {
      if user.None? {
        return Err(UnauthenticatedError);
      }
      tokens := map h | h in tokens :: if tokens[h].user == user.value then tokens[h].(revoked := true) else tokens[h];
      RevokeUserAccess(user.value, now, redisUp);
      return Ok(());
    }
  }

  // ---------------------------------------------------------------------------------------------
  // Runs of many callers

  /** A refresh: its token was looked up; the user's lock is held and the record was read; or it ended. */
  datatype Refresh =
    | Looked(hash: Hash, user: UserId)
    | Holding(hash: Hash, seen: Token)
    | Done(hash: Hash, outcome: Outcome)

  type CallerId = nat

  datatype State = State(
    tokens: Table,
    calls: map<CallerId, Refresh>,
    locks: map<UserId, CallerId>,
    sessions: map<UserId, nat>,     // history: logins and registrations since the user's last revoke-all
    exchanges: multiset<Hash>)    // history: successful exchanges of each token

  function Init(): State {
    State(map[], map[], map[], map[], multiset{})
  }

  function SessionsOf(s: State, u: UserId): nat {
    if u in s.sessions then s.sessions[u] else 0
  }

  /** registerUser or loginUser stores a token; neither takes the lock. */
  predicate LogIn(s: State, t: State, u: UserId, next: Hash, expiresAt: int) {
    var made := Create(s.tokens, next, u, expiresAt);
    made.Ok? && t == s.(tokens := made.value, sessions := s.sessions[u := SessionsOf(s, u) + 1])
  }

  predicate LogOut(s: State, t: State, u: UserId) {
    u !in s.locks && t == s.(tokens := RevokeAll(s.tokens, u), sessions := s.sessions[u := 0])
  }

  predicate Present(s: State, t: State, c: CallerId, hash: Hash) {
    c !in s.calls && hash in s.tokens && t == s.(calls := s.calls[c := Looked(hash, s.tokens[hash].user)])
  }

  predicate Lock(s: State, t: State, c: CallerId) {
    && c in s.calls && s.calls[c].Looked?
    && var (hash, user) := (s.calls[c].hash, s.calls[c].user);
    && user !in s.locks && hash in s.tokens
    && t == s.(calls := s.calls[c := Holding(hash, s.tokens[hash])], locks := s.locks[user := c])
  }

  /** The transaction commits, or fails inside and rolls back; the lock is released either way. */
  predicate Commit(s: State, t: State, c: CallerId, next: Hash, expiresAt: int, now: int) {
    && c in s.calls && s.calls[c].Holding?
    && var (hash, seen) := (s.calls[c].hash, s.calls[c].seen);
    var (tokens, outcome) := Settle(s.tokens, hash, seen, next, expiresAt, now);
    t == s.(
      tokens := tokens,
      calls := s.calls[c := Done(hash, outcome)],
      locks := s.locks - {seen.user},
      sessions := if outcome.Reused? then s.sessions[seen.user := 0] else s.sessions,
      exchanges := if outcome.Exchanged? then s.exchanges + multiset{hash} else s.exchanges)
  }

  predicate Abort(s: State, t: State, c: CallerId) {
    && c in s.calls && s.calls[c].Holding?
    && t == s.(calls := s.calls[c := Done(s.calls[c].hash, Failed(DependencyUnavailable))],
               locks := s.locks - {s.calls[c].seen.user})
  }

  ghost predicate Next(s: State, t: State) {
    || (exists u, next, expiresAt :: LogIn(s, t, u, next, expiresAt))
    || (exists u :: LogOut(s, t, u))
    || (exists c, hash :: Present(s, t, c, hash))
    || (exists c :: Lock(s, t, c))
    || (exists c, next, expiresAt, now :: Commit(s, t, c, next, expiresAt, now))
    || (exists c :: Abort(s, t, c))
  }

  ghost predicate IsRun(run: seq<State>) {
    |run| >= 1 && run[0] == Init() && forall i :: 0 <= i < |run| - 1 ==> Next(run[i], run[i + 1])
  }

  // ---------------------------------------------------------------------------------------------
  // Invariants

  /** The tokens of `u` that can still be exchanged, expired or not. */
  function Live(t: Table, u: UserId): set<Hash> {
    set h | h in t && t[h].user == u && !t[h].revoked
  }

  /** What a caller read under the lock is still so. */
  ghost predicate ReadsAreCurrent(tokens: Table, calls: map<CallerId, Refresh>, locks: map<UserId, CallerId>) {
    forall c :: c in calls && calls[c].Holding? ==>
      && calls[c].seen.user in locks && locks[calls[c].seen.user] == c
      && calls[c].hash in tokens && tokens[calls[c].hash] == calls[c].seen
  }

  ghost predicate LookupsAreTrue(tokens: Table, calls: map<CallerId, Refresh>) {
    forall c :: c in calls && calls[c].Looked? ==>
      calls[c].hash in tokens && tokens[calls[c].hash].user == calls[c].user
  }

  ghost predicate OnePerSession(s: State) {
    forall u: UserId :: |Live(s.tokens, u)| == SessionsOf(s, u)
  }

  ghost predicate ExchangesAreSpent(tokens: Table, exchanges: multiset<Hash>) {
    forall h :: exchanges[h] <= 1 && (exchanges[h] == 1 ==> h in tokens && tokens[h].revoked)
  }

  ghost predicate Inv(s: State) {
    && ReadsAreCurrent(s.tokens, s.calls, s.locks)
    && LookupsAreTrue(s.tokens, s.calls)
    && OnePerSession(s)
    && ExchangesAreSpent(s.tokens, s.exchanges)
  }

  /** Tokens stay, keep their user and their expiry, and never become unrevoked. */
  ghost predicate Ages(a: Table, b: Table) {
    forall h :: h in a ==>
      h in b && b[h].user == a[h].user && b[h].expiresAt == a[h].expiresAt && (a[h].revoked ==> b[h].revoked)
  }

  lemma LiveAfterCreate(t: Table, hash: Hash, user: UserId, expiresAt: int, u: UserId)
    requires hash !in t
    ensures |Live(t[hash := Token(user, false, expiresAt)], u)| == |Live(t, u)| + if u == user then 1 else 0
  {
    var after := t[hash := Token(user, false, expiresAt)];
    if u == user {
      assert Live(after, u) == Live(t, u) + {hash};
    } else {
      assert Live(after, u) == Live(t, u);
    }
  }

  lemma LiveAfterRevoke(t: Table, hash: Hash, u: UserId)
    requires hash in t && !t[hash].revoked
    ensures |Live(t[hash := t[hash].(revoked := true)], u)| == |Live(t, u)| - if u == t[hash].user then 1 else 0
  {
    var after := t[hash := t[hash].(revoked := true)];
    if u == t[hash].user {
      assert Live(after, u) == Live(t, u) - {hash};
    } else {
      assert Live(after, u) == Live(t, u);
    }
  }

  lemma LiveAfterRevokeAll(t: Table, user: UserId, u: UserId)
    ensures Live(RevokeAll(t, user), u) == if u == user then {} else Live(t, u)
  {
  }

  /** The table changes in one of four ways, each seen by the invariants alike. */
  lemma SettleEffect(t: Table, hash: Hash, next: Hash, expiresAt: int, now: int)
    requires hash in t
    ensures var seen := t[hash];
            var (after, outcome) := Settle(t, hash, seen, next, expiresAt, now);
            && Ages(t, after)
            && (outcome.Reused? <==> seen.revoked)
            && (outcome.Exchanged? ==> !seen.revoked && after[hash].revoked)
            && (outcome.Failed? ==> after == t)
            && (outcome.Reused? ==> after == RevokeAll(t, seen.user))
            && (forall h :: h in t && t[h].user != seen.user ==> after[h] == t[h])
  {
  }

  /** Settling a token that was read under the lock: sessions are kept by an exchange and ended by reuse. */
  lemma SettleLive(t: Table, hash: Hash, next: Hash, expiresAt: int, now: int, u: UserId)
    requires hash in t
    ensures var (after, outcome) := Settle(t, hash, t[hash], next, expiresAt, now);
            |Live(after, u)| == if outcome.Reused? && u == t[hash].user then 0 else |Live(t, u)|
  {
    LiveAfterRevokeAll(t, t[hash].user, u);
    if !t[hash].revoked {
      LiveAfterRevoke(t, hash, u);
      var spent := t[hash := t[hash].(revoked := true)];
      if next !in spent {
        LiveAfterCreate(spent, next, t[hash].user, expiresAt, u);
      }
    }
  }

  // ---------------------------------------------------------------------------------------------
  // Every transition keeps the invariants

  lemma LogInKeeps(s: State, t: State, u: UserId, next: Hash, expiresAt: int)
    requires Inv(s) && LogIn(s, t, u, next, expiresAt)
    ensures Inv(t) && Ages(s.tokens, t.tokens)
  {
    forall v: UserId ensures |Live(t.tokens, v)| == SessionsOf(t, v) {
      LiveAfterCreate(s.tokens, next, u, expiresAt, v);
    }
  }

  lemma LogOutKeeps(s: State, t: State, u: UserId)
    requires Inv(s) && LogOut(s, t, u)
    ensures Inv(t) && Ages(s.tokens, t.tokens)
  {
    forall v: UserId ensures |Live(t.tokens, v)| == SessionsOf(t, v) {
      LiveAfterRevokeAll(s.tokens, u, v);
    }
  }

  lemma PresentKeeps(s: State, t: State, c: CallerId, hash: Hash)
    requires Inv(s) && Present(s, t, c, hash)
    ensures Inv(t) && Ages(s.tokens, t.tokens)
  {
    assert forall v: UserId :: SessionsOf(t, v) == SessionsOf(s, v);
  }

  lemma LockKeeps(s: State, t: State, c: CallerId)
    requires Inv(s) && Lock(s, t, c)
    ensures Inv(t) && Ages(s.tokens, t.tokens)
  {
    assert forall v: UserId :: SessionsOf(t, v) == SessionsOf(s, v);
  }

  lemma AbortKeeps(s: State, t: State, c: CallerId)
    requires Inv(s) && Abort(s, t, c)
    ensures Inv(t) && Ages(s.tokens, t.tokens)
  {
    assert forall v: UserId :: SessionsOf(t, v) == SessionsOf(s, v);
  }

  lemma CommitKeeps(s: State, t: State, c: CallerId, next: Hash, expiresAt: int, now: int)
    requires Inv(s) && Commit(s, t, c, next, expiresAt, now)
    ensures Inv(t) && Ages(s.tokens, t.tokens)
  {
    var hash := s.calls[c].hash;
    SettleEffect(s.tokens, hash, next, expiresAt, now);
    forall v: UserId ensures |Live(t.tokens, v)| == SessionsOf(t, v) {
      SettleLive(s.tokens, hash, next, expiresAt, now, v);
    }
  }

  lemma InvNext(s: State, t: State)
    requires Inv(s) && Next(s, t)
    ensures Inv(t) && Ages(s.tokens, t.tokens)
  {
    if u, next, expiresAt :| LogIn(s, t, u, next, expiresAt) {
      LogInKeeps(s, t, u, next, expiresAt);
    } else if u :| LogOut(s, t, u) {
      LogOutKeeps(s, t, u);
    } else if c, hash :| Present(s, t, c, hash) {
      PresentKeeps(s, t, c, hash);
    } else if c :| Lock(s, t, c) {
      LockKeeps(s, t, c);
    } else if c, next, expiresAt, now :| Commit(s, t, c, next, expiresAt, now) {
      CommitKeeps(s, t, c, next, expiresAt, now);
    } else if c :| Abort(s, t, c) {
      AbortKeeps(s, t, c);
    }
  }

  lemma {:induction false} InvRun(run: seq<State>, i: nat)
    requires IsRun(run) && i < |run|
    ensures Inv(run[i])
  {
    if i > 0 {
      InvRun(run, i - 1);
      assert Next(run[i - 1], run[i - 1 + 1]);
      InvNext(run[i - 1], run[i]);
    } else {
      assert forall u: UserId :: Live(Init().tokens, u) == {};
    }
  }

  lemma RunAges(run: seq<State>, i: nat)
    requires IsRun(run) && i + 1 < |run|
    ensures Ages(run[i].tokens, run[i + 1].tokens)
  {
    InvRun(run, i);
    assert Next(run[i], run[i + 1]);
    InvNext(run[i], run[i + 1]);
  }

  // ---------------------------------------------------------------------------------------------
  // What holds of every run

  /** A user has as many exchangeable tokens as logins and registrations since the last revoke-all, however
      many exchanges, reuses and failures there were. */
  lemma OneLiveTokenPerSession(run: seq<State>, i: nat, u: UserId)
    requires IsRun(run) && i < |run|
    ensures |Live(run[i].tokens, u)| == SessionsOf(run[i], u)
  {
    InvRun(run, i);
  }

  lemma ExchangedAtMostOnce(run: seq<State>, i: nat, hash: Hash)
    requires IsRun(run) && i < |run|
    ensures run[i].exchanges[hash] <= 1
  {
    InvRun(run, i);
  }

  ghost predicate AgesAlong(run: seq<State>) {
    forall i, j :: 0 <= i && j == i + 1 && j < |run| ==> Ages(run[i].tokens, run[j].tokens)
  }

  lemma RunAgesAlong(run: seq<State>)
    requires IsRun(run)
    ensures AgesAlong(run)
  {
    forall i, j | 0 <= i && j == i + 1 && j < |run| ensures Ages(run[i].tokens, run[j].tokens) {
      RunAges(run, i);
    }
  }

  lemma {:induction false} AgesFar(run: seq<State>, i: nat, j: nat)
    requires AgesAlong(run) && i <= j < |run|
    ensures Ages(run[i].tokens, run[j].tokens)
    decreases j - i
  {
    if i < j {
      AgesFar(run, i, j - 1);
      assert Ages(run[j - 1].tokens, run[j].tokens);
    }
  }

  lemma RevokedStaysRevoked(run: seq<State>, i: nat, j: nat, hash: Hash)
    requires IsRun(run) && i <= j < |run|
    requires hash in run[i].tokens && run[i].tokens[hash].revoked
    ensures hash in run[j].tokens && run[j].tokens[hash].revoked
    ensures run[j].tokens[hash].user == run[i].tokens[hash].user
  {
    RunAgesAlong(run);
    AgesFar(run, i, j);
  }

  /** From the moment a token was exchanged or revoked, a call that presents it can only be detected as
      reuse, which leaves its user without a session, or fail without effect. */
  lemma SpentTokenEndsEverySession(run: seq<State>, i: nat, j: nat, c: CallerId,
                                   next: Hash, expiresAt: int, now: int)
    requires IsRun(run) && i <= j && j + 1 < |run|
    requires c in run[j].calls && run[j].calls[c].Holding?
    requires var hash := run[j].calls[c].hash;
             run[i].exchanges[hash] > 0 || (hash in run[i].tokens && run[i].tokens[hash].revoked)
    requires Commit(run[j], run[j + 1], c, next, expiresAt, now)
    ensures run[j + 1].calls[c] == Done(run[j].calls[c].hash, Reused)
    ensures Live(run[j + 1].tokens, run[j].calls[c].seen.user) == {}
    ensures SessionsOf(run[j + 1], run[j].calls[c].seen.user) == 0
  {
    var hash := run[j].calls[c].hash;
    InvRun(run, i);
    InvRun(run, j);
    assert ExchangesAreSpent(run[i].tokens, run[i].exchanges);
    RevokedStaysRevoked(run, i, j, hash);
    assert ReadsAreCurrent(run[j].tokens, run[j].calls, run[j].locks);
    LiveAfterRevokeAll(run[j].tokens, run[j].calls[c].seen.user, run[j].calls[c].seen.user);
  }

  /** Under the lock the second, conditional write never misses: a commit exchanges the token exactly when
      the record read was unrevoked and unexpired, unless the new hash collides. */
  lemma CommitsExactly(run: seq<State>, i: nat, c: CallerId, next: Hash, expiresAt: int, now: int)
    requires IsRun(run) && i + 1 < |run|
    requires c in run[i].calls && run[i].calls[c].Holding? && next !in run[i].tokens
    requires Commit(run[i], run[i + 1], c, next, expiresAt, now)
    ensures run[i + 1].calls[c].outcome.Exchanged?
       <==> !run[i].calls[c].seen.revoked && now < run[i].calls[c].seen.expiresAt
  {
    InvRun(run, i);
    assert ReadsAreCurrent(run[i].tokens, run[i].calls, run[i].locks);
  }

  /** A login stores one new token, unrevoked, of that user and with that expiry, and changes no other. */
  lemma LogInStores(s: State, t: State, u: UserId, next: Hash, expiresAt: int)
    requires LogIn(s, t, u, next, expiresAt)
    ensures next !in s.tokens && t.tokens.Keys == s.tokens.Keys + {next}
    ensures t.tokens[next].user == u && !t.tokens[next].revoked && t.tokens[next].expiresAt == expiresAt
    ensures forall h :: h in s.tokens ==> t.tokens[h] == s.tokens[h]
  {
  }

  /** An exchange stores one new token, unrevoked, of the same user and with the new expiry, revokes the
      exchanged one, and changes no other. */
  lemma ExchangeStores(s: State, t: State, c: CallerId, next: Hash, expiresAt: int, now: int)
    requires Inv(s) && Commit(s, t, c, next, expiresAt, now) && t.calls[c].outcome.Exchanged?
    ensures var hash := s.calls[c].hash;
            && hash in s.tokens && next !in s.tokens && t.tokens.Keys == s.tokens.Keys + {next}
            && t.tokens[next].user == s.tokens[hash].user
            && !t.tokens[next].revoked && t.tokens[next].expiresAt == expiresAt
            && t.tokens[hash].revoked
            && forall h :: h in s.tokens && h != hash ==> t.tokens[h] == s.tokens[h]
  {
  }

  /** A token stored by a login is exchanged, by any later commit that presents it, exactly while it is
      unrevoked and the expiry stored with it lies ahead. */
  lemma TokenLivesUntilExpiry(run: seq<State>, i: nat, u: UserId, hash: Hash, expiresAt: int,
                              j: nat, c: CallerId, next: Hash, later: int, now: int)
    requires IsRun(run) && i < j && j + 1 < |run| && LogIn(run[i], run[i + 1], u, hash, expiresAt)
    requires c in run[j].calls && run[j].calls[c].Holding? && run[j].calls[c].hash == hash
    requires next !in run[j].tokens && Commit(run[j], run[j + 1], c, next, later, now)
    ensures hash in run[j].tokens
    ensures run[j + 1].calls[c].outcome.Exchanged? <==> !run[j].tokens[hash].revoked && now < expiresAt
  {
    LogInStores(run[i], run[i + 1], u, hash, expiresAt);
    RunAgesAlong(run);
    AgesFar(run, i + 1, j);
    CommitsExactly(run, j, c, next, later, now);
    HeldIsCurrent(run, j, c);
  }

  lemma HeldIsCurrent(run: seq<State>, j: nat, c: CallerId)
    requires IsRun(run) && j < |run| && c in run[j].calls && run[j].calls[c].Holding?
    ensures run[j].calls[c].hash in run[j].tokens
    ensures run[j].tokens[run[j].calls[c].hash] == run[j].calls[c].seen
  {
    InvRun(run, j);
  }
}

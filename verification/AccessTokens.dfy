/** Access tokens and the revocation cutoff: a cutoff is a Redis key that lives as long as an access token
    does, and the gateway compares it with the instant at which a token was issued. Times are milliseconds
    of one clock; a token's `exp` claim counts whole seconds (section 4.1.4 of RFC 7519). */
module AccessTokens {
  import opened Domain

  const TOKEN_LIFE_S: nat := 15 * 60
  const KEY_LIFE_MS: nat := 900 * 1000

  datatype Role = USER | ADMIN

  datatype Claims = Claims(user: UserId, role: Role, issuedAt: nat, exp: nat)

  /** The signed payload: `iat` is the clock in whole seconds, and `exp` lies fifteen minutes after it. */
  function Issue(user: UserId, role: Role, now: nat): Claims {
    Claims(user, role, now, now / 1000 + TOKEN_LIFE_S)
  }

  predicate Expired(c: Claims, now: nat) {
    now / 1000 >= c.exp
  }

  // ---------------------------------------------------------------------------------------------
  // Redis

  datatype Entry = Entry(cutoff: nat, until: nat)

  type Redis = map<UserId, Entry>

  /** SETEX, reaching the server at `at`. */
  function SetEx(r: Redis, user: UserId, cutoff: nat, at: nat): Redis {
    r[user := Entry(cutoff, at + KEY_LIFE_MS)]
  }

  function Get(r: Redis, user: UserId, now: nat): Option<nat> {
    if user in r && now < r[user].until then Some(r[user].cutoff) else None
  }

  // ---------------------------------------------------------------------------------------------
  // The gateway

  /** `token` is None when the signature, the algorithm, the issuer, the audience or a claim is wrong;
      `read` is None when Redis failed. */
  function Verify(token: Option<Claims>, read: Option<Option<nat>>, now: nat): Result<(UserId, Role)> {
    if token.None? || Expired(token.value, now) then Err(UnauthenticatedError)
    else
      var c := token.value;
      if read.None? && c.role == ADMIN then Err(DependencyUnavailable)
      else if read.Some? && read.value.Some? && c.issuedAt <= read.value.value then Err(UnauthenticatedError)
      else Ok((c.user, c.role))
  }

  /** The token's last whole second is over. */
  predicate Over(issuedAt: nat, now: nat) {
    now / 1000 >= issuedAt / 1000 + 15 * 60
  }

  /** What the gateway answers about the token that was issued to `user` with `role`, for every outcome of the
      read: it accepts only as that user and in that role, for exactly fifteen minutes counted in whole
      seconds, and refuses an ADMIN, and only an ADMIN, for want of Redis. */
  lemma VerdictExactly(user: UserId, role: Role, issuedAt: nat, read: Option<Option<nat>>, now: nat)
    ensures Verify(Some(Issue(user, role, issuedAt)), read, now)
         == if Over(issuedAt, now) then Err(UnauthenticatedError)
            else match read
                 case None => if role == ADMIN then Err(DependencyUnavailable) else Ok((user, role))
                 case Some(None) => Ok((user, role))
                 case Some(Some(cutoff)) => if issuedAt <= cutoff then Err(UnauthenticatedError) else Ok((user, role))
    ensures Verify(None, read, now) == Err(UnauthenticatedError)
  {
  }

  /** Whoever is let in is let in as the bearer the token was issued to. */
  lemma AcceptedAsBearer(user: UserId, role: Role, issuedAt: nat, read: Option<Option<nat>>, now: nat)
    requires Verify(Some(Issue(user, role, issuedAt)), read, now).Ok?
    ensures Verify(Some(Issue(user, role, issuedAt)), read, now).value == (user, role)
  {
    VerdictExactly(user, role, issuedAt, read, now);
  }

  // ---------------------------------------------------------------------------------------------
  // Any number of revocations

  /** A cutoff taken from the clock, and the later instant at which Redis stored it. Revocations whose
      write failed are not in the log. */
  datatype Write = Write(user: UserId, cutoff: nat, at: nat)

  predicate IsLog(log: seq<Write>, now: nat) {
    && (forall i :: 0 <= i < |log| ==> log[i].cutoff <= log[i].at <= now)
    && (forall i, j :: 0 <= i < j < |log| ==> log[i].at <= log[j].at)
  }

  function Stored(log: seq<Write>): Redis {
    if log == [] then map[]
    else
      var w := log[|log| - 1];
      SetEx(Stored(log[..|log| - 1]), w.user, w.cutoff, w.at)
  }

  /** The cutoff stored last for `user`, as if keys never expired. */
  function Latest(log: seq<Write>, user: UserId): Option<nat> {
    if log == [] then None
    else if log[|log| - 1].user == user then Some(log[|log| - 1].cutoff)
    else Latest(log[..|log| - 1], user)
  }

  lemma {:induction false} StoredIsLatest(log: seq<Write>, user: UserId, now: nat)
    requires IsLog(log, now)
    ensures user in Stored(log) <==> Latest(log, user).Some?
    ensures user in Stored(log) ==>
              var e := Stored(log)[user];
              Latest(log, user) == Some(e.cutoff) && e.cutoff + KEY_LIFE_MS <= e.until
  {
    if log != [] {
      StoredIsLatest(log[..|log| - 1], user, now);
    }
  }

  /** The verdict never shows that keys expire: when a cutoff's key is gone, every token it covered has
      reached its `exp`, however both were rounded. */
  lemma {:induction false} KeyLifeIsInvisible(log: seq<Write>, c: Claims, now: nat)
    requires IsLog(log, now) && c == Issue(c.user, c.role, c.issuedAt)
    ensures Verify(Some(c), Some(Get(Stored(log), c.user, now)), now)
         == Verify(Some(c), Some(Latest(log, c.user)), now)
  {
    StoredIsLatest(log, c.user, now);
  }

  /** With this key life, the key of cutoff `w` is gone at `now`. */
  predicate Gone(life: nat, w: Write, now: nat) {
    w.at + life <= now
  }

  ghost predicate LeavesNoGap(life: nat) {
    forall w: Write, issuedAt: nat, now: nat ::
      issuedAt <= w.cutoff <= w.at && Gone(life, w, now) ==> Expired(Issue(w.user, USER, issuedAt), now)
  }

  /** 900 s is the shortest key life that leaves no gap. */
  lemma ShortestKeyLife(life: nat)
    ensures LeavesNoGap(life) <==> life >= KEY_LIFE_MS
  {
    if life < KEY_LIFE_MS {
      assert Gone(life, Write(0, 0, 0), life);
      assert !Expired(Issue(0, USER, 0), life);
    }
  }

  predicate NeverOvertaken(log: seq<Write>, k: nat, issuedAt: nat)
    requires k < |log|
  {
    forall j :: k <= j < |log| && log[j].user == log[k].user ==> log[j].cutoff >= issuedAt
  }

  lemma {:induction false} LatestCovers(log: seq<Write>, k: nat, issuedAt: nat)
    requires k < |log| && NeverOvertaken(log, k, issuedAt)
    ensures Latest(log, log[k].user).Some? && Latest(log, log[k].user).value >= issuedAt
  {
    var n := |log| - 1;
    if log[n].user != log[k].user {
      assert forall j :: k <= j < n ==> log[..n][j] == log[j];
      LatestCovers(log[..n], k, issuedAt);
    }
  }

  /** What the gateway reads: nothing at all while Redis fails. */
  function ReadCutoff(log: seq<Write>, user: UserId, works: bool, now: nat): Option<Option<nat>> {
    if works then Some(Get(Stored(log), user, now)) else None
  }

  /** Once a cutoff at or after its issue is stored, a token is refused at every later time, unless the read
      of Redis fails for a USER token that has not expired, which then passes as its own user in its own role.
      Later cutoffs must not be older than the token. */
  lemma {:induction false} RevocationHasNoGap(log: seq<Write>, k: nat, user: UserId, role: Role, issuedAt: nat,
                                              works: bool, now: nat)
    requires IsLog(log, now)
    requires k < |log| && log[k].user == user && issuedAt <= log[k].cutoff
    requires NeverOvertaken(log, k, issuedAt)
    ensures Verify(Some(Issue(user, role, issuedAt)), ReadCutoff(log, user, works, now), now)
         == if works || Over(issuedAt, now) then Err(UnauthenticatedError)
            else if role == ADMIN then Err(DependencyUnavailable)
            else Ok((user, role))
  {
    LatestCovers(log, k, issuedAt);
    KeyLifeIsInvisible(log, Issue(user, role, issuedAt), now);
    VerdictExactly(user, role, issuedAt, Some(Latest(log, user)), now);
    VerdictExactly(user, role, issuedAt, None, now);
  }

  lemma {:induction false} NoLatest(log: seq<Write>, user: UserId)
    requires forall i :: 0 <= i < |log| ==> log[i].user != user
    ensures Latest(log, user) == None
  {
    if log != [] { NoLatest(log[..|log| - 1], user); }
  }

  /** A user nobody revoked keeps access, whatever happens to others: every token passes as its own user in its
      own role until it expires, except for an ADMIN while Redis fails. */
  lemma {:induction false} UnrevokedKeepAccess(log: seq<Write>, user: UserId, role: Role, issuedAt: nat,
                                               works: bool, now: nat)
    requires IsLog(log, now) && forall i :: 0 <= i < |log| ==> log[i].user != user
    ensures Verify(Some(Issue(user, role, issuedAt)), ReadCutoff(log, user, works, now), now)
         == if Over(issuedAt, now) then Err(UnauthenticatedError)
            else if !works && role == ADMIN then Err(DependencyUnavailable)
            else Ok((user, role))
  {
    NoLatest(log, user);
    KeyLifeIsInvisible(log, Issue(user, role, issuedAt), now);
    VerdictExactly(user, role, issuedAt, Some(None), now);
    VerdictExactly(user, role, issuedAt, None, now);
  }

  predicate InOrder(log: seq<Write>) {
    forall i, j :: 0 <= i < j < |log| && log[i].user == log[j].user ==> log[i].cutoff <= log[j].cutoff
  }

  /** Revocations of one user that reach Redis in the order in which they read the clock never reopen a
      session. */
  lemma InOrderIsEnough(log: seq<Write>, k: nat, issuedAt: nat)
    requires k < |log| && InOrder(log) && issuedAt <= log[k].cutoff
    ensures NeverOvertaken(log, k, issuedAt)
  {
  }

  /** The condition is needed: SETEX overwrites, so of two racing revocations the one that read the clock
      first but stored last readmits a token that the other had refused. A token of any user escapes the
      cutoffs stored for it exactly when the last one stored is older than the token. */
  lemma {:induction false} EscapesExactly(log: seq<Write>, user: UserId, role: Role, issuedAt: nat, now: nat)
    requires IsLog(log, now) && Latest(log, user).Some?
    ensures Verify(Some(Issue(user, role, issuedAt)), Some(Get(Stored(log), user, now)), now)
         == if Latest(log, user).value < issuedAt && !Over(issuedAt, now) then Ok((user, role))
            else Err(UnauthenticatedError)
  {
    KeyLifeIsInvisible(log, Issue(user, role, issuedAt), now);
    VerdictExactly(user, role, issuedAt, Some(Latest(log, user)), now);
  }

  lemma {:induction false} OvertakenRevocation(user: UserId)
    ensures var log, c := [Write(user, 2000, 2001), Write(user, 1000, 2002)], Issue(user, USER, 1500);
            && IsLog(log, 2003) && c.issuedAt <= log[0].cutoff
            && Verify(Some(c), Some(Get(Stored(log[..1]), user, 2001)), 2001).Err?
            && Verify(Some(c), Some(Get(Stored(log), user, 2003)), 2003).Ok?
  {
    var log := [Write(user, 2000, 2001), Write(user, 1000, 2002)];
    assert log[..1] == [Write(user, 2000, 2001)];
    StoredIsLatest(log, user, 2003);
    StoredIsLatest(log[..1], user, 2001);
  }
}

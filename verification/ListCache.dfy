/** The versioned list cache of getProducts: readers that look up, query and fill, racing writers that
    commit and then bump the version. The version key is set from the start, and Redis calls succeed;
    cached lists may expire at any moment. */
module ListCache {
  import opened Domain

  // ---------------------------------------------------------------------------------------------
  // Cache keys

  /** A listing query after validation. Numbers for prices are kept as their decimal text. */
  datatype Query = Query(
    page: nat,
    limit: nat,
    category: Option<string>,
    search: Option<string>,
    minPrice: Option<string>,
    maxPrice: Option<string>,
    sortBy: string,
    sortOrder: string)

  /** What the key records of a query: the limit is capped at 100, absent text counts as empty. */
  datatype Params = Params(page: nat, limit: nat, category: string, search: string,
                           minPrice: string, maxPrice: string, sortBy: string, sortOrder: string)

  function OrEmpty(s: Option<string>): string {
    if s.Some? then s.value else ""
  }

  function ParamsOf(q: Query): Params {
    Params(q.page, if q.limit < 100 then q.limit else 100, OrEmpty(q.category), OrEmpty(q.search),
           OrEmpty(q.minPrice), OrEmpty(q.maxPrice), q.sortBy, q.sortOrder)
  }

  /** Two optional texts mean the same to the query: absent text and empty text do not filter. */
  predicate SameText(a: Option<string>, b: Option<string>) {
    a == b || (a in {None, Some("")} && b in {None, Some("")})
  }

  /** The queries agree in page, limit up to 100, texts, prices and sorting. */
  predicate Agree(q: Query, r: Query) {
    && q.page == r.page
    && (q.limit == r.limit || (q.limit >= 100 && r.limit >= 100))
    && SameText(q.category, r.category) && SameText(q.search, r.search)
    && SameText(q.minPrice, r.minPrice) && SameText(q.maxPrice, r.maxPrice)
    && q.sortBy == r.sortBy && q.sortOrder == r.sortOrder
  }

  predicate TextOf(t: string, a: Option<string>) {
    a == Some(t) || (a == None && t == "")
  }

  /** The parameters are those of the query itself, field by field. */
  predicate Matches(p: Params, q: Query) {
    && p.page == q.page
    && (p.limit == q.limit <= 100 || (p.limit == 100 && q.limit > 100))
    && TextOf(p.category, q.category) && TextOf(p.search, q.search)
    && TextOf(p.minPrice, q.minPrice) && TextOf(p.maxPrice, q.maxPrice)
    && p.sortBy == q.sortBy && p.sortOrder == q.sortOrder
  }

  lemma ParamsMatch(q: Query)
    ensures Matches(ParamsOf(q), q)
  {
  }

  /** Parameters match a query exactly when the query has them, and are shared exactly by queries that agree. */
  lemma ParamsExactly(p: Params, q: Query, r: Query)
    ensures Matches(p, q) <==> p == ParamsOf(q)
    ensures ParamsOf(q) == ParamsOf(r) <==> Agree(q, r)
  {
  }

  function Digit(d: nat): char
    requires d < 10
  {
    '0' + d as char
  }

  function Decimal(n: nat): string {
    if n < 10 then [Digit(n)] else Decimal(n / 10) + [Digit(n % 10)]
  }

  /** The fields of the key, in order; the key joins them with ':'. */
  function Fields(version: nat, p: Params): seq<string> {
    ["v" + Decimal(version), Decimal(p.page), Decimal(p.limit), p.category, p.search,
     p.minPrice, p.maxPrice, p.sortBy, p.sortOrder]
  }

  function Join(fields: seq<string>): string {
    if fields == [] then "" else ":" + fields[0] + Join(fields[1..])
  }

  const KEY_PREFIX: string := "products:list"

  function CacheKey(version: nat, p: Params): string {
    KEY_PREFIX + Join(Fields(version, p))
  }

  predicate ColonFree(s: string) {
    ':' !in s
  }

  /** Texts without ':'; prices, sort field and direction never contain one. */
  predicate PlainQuery(q: Query) {
    && ColonFree(OrEmpty(q.category)) && ColonFree(OrEmpty(q.search))
    && ColonFree(OrEmpty(q.minPrice)) && ColonFree(OrEmpty(q.maxPrice))
    && ColonFree(q.sortBy) && ColonFree(q.sortOrder)
  }

  lemma {:induction false} DecimalPlain(n: nat)
    ensures ColonFree(Decimal(n)) && |Decimal(n)| >= 1
    ensures n >= 10 ==> |Decimal(n)| >= 2
  {
    if n >= 10 { DecimalPlain(n / 10); }
  }

  lemma {:induction false} DecimalInjective(a: nat, b: nat)
    requires Decimal(a) == Decimal(b)
    ensures a == b
  {
    DecimalPlain(a);
    DecimalPlain(b);
    var s := Decimal(a);
    assert s[|s| - 1] == Digit(a % 10) && s[|s| - 1] == Digit(b % 10);
    if a >= 10 {
      assert s[..|s| - 1] == Decimal(a / 10) && s[..|s| - 1] == Decimal(b / 10);
      DecimalInjective(a / 10, b / 10);
    }
  }

  predicate AllPlain(fields: seq<string>) {
    forall i :: 0 <= i < |fields| ==> ColonFree(fields[i])
  }

  lemma FieldLength(a: string, x: string, b: string, y: string)
    requires ColonFree(b) && (x == "" || x[0] == ':') && a + x == b + y
    ensures |b| <= |a|
  {
    var c := a + x;
    assert forall i :: 0 <= i < |b| ==> c[i] == b[i] && b[i] in b;
    assert x != "" ==> c[|a|] == ':';
  }

  /** Everything before the first ':' of a text after its leading one. */
  lemma FirstField(a: string, x: string, b: string, y: string)
    requires ColonFree(a) && ColonFree(b)
    requires (x == "" || x[0] == ':') && (y == "" || y[0] == ':')
    requires a + x == b + y
    ensures a == b && x == y
  {
    FieldLength(a, x, b, y);
    FieldLength(b, y, a, x);
    assert a == (a + x)[..|a|] && b == (b + y)[..|b|];
    assert x == (a + x)[|a|..] && y == (b + y)[|b|..];
  }

  lemma JoinHead(fields: seq<string>)
    ensures Join(fields) == "" || Join(fields)[0] == ':'
    ensures Join(fields) == "" <==> fields == []
  {
  }

  lemma {:induction false} JoinInjective(a: seq<string>, b: seq<string>)
    requires AllPlain(a) && AllPlain(b) && Join(a) == Join(b)
    ensures a == b
  {
    JoinHead(a);
    JoinHead(b);
    if a != [] {
      var ja, jb := Join(a[1..]), Join(b[1..]);
      assert Join(a)[1..] == a[0] + ja && Join(b)[1..] == b[0] + jb;
      JoinHead(a[1..]);
      JoinHead(b[1..]);
      FirstField(a[0], ja, b[0], jb);
      JoinInjective(a[1..], b[1..]);
      assert a == [a[0]] + a[1..] && b == [b[0]] + b[1..];
    }
  }

  function Colons(s: string): nat {
    if s == "" then 0 else (if s[0] == ':' then 1 else 0) + Colons(s[1..])
  }

  lemma {:induction false} ColonsConcat(a: string, b: string)
    ensures Colons(a + b) == Colons(a) + Colons(b)
  {
    if a == "" {
      assert a + b == b;
    } else {
      assert (a + b)[1..] == a[1..] + b;
      ColonsConcat(a[1..], b);
    }
  }

  lemma {:induction false} NoColons(s: string)
    ensures Colons(s) == 0 <==> ColonFree(s)
  {
    if s != "" {
      NoColons(s[1..]);
      assert s == [s[0]] + s[1..];
    }
  }

  /** A joined text has at least one colon per field, and no more exactly when every field is plain. */
  lemma {:induction false} JoinColons(fields: seq<string>)
    ensures Colons(Join(fields)) >= |fields|
    ensures Colons(Join(fields)) == |fields| <==> AllPlain(fields)
  {
    if fields != [] {
      var rest := Join(fields[1..]);
      JoinColons(fields[1..]);
      NoColons(fields[0]);
      ColonsConcat(":" + fields[0], rest);
      ColonsConcat(":", fields[0]);
      assert Colons(":") == 1 + Colons("");
      assert fields == [fields[0]] + fields[1..];
      assert AllPlain(fields) <==> ColonFree(fields[0]) && AllPlain(fields[1..]);
    }
  }

  lemma SameFirstField(f: seq<string>, g: seq<string>)
    requires f != [] && g != [] && ColonFree(f[0]) && ColonFree(g[0]) && Join(f) == Join(g)
    ensures f[0] == g[0]
  {
    var jf, jg := Join(f[1..]), Join(g[1..]);
    assert Join(f)[1..] == f[0] + jf && Join(g)[1..] == g[0] + jg;
    JoinHead(f[1..]);
    JoinHead(g[1..]);
    FirstField(f[0], jf, g[0], jg);
  }

  /** Whatever the texts contain, the version can be read off a key: it is the first field, and has no colon. */
  lemma VersionFromKey(v: nat, p: Params, w: nat, s: Params)
    requires CacheKey(v, p) == CacheKey(w, s)
    ensures v == w
  {
    var f, g := Fields(v, p), Fields(w, s);
    assert Join(f) == CacheKey(v, p)[|KEY_PREFIX|..] && Join(g) == CacheKey(w, s)[|KEY_PREFIX|..];
    DecimalPlain(v);
    DecimalPlain(w);
    SameFirstField(f, g);
    assert f[0][1..] == Decimal(v) && g[0][1..] == Decimal(w);
    DecimalInjective(v, w);
  }

  /** The key of a plain query is equal to the key of another query, plain or not, exactly when the versions are
      equal and the queries agree in every field. */
  lemma CacheKeyInjective(v: nat, q: Query, w: nat, r: Query)
    requires PlainQuery(q)
    ensures CacheKey(v, ParamsOf(q)) == CacheKey(w, ParamsOf(r)) <==> v == w && Agree(q, r)
  {
    ParamsExactly(ParamsOf(q), q, r);
    var p, s := ParamsOf(q), ParamsOf(r);
    if CacheKey(v, p) == CacheKey(w, s) {
      var fp, fs := Fields(v, p), Fields(w, s);
      assert Join(fp) == CacheKey(v, p)[|KEY_PREFIX|..] && Join(fs) == CacheKey(w, s)[|KEY_PREFIX|..];
      FieldsPlain(v, q);
      JoinColons(fp);
      JoinColons(fs);
      JoinInjective(fp, fs);
      FieldsInjective(v, p, w, s);
    }
  }

  lemma FieldsPlain(v: nat, q: Query)
    ensures AllPlain(Fields(v, ParamsOf(q))) <==> PlainQuery(q)
  {
    DecimalPlain(v);
    DecimalPlain(q.page);
    DecimalPlain(ParamsOf(q).limit);
    var f, p := Fields(v, ParamsOf(q)), ParamsOf(q);
    assert f[3] == p.category && f[4] == p.search && f[5] == p.minPrice && f[6] == p.maxPrice;
    assert f[7] == p.sortBy && f[8] == p.sortOrder;
  }

  lemma FieldsInjective(v: nat, p: Params, w: nat, s: Params)
    requires Fields(v, p) == Fields(w, s)
    ensures v == w && p == s
  {
    var fp, fs := Fields(v, p), Fields(w, s);
    assert fp[0][1..] == Decimal(v) && fs[0][1..] == Decimal(w);
    DecimalInjective(v, w);
    assert fp[1] == Decimal(p.page) && fs[1] == Decimal(s.page);
    DecimalInjective(p.page, s.page);
    assert fp[2] == Decimal(p.limit) && fs[2] == Decimal(s.limit);
    DecimalInjective(p.limit, s.limit);
    assert fp[3] == p.category && fp[4] == p.search && fp[5] == p.minPrice && fp[6] == p.maxPrice;
    assert fs[3] == s.category && fs[4] == s.search && fs[5] == s.minPrice && fs[6] == s.maxPrice;
    assert fp[7] == p.sortBy && fp[8] == p.sortOrder && fs[7] == s.sortBy && fs[8] == s.sortOrder;
  }

  /** With ':' in the texts, different queries share a key: the colon can sit on either side. */
  lemma ColonsCollide(v: nat, x: string, y: string, z: string, p: Params)
    ensures CacheKey(v, p.(category := x + ":" + y, search := z))
         == CacheKey(v, p.(category := x, search := y + ":" + z))
    ensures x + ":" + y != x
  {
    assert |x + ":" + y| > |x|;
    var f := Fields(v, p.(category := x + ":" + y, search := z));
    var g := Fields(v, p.(category := x, search := y + ":" + z));
    JoinMiddle(f);
    JoinMiddle(g);
    assert f[..3] == g[..3] && f[5..] == g[5..];
    assert ":" + (x + ":" + y) + ":" + z == ":" + x + ":" + (y + ":" + z);
  }

  lemma JoinMiddle(f: seq<string>)
    requires |f| >= 5
    ensures Join(f) == Join(f[..3]) + (":" + f[3] + ":" + f[4]) + Join(f[5..])
  {
    JoinSplit(f, 3);
    JoinTwo(f[3..]);
    assert f[3..][2..] == f[5..];
  }

  lemma JoinTwo(g: seq<string>)
    requires |g| >= 2
    ensures Join(g) == (":" + g[0] + ":" + g[1]) + Join(g[2..])
  {
    var tail := g[1..];
    assert tail[0] == g[1] && tail[1..] == g[2..];
    assert Join(tail) == ":" + g[1] + Join(g[2..]);
    Associate(":" + g[0], ":" + g[1], Join(g[2..]));
    Associate(":" + g[0], ":", g[1]);
  }

  lemma Associate(a: string, b: string, c: string)
    ensures a + (b + c) == (a + b) + c
  {
  }

  lemma {:induction false} JoinSplit(fields: seq<string>, n: nat)
    requires n <= |fields|
    ensures Join(fields) == Join(fields[..n]) + Join(fields[n..])
  {
    if n > 0 {
      JoinSplit(fields[1..], n - 1);
      assert fields[..n][1..] == fields[1..][..n - 1];
      assert fields[1..][n - 1..] == fields[n..];
    }
  }

  /** Prices are decimal numbers, and sort field and direction come from a fixed list. */
  predicate PlainRest(q: Query) {
    && ColonFree(OrEmpty(q.minPrice)) && ColonFree(OrEmpty(q.maxPrice))
    && ColonFree(q.sortBy) && ColonFree(q.sortOrder)
  }

  /** Some query that differs in a field has the same key. */
  ghost predicate SharesKey(v: nat, q: Query) {
    exists w: nat, r: Query ::
      PlainRest(r) && !Agree(q, r) && CacheKey(w, ParamsOf(r)) == CacheKey(v, ParamsOf(q))
  }

  lemma SplitAtColon(s: string) returns (x: string, y: string)
    requires !ColonFree(s)
    ensures s == x + ":" + y
  {
    var i :| 0 <= i < |s| && s[i] == ':';
    x, y := s[..i], s[i + 1..];
  }

  lemma ColonsAreShared(v: nat, q: Query)
    requires PlainRest(q) && !(ColonFree(OrEmpty(q.category)) && ColonFree(OrEmpty(q.search)))
    ensures SharesKey(v, q)
  {
    var category, search, p := OrEmpty(q.category), OrEmpty(q.search), ParamsOf(q);
    var r: Query;
    if !ColonFree(category) {
      var x, y := SplitAtColon(category);
      ColonsCollide(v, x, y, search, p);
      r := q.(category := Some(x), search := Some(y + ":" + search));
      assert ParamsOf(r) == p.(category := x, search := y + ":" + search);
      assert p == p.(category := x + ":" + y, search := search);
    } else {
      var y, z := SplitAtColon(search);
      ColonsCollide(v, category, y, z, p);
      r := q.(category := Some(category + ":" + y), search := Some(z));
      assert ParamsOf(r) == p.(category := category + ":" + y, search := z);
      assert p == p.(category := category, search := y + ":" + z);
    }
    ParamsExactly(p, q, r);
    assert PlainRest(r) && ParamsOf(r) != p && CacheKey(v, ParamsOf(r)) == CacheKey(v, p);
  }

  /** A query shares its key with a different one exactly when its category or search contains ':'. */
  lemma SharedKeysExactly(v: nat, q: Query)
    requires PlainRest(q)
    ensures SharesKey(v, q) <==> !(ColonFree(OrEmpty(q.category)) && ColonFree(OrEmpty(q.search)))
  {
    if PlainQuery(q) {
      forall w: nat, r: Query | !Agree(q, r)
        ensures CacheKey(w, ParamsOf(r)) != CacheKey(v, ParamsOf(q))
      {
        CacheKeyInjective(v, q, w, r);
      }
    } else {
      ColonsAreShared(v, q);
    }
  }

  // ---------------------------------------------------------------------------------------------
  // Readers and writers

  /** A page of products and a total, each with the number of commits its database read had seen. */
  datatype Listing = Listing(params: Params, productsAt: nat, totalAt: nat)

  type ReaderId = nat
  type WriterId = nat

  datatype ReaderPc =
    | Begun                                                        // about to read the version
    | Versioned(v: nat)                                            // about to look in the cache
    | Querying(v: nat, products: Option<nat>, total: Option<nat>)  // two concurrent database reads
    | Filling(v: nat, result: Listing)                             // about to store the result
    | Done(result: Listing)

  /** `before` are the writers whose bump had finished when the call started. */
  datatype Reader = Reader(query: Query, pc: ReaderPc, before: set<WriterId>)

  /** A writer has committed as the `at`-th commit, and then also bumped the version. */
  datatype Writer = Committed(at: nat) | Bumped(at: nat)

  datatype State = State(
    version: nat,
    cache: map<string, Listing>,
    commits: nat,
    readers: map<ReaderId, Reader>,
    writers: map<WriterId, Writer>,
    floors: map<nat, nat>)   // history: for each version so far, the latest commit whose bump led up to it

  function Init(version: nat): State {
    State(version, map[], 0, map[], map[], map[version := 0])
  }

  predicate At(s: State, r: ReaderId, pc: ReaderPc) {
    r in s.readers && s.readers[r].pc == pc
  }

  function Move(s: State, r: ReaderId, pc: ReaderPc): State
    requires r in s.readers
  {
    s.(readers := s.readers[r := s.readers[r].(pc := pc)])
  }

  function Max(a: nat, b: nat): nat {
    if a > b then a else b
  }

  predicate Commit(s: State, t: State, w: WriterId) {
    w !in s.writers && t == s.(commits := s.commits + 1, writers := s.writers[w := Committed(s.commits + 1)])
  }

  predicate Bump(s: State, t: State, w: WriterId) {
    && w in s.writers && s.writers[w].Committed? && s.version in s.floors
    && var at := s.writers[w].at;
    t == s.(version := s.version + 1,
            writers := s.writers[w := Bumped(at)],
            floors := s.floors[s.version + 1 := Max(at, s.floors[s.version])])
  }

  ghost predicate Begin(s: State, t: State, r: ReaderId, q: Query) {
    && r !in s.readers
    && var before := set w | w in s.writers && s.writers[w].Bumped?;
    t == s.(readers := s.readers[r := Reader(q, Begun, before)])
  }

  predicate ReadVersion(s: State, t: State, r: ReaderId) {
    At(s, r, Begun) && t == Move(s, r, Versioned(s.version))
  }

  predicate LookInCache(s: State, t: State, r: ReaderId) {
    && r in s.readers && s.readers[r].pc.Versioned?
    && var v := s.readers[r].pc.v;
    var key := CacheKey(v, ParamsOf(s.readers[r].query));
    t == Move(s, r, if key in s.cache then Done(s.cache[key]) else Querying(v, None, None))
  }

  predicate ReadProducts(s: State, t: State, r: ReaderId) {
    && r in s.readers && s.readers[r].pc.Querying? && s.readers[r].pc.products.None?
    && t == Move(s, r, s.readers[r].pc.(products := Some(s.commits)))
  }

  predicate ReadTotal(s: State, t: State, r: ReaderId) {
    && r in s.readers && s.readers[r].pc.Querying? && s.readers[r].pc.total.None?
    && t == Move(s, r, s.readers[r].pc.(total := Some(s.commits)))
  }

  predicate BuildResult(s: State, t: State, r: ReaderId) {
    && r in s.readers && s.readers[r].pc.Querying?
    && var pc := s.readers[r].pc;
    && pc.products.Some? && pc.total.Some?
    && t == Move(s, r, Filling(pc.v, Listing(ParamsOf(s.readers[r].query), pc.products.value, pc.total.value)))
  }

  predicate Fill(s: State, t: State, r: ReaderId) {
    && r in s.readers && s.readers[r].pc.Filling?
    && var pc := s.readers[r].pc;
    var key := CacheKey(pc.v, ParamsOf(s.readers[r].query));
    t == Move(s.(cache := s.cache[key := pc.result]), r, Done(pc.result))
  }

  predicate Expire(s: State, t: State, key: string) {
    t == s.(cache := s.cache - {key})
  }

  ghost predicate ReaderStep(s: State, t: State, r: ReaderId) {
    || (exists q :: Begin(s, t, r, q))
    || ReadVersion(s, t, r)
    || LookInCache(s, t, r)
    || ReadProducts(s, t, r)
    || ReadTotal(s, t, r)
    || BuildResult(s, t, r)
    || Fill(s, t, r)
  }

  ghost predicate Next(s: State, t: State) {
    || (exists w :: Commit(s, t, w))
    || (exists w :: Bump(s, t, w))
    || (exists r :: ReaderStep(s, t, r))
    || (exists key :: Expire(s, t, key))
  }

  ghost predicate IsRun(run: seq<State>) {
    && |run| >= 1
    && (exists v :: run[0] == Init(v))
    && forall i :: 0 <= i < |run| - 1 ==> Next(run[i], run[i + 1])
  }

  // ---------------------------------------------------------------------------------------------
  // Invariants

  /** Floors are defined for the current version, never exceed the commits, and grow with the version. */
  ghost predicate FloorInv(version: nat, floors: map<nat, nat>, commits: nat) {
    && version in floors
    && (forall v :: v in floors ==> v <= version && floors[v] <= floors[version] <= commits)
    && (forall v, w :: v in floors && w in floors && v <= w ==> floors[v] <= floors[w])
  }

  ghost predicate WriterInv(version: nat, floors: map<nat, nat>, commits: nat, writers: map<WriterId, Writer>) {
    && version in floors
    && forall w :: w in writers ==>
         writers[w].at <= commits && (writers[w].Bumped? ==> writers[w].at <= floors[version])
  }

  ghost predicate Fresh(result: Listing, v: nat, floors: map<nat, nat>) {
    v in floors && result.productsAt >= floors[v] && result.totalAt >= floors[v]
  }

  /** A cached list sits under the key of some version it is fresh for and some query it answers. */
  ghost predicate GoodEntry(key: string, result: Listing, floors: map<nat, nat>) {
    exists v: nat, q :: key == CacheKey(v, ParamsOf(q)) && result.params == ParamsOf(q) && Fresh(result, v, floors)
  }

  ghost predicate CacheInv(cache: map<string, Listing>, floors: map<nat, nat>) {
    forall key :: key in cache ==> GoodEntry(key, cache[key], floors)
  }

  /** Version `v` was read after all of these writers had bumped. */
  ghost predicate After(v: nat, before: set<WriterId>, writers: map<WriterId, Writer>, floors: map<nat, nat>) {
    v in floors && forall w :: w in before ==> w in writers && writers[w].at <= floors[v]
  }

  ghost predicate Answers(result: Listing, q: Query) {
    PlainQuery(q) ==> result.params == ParamsOf(q)
  }

  ghost predicate GoodReader(x: Reader, version: nat, writers: map<WriterId, Writer>, floors: map<nat, nat>) {
    match x.pc
    case Begun => After(version, x.before, writers, floors)
    case Versioned(v) => After(v, x.before, writers, floors)
    case Querying(v, products, total) =>
      && After(v, x.before, writers, floors)
      && (products.Some? ==> products.value >= floors[v])
      && (total.Some? ==> total.value >= floors[v])
    case Filling(v, result) =>
      After(v, x.before, writers, floors) && Fresh(result, v, floors) && result.params == ParamsOf(x.query)
    case Done(result) =>
      Answers(result, x.query) && exists v :: After(v, x.before, writers, floors) && Fresh(result, v, floors)
  }

  ghost predicate ReaderInv(s: State) {
    forall r :: r in s.readers ==> GoodReader(s.readers[r], s.version, s.writers, s.floors)
  }

  ghost predicate Inv(s: State) {
    && FloorInv(s.version, s.floors, s.commits)
    && WriterInv(s.version, s.floors, s.commits, s.writers)
    && CacheInv(s.cache, s.floors)
    && ReaderInv(s)
  }

  /** Writers and floors only grow. */
  ghost predicate Grows(s: State, t: State) {
    && s.version <= t.version
    && (forall v :: v in s.floors ==> v in t.floors && t.floors[v] == s.floors[v])
    && (forall w :: w in s.writers ==> w in t.writers && t.writers[w].at == s.writers[w].at)
  }

  lemma EntryGrows(key: string, result: Listing, s: State, t: State)
    requires GoodEntry(key, result, s.floors) && Grows(s, t)
    ensures GoodEntry(key, result, t.floors)
  {
    var v: nat, q :| key == CacheKey(v, ParamsOf(q)) && result.params == ParamsOf(q) && Fresh(result, v, s.floors);
    assert Fresh(result, v, t.floors);
  }

  lemma CacheGrows(cache: map<string, Listing>, s: State, t: State)
    requires CacheInv(cache, s.floors) && Grows(s, t)
    ensures CacheInv(cache, t.floors)
  {
    forall key | key in cache ensures GoodEntry(key, cache[key], t.floors) {
      EntryGrows(key, cache[key], s, t);
    }
  }

  lemma ReaderGrows(x: Reader, s: State, t: State)
    requires GoodReader(x, s.version, s.writers, s.floors) && Grows(s, t)
    requires FloorInv(s.version, s.floors, s.commits) && FloorInv(t.version, t.floors, t.commits)
    ensures GoodReader(x, t.version, t.writers, t.floors)
  {
    if x.pc.Done? {
      var v :| After(v, x.before, s.writers, s.floors) && Fresh(x.pc.result, v, s.floors);
      assert After(v, x.before, t.writers, t.floors) && Fresh(x.pc.result, v, t.floors);
    }
  }

  lemma CommitKeeps(s: State, t: State, w: WriterId)
    requires Inv(s) && Commit(s, t, w)
    ensures Inv(t)
  {
    CacheGrows(s.cache, s, t);
    forall r | r in t.readers ensures GoodReader(t.readers[r], t.version, t.writers, t.floors) {
      ReaderGrows(s.readers[r], s, t);
    }
  }

  lemma BumpFloors(s: State, t: State, w: WriterId)
    requires FloorInv(s.version, s.floors, s.commits) && Bump(s, t, w)
    requires WriterInv(s.version, s.floors, s.commits, s.writers)
    ensures FloorInv(t.version, t.floors, t.commits) && Grows(s, t)
    ensures WriterInv(t.version, t.floors, t.commits, t.writers)
  {
  }

  lemma BumpKeeps(s: State, t: State, w: WriterId)
    requires Inv(s) && Bump(s, t, w)
    ensures Inv(t)
  {
    BumpFloors(s, t, w);
    CacheGrows(s.cache, s, t);
    forall r | r in t.readers ensures GoodReader(t.readers[r], t.version, t.writers, t.floors) {
      ReaderGrows(s.readers[r], s, t);
    }
  }

  /** One reader changes; everything else stays. */
  lemma ReaderKeeps(s: State, t: State, r: ReaderId)
    requires Inv(s) && r in t.readers && t == s.(readers := s.readers[r := t.readers[r]])
    requires GoodReader(t.readers[r], s.version, s.writers, s.floors)
    ensures Inv(t)
  {
  }

  lemma BeginKeeps(s: State, t: State, r: ReaderId, q: Query)
    requires Inv(s) && Begin(s, t, r, q)
    ensures Inv(t)
  {
    assert After(s.version, t.readers[r].before, s.writers, s.floors);
    ReaderKeeps(s, t, r);
  }

  lemma SameKeySameParams(v: nat, q: Query, w: nat, r: Query)
    requires PlainQuery(q) && CacheKey(v, ParamsOf(q)) == CacheKey(w, ParamsOf(r))
    ensures ParamsOf(q) == ParamsOf(r)
  {
    CacheKeyInjective(v, q, w, r);
    ParamsExactly(ParamsOf(q), q, r);
  }

  /** A hit is fresh for the version in the key, even if another query with the same key stored it. */
  lemma HitIsFresh(cache: map<string, Listing>, floors: map<nat, nat>, v: nat, q: Query)
    requires CacheInv(cache, floors) && CacheKey(v, ParamsOf(q)) in cache
    ensures var result := cache[CacheKey(v, ParamsOf(q))]; Fresh(result, v, floors) && Answers(result, q)
  {
    var key := CacheKey(v, ParamsOf(q));
    assert GoodEntry(key, cache[key], floors);
    var w: nat, r :|
      key == CacheKey(w, ParamsOf(r)) && cache[key].params == ParamsOf(r) && Fresh(cache[key], w, floors);
    VersionFromKey(v, ParamsOf(q), w, ParamsOf(r));
    if PlainQuery(q) { SameKeySameParams(v, q, w, r); }
  }

  lemma LookKeeps(s: State, t: State, r: ReaderId)
    requires Inv(s) && LookInCache(s, t, r)
    ensures Inv(t)
  {
    var x := s.readers[r];
    assert GoodReader(x, s.version, s.writers, s.floors);
    if CacheKey(x.pc.v, ParamsOf(x.query)) in s.cache {
      HitIsFresh(s.cache, s.floors, x.pc.v, x.query);
      assert After(x.pc.v, x.before, s.writers, s.floors);
    }
    ReaderKeeps(s, t, r);
  }

  lemma QueryKeeps(s: State, t: State, r: ReaderId)
    requires Inv(s)
    requires ReadVersion(s, t, r) || ReadProducts(s, t, r) || ReadTotal(s, t, r) || BuildResult(s, t, r)
    ensures Inv(t)
  {
    assert GoodReader(s.readers[r], s.version, s.writers, s.floors);
    ReaderKeeps(s, t, r);
  }

  lemma FillKeeps(s: State, t: State, r: ReaderId)
    requires Inv(s) && Fill(s, t, r)
    ensures Inv(t)
  {
    var x := s.readers[r];
    assert GoodReader(x, s.version, s.writers, s.floors);
    var m := Move(s, r, Done(x.pc.result));
    assert After(x.pc.v, x.before, s.writers, s.floors);
    ReaderKeeps(s, m, r);
    assert t == m.(cache := t.cache);
    FillCache(s.cache, s.floors, x, x.pc.v, x.pc.result);
  }

  lemma FillCache(cache: map<string, Listing>, floors: map<nat, nat>, x: Reader, v: nat, result: Listing)
    requires CacheInv(cache, floors) && Fresh(result, v, floors) && result.params == ParamsOf(x.query)
    ensures CacheInv(cache[CacheKey(v, ParamsOf(x.query)) := result], floors)
  {
    assert GoodEntry(CacheKey(v, ParamsOf(x.query)), result, floors);
  }

  lemma ExpireKeeps(s: State, t: State, key: string)
    requires Inv(s) && Expire(s, t, key)
    ensures Inv(t)
  {
    assert forall k :: k in t.cache ==> k in s.cache && t.cache[k] == s.cache[k];
  }

  lemma NextKeeps(s: State, t: State)
    requires Inv(s) && Next(s, t)
    ensures Inv(t)
  {
    if w :| Commit(s, t, w) {
      CommitKeeps(s, t, w);
    } else if w :| Bump(s, t, w) {
      BumpKeeps(s, t, w);
    } else if r :| ReaderStep(s, t, r) {
      if q :| Begin(s, t, r, q) {
        BeginKeeps(s, t, r, q);
      } else if LookInCache(s, t, r) {
        LookKeeps(s, t, r);
      } else if Fill(s, t, r) {
        FillKeeps(s, t, r);
      } else {
        QueryKeeps(s, t, r);
      }
    } else {
      var key :| Expire(s, t, key);
      ExpireKeeps(s, t, key);
    }
  }

  lemma {:induction false} RunKeeps(run: seq<State>, i: nat)
    requires IsRun(run) && i < |run|
    ensures Inv(run[i])
  {
    if i > 0 {
      RunKeeps(run, i - 1);
      assert Next(run[i - 1], run[i - 1 + 1]);
      NextKeeps(run[i - 1], run[i]);
    }
  }

  /** A call that starts after a write's bump has finished never returns anything read before that write
      committed, for any interleaving of readers, writers and expiries and whatever the queries contain. */
  lemma ListsAreFresh(run: seq<State>, i: nat, r: ReaderId, w: WriterId)
    requires IsRun(run) && i < |run|
    requires r in run[i].readers && run[i].readers[r].pc.Done? && w in run[i].readers[r].before
    ensures var result := run[i].readers[r].pc.result;
            && w in run[i].writers
            && result.productsAt >= run[i].writers[w].at && result.totalAt >= run[i].writers[w].at
  {
    RunKeeps(run, i);
    assert GoodReader(run[i].readers[r], run[i].version, run[i].writers, run[i].floors);
  }

  /** And what a plain query gets was computed for its own parameters, cached or not, among any queries. */
  lemma ListsAnswerTheirQuery(run: seq<State>, i: nat, r: ReaderId)
    requires IsRun(run) && i < |run|
    requires r in run[i].readers && run[i].readers[r].pc.Done? && PlainQuery(run[i].readers[r].query)
    ensures Matches(run[i].readers[r].pc.result.params, run[i].readers[r].query)
  {
    RunKeeps(run, i);
    ParamsMatch(run[i].readers[r].query);
    assert GoodReader(run[i].readers[r], run[i].version, run[i].writers, run[i].floors);
  }

  /** What a call returns and leaves in the cache when nothing else runs and Redis answers. */
  function AloneResult(cache: map<string, Listing>, v: nat, q: Query, commits: nat): Listing {
    var key := CacheKey(v, ParamsOf(q));
    if key in cache then cache[key] else Listing(ParamsOf(q), commits, commits)
  }

  function AloneCache(cache: map<string, Listing>, v: nat, q: Query, commits: nat): map<string, Listing> {
    var key := CacheKey(v, ParamsOf(q));
    if key in cache then cache else cache[key := AloneResult(cache, v, q, commits)]
  }

  ghost predicate ReaderRun(run: seq<State>, r: ReaderId) {
    |run| >= 1 && forall i, j :: 0 <= i && j == i + 1 && j < |run| ==> ReaderStep(run[i], run[j], r)
  }

  lemma ThreeMoves(s: State, a: State, b: State, t: State, r: ReaderId)
    requires ReaderStep(s, a, r) && ReaderStep(a, b, r) && ReaderStep(b, t, r)
    ensures ReaderRun([s, a, b, t], r)
  {
  }

  /** A reader that starts and looks in the cache at once. */
  lemma LookAlone(s: State, r: ReaderId, q: Query) returns (run: seq<State>, t: State)
    requires r !in s.readers
    ensures ReaderRun(run, r) && run[0] == s && run[|run| - 1] == t
    ensures var key := CacheKey(s.version, ParamsOf(q));
            && r in t.readers && t.readers[r].query == q
            && t.readers[r].pc == (if key in s.cache then Done(s.cache[key]) else Querying(s.version, None, None))
            && t == s.(readers := s.readers[r := t.readers[r]])
  {
    var before := set w | w in s.writers && s.writers[w].Bumped?;
    var a := s.(readers := s.readers[r := Reader(q, Begun, before)]);
    assert Begin(s, a, r, q);
    var b := Move(a, r, Versioned(s.version));
    assert ReadVersion(a, b, r);
    var key := CacheKey(s.version, ParamsOf(q));
    t := Move(b, r, if key in s.cache then Done(s.cache[key]) else Querying(s.version, None, None));
    assert LookInCache(b, t, r);
    ThreeMoves(s, a, b, t, r);
    run := [s, a, b, t];
  }

  /** A reader that missed, and reads, builds and fills at once. */
  lemma FillAlone(s: State, r: ReaderId) returns (run: seq<State>, t: State)
    requires r in s.readers && s.readers[r].pc == Querying(s.version, None, None)
    ensures ReaderRun(run, r) && run[0] == s && run[|run| - 1] == t
    ensures var p := ParamsOf(s.readers[r].query);
            && At(t, r, Done(Listing(p, s.commits, s.commits)))
            && t == s.(readers := s.readers[r := t.readers[r]],
                       cache := s.cache[CacheKey(s.version, p) := Listing(p, s.commits, s.commits)])
  {
    var p, v, n := ParamsOf(s.readers[r].query), s.version, s.commits;
    var a := Move(s, r, Querying(v, Some(n), None));
    var b := Move(a, r, Querying(v, Some(n), Some(n)));
    var c := Move(b, r, Filling(v, Listing(p, n, n)));
    assert ReadProducts(s, a, r) && ReadTotal(a, b, r) && BuildResult(b, c, r);
    t := Move(c.(cache := c.cache[CacheKey(v, p) := Listing(p, n, n)]), r, Done(Listing(p, n, n)));
    assert Fill(c, t, r);
    run := [s, a, b, c, t];
  }

  /** The moves of one reader, made without a pause, add up to the method GetProducts below. */
  lemma ReaderAlone(s: State, r: ReaderId, q: Query) returns (run: seq<State>, t: State)
    requires r !in s.readers
    ensures ReaderRun(run, r) && run[0] == s && run[|run| - 1] == t
    ensures At(t, r, Done(AloneResult(s.cache, s.version, q, s.commits)))
    ensures t == s.(readers := s.readers[r := t.readers[r]], cache := AloneCache(s.cache, s.version, q, s.commits))
  {
    run, t := LookAlone(s, r, q);
    if CacheKey(s.version, ParamsOf(q)) !in s.cache {
      var more, last := FillAlone(t, r);
      ReaderRunsJoin(run, more, r);
      run, t := run + more[1..], last;
    }
  }

  lemma ReaderRunsJoin(x: seq<State>, y: seq<State>, r: ReaderId)
    requires ReaderRun(x, r) && ReaderRun(y, r) && x[|x| - 1] == y[0]
    ensures ReaderRun(x + y[1..], r)
  {
    var z := x + y[1..];
    forall i, j | 0 <= i && j == i + 1 && j < |z| ensures ReaderStep(z[i], z[j], r) {
      var k := i - (|x| - 1);
      assert k >= 0 ==> z[i] == y[k] && z[j] == y[k + 1];
    }
  }

  lemma ReaderRunIsRun(x: seq<State>, y: seq<State>, r: ReaderId)
    requires IsRun(x) && ReaderRun(y, r) && x[|x| - 1] == y[0]
    ensures IsRun(x + y[1..])
  {
    var z := x + y[1..];
    forall i | 0 <= i < |z| - 1 ensures Next(z[i], z[i + 1]) {
      var k := i - (|x| - 1);
      if k >= 0 {
        assert z[i] == y[k] && z[i + 1] == y[k + 1];
        assert ReaderStep(y[k], y[k + 1], r);
      } else {
        assert Next(x[i], x[i + 1]);
      }
    }
  }

  /** Every query that shares its key can be given the list of another query, so ListsAnswerTheirQuery holds
      of exactly the queries without ':' in category and search. */
  lemma WrongListArises(v: nat, q: Query) returns (run: seq<State>)
    requires SharesKey(v, q)
    ensures IsRun(run)
    ensures var t := run[|run| - 1];
            && 1 in t.readers && t.readers[1].query == q && t.readers[1].pc.Done?
            && !Matches(t.readers[1].pc.result.params, q)
  {
    var w: nat, other: Query :|
      !Agree(q, other) && CacheKey(w, ParamsOf(other)) == CacheKey(v, ParamsOf(q));
    ParamsExactly(ParamsOf(other), q, other);
    VersionFromKey(w, ParamsOf(other), v, ParamsOf(q));
    var s := Init(v);
    assert IsRun([s]);
    var first, middle := ReaderAlone(s, 0, other);
    ReaderRunIsRun([s], first, 0);
    assert 1 !in middle.readers;
    var second, last := LookAlone(middle, 1, q);
    run := [s] + first[1..];
    assert run[|run| - 1] == middle;
    ReaderRunIsRun(run, second, 1);
    run := run + second[1..];
    assert run[|run| - 1] == last;
  }

  // ---------------------------------------------------------------------------------------------

  /** The service's own view of Redis and the database when nothing else runs. With `up` false every Redis
      call throws. */
  class ListService {
    var up: bool
    var version: Option<nat>
    var cache: map<string, Listing>
    var commits: nat

    constructor ()
      ensures up && version == None && cache == map[] && commits == 0
    {
      up, version, cache, commits := true, None, map[], 0;
    }

    method GetListVersion() returns (v: nat)
      modifies this`version
      ensures v == if up && old(version).Some? then old(version).value else 1
      ensures version == if up then Some(v) else old(version)
    {
      if !up {
        return 1;
      }
      if version.None? {
        version := Some(1);
        return 1;
      }
      return version.value;
    }

    method InvalidateListCache()
      modifies this`version
      ensures version == if !up then old(version) else Some(1 + if old(version).Some? then old(version).value else 0)
    {
      if up {
        version := Some(1 + if version.Some? then version.value else 0);
      }
    }

    /** createProduct, updateProduct and deleteProduct commit first and bump the version afterwards. */
    method WriteProduct()
      modifies this`commits, this`version
      ensures commits == old(commits) + 1
      ensures up ==> version.Some? && version != old(version)
      ensures up && old(version).Some? ==> version.value == old(version).value + 1
      ensures !up ==> version == old(version)
    {
      commits := commits + 1;
      InvalidateListCache();
    }

    method GetProducts(q: Query) returns (result: Listing)
      modifies this`version, this`cache
      ensures var v := if up && old(version).Some? then old(version).value else 1;
              if up then
                && result == AloneResult(old(cache), v, q, commits)
                && cache == AloneCache(old(cache), v, q, commits) && version == Some(v)
              else
                result == Listing(ParamsOf(q), commits, commits) && cache == old(cache) && version == old(version)
      ensures !up || CacheKey(version.value, ParamsOf(q)) !in old(cache) ==>
                Matches(result.params, q) && result.productsAt == result.totalAt == commits
    {
      var v := GetListVersion();
      var key := CacheKey(v, ParamsOf(q));
      if up && key in cache {
        return cache[key];
      }
      result := Listing(ParamsOf(q), commits, commits);
      if up {
        cache := cache[key := result];
      }
    }
  }
}

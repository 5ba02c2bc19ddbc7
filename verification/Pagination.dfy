/** Keyset pagination of orders: getOrders returns one page in (createdAt desc, id desc) order and a cursor
    naming its last row, and the next call asks for the rows strictly below that cursor. */
module Pagination {
  import opened Domain
  import opened OrderStatusMachine

  /** The sort key of an order. Identifiers are unique, so no two orders share a key. */
  datatype RowKey = RowKey(createdAt: int, id: nat)

  /** A cursor as received: the text encodeCursor made for some row, or anything else. Base64 and JSON are
      treated as injective. */
  datatype CursorText = Encoded(row: RowKey) | Garbage

  function EncodeCursor(row: RowKey): CursorText {
    Encoded(row)
  }

  /** Texts that do not decode, or that decode to an empty identifier, count as no cursor. */
  function DecodeCursor(text: CursorText): Option<RowKey> {
    match text
    case Garbage => None
    case Encoded(row) => if row.id == EMPTY_ID then None else Some(row)
  }

  /** A row comes later in the listing. */
  predicate Below(a: RowKey, b: RowKey) {
    a.createdAt < b.createdAt || (a.createdAt == b.createdAt && a.id < b.id)
  }

  /** The where clause: rows strictly below the cursor, or all of them. */
  function After(rows: set<RowKey>, cursor: Option<RowKey>): set<RowKey> {
    set r | r in rows && (cursor.None? || Below(r, cursor.value))
  }

  predicate IsTop(rows: set<RowKey>, top: RowKey) {
    top in rows && forall r :: r in rows ==> r == top || Below(r, top)
  }

  lemma {:induction false} TopExists(rows: set<RowKey>) returns (top: RowKey)
    requires rows != {}
    ensures IsTop(rows, top)
    decreases |rows|
  {
    var r :| r in rows;
    var rest := rows - {r};
    if rest == {} {
      top := r;
      assert rows == {r};
    } else {
      var t := TopExists(rest);
      top := if Below(r, t) then t else r;
      forall u | u in rows ensures u == top || Below(u, top) {
        assert u == r || u in rest;
      }
    }
  }

  ghost function Top(rows: set<RowKey>): (top: RowKey)
    requires rows != {}
    ensures IsTop(rows, top)
  {
    var t: RowKey :| (exists u :: IsTop(rows, u)) ==> IsTop(rows, t);
    assert exists u :: IsTop(rows, u) by {
      var u := TopExists(rows);
    }
    t
  }

  /** The rows in listing order. */
  ghost function Listing(rows: set<RowKey>): seq<RowKey>
    decreases |rows|
  {
    if rows == {} then [] else [Top(rows)] + Listing(rows - {Top(rows)})
  }

  predicate Descending(s: seq<RowKey>) {
    forall i, j :: 0 <= i < j < |s| ==> Below(s[j], s[i])
  }

  /** The listing is exactly the rows, each once, in descending order. */
  lemma {:induction false} ListingIsComplete(rows: set<RowKey>)
    ensures Descending(Listing(rows))
    ensures forall r :: r in Listing(rows) <==> r in rows
    ensures |Listing(rows)| == |rows|
    decreases |rows|
  {
    if rows != {} {
      var rest := rows - {Top(rows)};
      ListingIsComplete(rest);
      var tail := Listing(rest);
      forall j | 0 <= j < |tail| ensures Below(tail[j], Top(rows)) { assert tail[j] in rest; }
    }
  }

  // ---------------------------------------------------------------------------------------------
  // getOrders

  const DEFAULT_LIMIT: int := 20
  const MAX_LIMIT: int := 100

  /** Math.min(Math.max(limit ?? 20, 1), 100). */
  function Clamp(limit: Option<int>): (r: int)
    ensures 1 <= r <= MAX_LIMIT
    ensures limit == None ==> r == 20
    ensures limit.Some? && 1 <= limit.value <= 100 ==> r == limit.value
    ensures limit.Some? && limit.value < 1 ==> r == 1
    ensures limit.Some? && limit.value > 100 ==> r == 100
  {
    var asked := if limit.Some? then limit.value else DEFAULT_LIMIT;
    var atLeast := if asked < 1 then 1 else asked;
    if atLeast > MAX_LIMIT then MAX_LIMIT else atLeast
  }

  datatype Page = Page(orders: seq<RowKey>, next: Option<CursorText>)

  /** The page cut from the rows found: the database is asked for one row more than the page holds. */
  function Cut(found: seq<RowKey>, n: nat): Page
    requires n >= 1
  {
    var fetched := if |found| <= n + 1 then found else found[..n + 1];
    var hasMore := |fetched| > n;
    var page := if hasMore then fetched[..n] else fetched;
    Page(page, if hasMore then Some(EncodeCursor(page[|page| - 1])) else None)
  }

  function From(cursor: Option<CursorText>): Option<RowKey> {
    if cursor.Some? then DecodeCursor(cursor.value) else None
  }

  /** One call, on the rows that match the caller and the status filter. */
  ghost function GetOrders(rows: set<RowKey>, cursor: Option<CursorText>, limit: Option<int>): Page {
    Cut(Listing(After(rows, From(cursor))), Clamp(limit))
  }

  lemma CursorRoundTrip(row: RowKey)
    ensures DecodeCursor(EncodeCursor(row)) == if row.id == EMPTY_ID then None else Some(row)
    ensures DecodeCursor(Garbage) == None
  {
  }

  lemma CutMeaning(found: seq<RowKey>, n: nat)
    requires Descending(found) && n >= 1
    ensures var p := Cut(found, n);
            && (|found| <= n ==> p == Page(found, None))
            && (|found| > n ==> p == Page(found[..n], Some(EncodeCursor(found[n - 1]))))
  {
    if |found| > n + 1 { assert found[..n + 1][..n] == found[..n]; }
  }

  lemma PrefixIsUpper(s: seq<RowKey>, n: nat, r: RowKey)
    requires Descending(s) && 1 <= n < |s| && r in s
    ensures r in s[..n] <==> !Below(r, s[n - 1])
  {
    var k :| 0 <= k < |s| && s[k] == r;
    if k < n {
      assert s[..n][k] == r;
    } else {
      assert Below(s[k], s[n - 1]);
      assert forall j :: 0 <= j < n ==> Below(s[k], s[j]);
    }
  }

  /** A page `p` of at most `n` rows cut from the rows `todo`: the highest of them, in order; and a next cursor
      exactly when some are left, which names the last row of the page. */
  ghost predicate IsPage(p: Page, todo: set<RowKey>, n: nat) {
    && Descending(p.orders) && |p.orders| <= n
    && (forall r :: r in p.orders ==> r in todo)
    && (p.next.None? <==> |todo| <= n)
    && (p.next.None? ==> forall r :: r in todo ==> r in p.orders)
    && (p.next.Some? ==>
        && |p.orders| == n >= 1
        && p.next == Some(EncodeCursor(p.orders[n - 1]))
        && forall r :: r in todo ==> (r in p.orders <==> !Below(r, p.orders[n - 1])))
  }

  lemma CutIsPage(todo: set<RowKey>, n: nat)
    requires n >= 1
    ensures IsPage(Cut(Listing(todo), n), todo, n)
  {
    var found := Listing(todo);
    ListingIsComplete(todo);
    CutMeaning(found, n);
    if |found| > n {
      forall r | r in todo ensures r in found[..n] <==> !Below(r, found[n - 1]) { PrefixIsUpper(found, n, r); }
    }
  }

  /** What one page is: the highest rows below the cursor, in order; and a next cursor exactly when some
      are left, which names the last row of the page. */
  lemma PageMeaning(rows: set<RowKey>, cursor: Option<CursorText>, limit: Option<int>)
    ensures IsPage(GetOrders(rows, cursor, limit), After(rows, From(cursor)), Clamp(limit))
  {
    CutIsPage(After(rows, From(cursor)), Clamp(limit));
  }

  // ---------------------------------------------------------------------------------------------
  // Following nextCursor

  /** One fetch: the matching rows at that moment, and the limit asked for. */
  datatype Fetch = Fetch(rows: set<RowKey>, limit: Option<int>)

  /** All rows returned by following nextCursor through these fetches, until a page has no cursor. */
  ghost function Traverse(fetches: seq<Fetch>, cursor: Option<CursorText>): seq<RowKey> {
    if fetches == [] then []
    else
      var p := GetOrders(fetches[0].rows, cursor, fetches[0].limit);
      if p.next.None? then p.orders else p.orders + Traverse(fetches[1..], p.next)
  }

  /** The traversal reaches a page without a cursor within these fetches. */
  ghost predicate Ends(fetches: seq<Fetch>, cursor: Option<CursorText>) {
    && fetches != []
    && var p := GetOrders(fetches[0].rows, cursor, fetches[0].limit);
    p.next.None? || Ends(fetches[1..], p.next)
  }

  predicate Named(rows: set<RowKey>) {
    forall r :: r in rows ==> r.id != EMPTY_ID
  }

  predicate AllNamed(fetches: seq<Fetch>) {
    forall i :: 0 <= i < |fetches| ==> Named(fetches[i].rows)
  }

  predicate Throughout(fetches: seq<Fetch>, r: RowKey) {
    forall i :: 0 <= i < |fetches| ==> r in fetches[i].rows
  }

  /** The rows a traversal returns are all below its cursor and in strictly descending order: no row is
      ever repeated, whatever is inserted or removed between fetches. */
  lemma {:induction false} TraverseDescends(fetches: seq<Fetch>, cursor: Option<CursorText>)
    requires AllNamed(fetches)
    ensures Descending(Traverse(fetches, cursor))
    ensures forall r :: r in Traverse(fetches, cursor) ==> From(cursor).None? || Below(r, From(cursor).value)
  {
    if fetches != [] {
      var p := GetOrders(fetches[0].rows, cursor, fetches[0].limit);
      PageMeaning(fetches[0].rows, cursor, fetches[0].limit);
      if p.next.Some? {
        var last := p.orders[|p.orders| - 1];
        assert last in p.orders;
        CursorRoundTrip(last);
        TraverseDescends(fetches[1..], p.next);
        DescendingConcat(p.orders, Traverse(fetches[1..], p.next));
        forall r | r in Traverse(fetches, cursor) ensures From(cursor).None? || Below(r, From(cursor).value) {
          assert r in p.orders || r in Traverse(fetches[1..], p.next);
          assert last in After(fetches[0].rows, From(cursor));
        }
      }
    }
  }

  lemma DescendingConcat(a: seq<RowKey>, b: seq<RowKey>)
    requires Descending(a) && Descending(b) && a != []
    requires forall r :: r in b ==> Below(r, a[|a| - 1])
    ensures Descending(a + b)
  {
    forall i, j | 0 <= i < j < |a + b| ensures Below((a + b)[j], (a + b)[i]) {
      if i < |a| <= j {
        assert b[j - |a|] in b;
        assert i < |a| - 1 ==> Below(a[|a| - 1], a[i]);
      }
    }
  }

  /** A row that matches at every fetch, and is below the cursor, is returned by a traversal that ends. */
  lemma {:induction false} TraverseFinds(fetches: seq<Fetch>, cursor: Option<CursorText>, r: RowKey)
    requires AllNamed(fetches) && Ends(fetches, cursor) && Throughout(fetches, r)
    requires From(cursor).None? || Below(r, From(cursor).value)
    ensures r in Traverse(fetches, cursor)
  {
    var p := GetOrders(fetches[0].rows, cursor, fetches[0].limit);
    PageMeaning(fetches[0].rows, cursor, fetches[0].limit);
    assert r in After(fetches[0].rows, From(cursor));
    if p.next.Some? {
      var last := p.orders[|p.orders| - 1];
      assert last in p.orders;
      CursorRoundTrip(last);
      if Below(r, last) { TraverseFinds(fetches[1..], p.next, r); }
    }
  }

  lemma DescendingDistinct(s: seq<RowKey>, i: nat)
    requires Descending(s) && i < |s|
    ensures forall j :: 0 <= j < |s| && s[j] == s[i] ==> j == i
  {
    assert forall j :: 0 <= j < i ==> Below(s[i], s[j]);
    assert forall j :: i < j < |s| ==> Below(s[j], s[i]);
  }

  /** Orders may be inserted, removed or change status between fetches: an order that matches throughout is
      returned exactly once, and no order is returned twice. */
  lemma EachOnce(fetches: seq<Fetch>, r: RowKey)
    requires AllNamed(fetches) && Ends(fetches, None) && Throughout(fetches, r)
    ensures var all := Traverse(fetches, None);
            exists i :: 0 <= i < |all| && all[i] == r && forall j :: 0 <= j < |all| && all[j] == r ==> j == i
  {
    var all := Traverse(fetches, None);
    TraverseFinds(fetches, None, r);
    TraverseDescends(fetches, None);
    var i :| 0 <= i < |all| && all[i] == r;
    DescendingDistinct(all, i);
  }

  predicate Fixed(fetches: seq<Fetch>, rows: set<RowKey>) {
    forall i :: 0 <= i < |fetches| ==> fetches[i].rows == rows
  }

  /** Two descending sequences of the same rows are equal. */
  lemma {:induction false} DescendingUnique(a: seq<RowKey>, b: seq<RowKey>)
    requires Descending(a) && Descending(b) && forall r :: r in a <==> r in b
    ensures a == b
  {
    assert b != [] ==> b[0] in a;
    if a != [] {
      assert a[0] in b;
      HeadIsTop(a);
      HeadIsTop(b);
      TailMembers(a);
      TailMembers(b);
      DescendingUnique(a[1..], b[1..]);
      assert a == [a[0]] + a[1..] && b == [b[0]] + b[1..];
    }
  }

  lemma HeadIsTop(s: seq<RowKey>)
    requires Descending(s) && s != []
    ensures forall r :: r in s ==> r == s[0] || Below(r, s[0])
  {
  }

  lemma TailMembers(a: seq<RowKey>)
    requires Descending(a) && a != []
    ensures forall r :: r in a[1..] <==> r in a && r != a[0]
  {
    forall r | r in a && r != a[0] ensures r in a[1..] {
      var i :| 0 <= i < |a| && a[i] == r;
      assert a[1..][i - 1] == r;
    }
  }

  /** On fixed data the traversal that ends is the whole listing, in order. */
  lemma TraversalIsListing(rows: set<RowKey>, fetches: seq<Fetch>)
    requires Named(rows) && Fixed(fetches, rows) && Ends(fetches, None)
    ensures Traverse(fetches, None) == Listing(rows)
  {
    var all := Traverse(fetches, None);
    TraverseDescends(fetches, None);
    ListingIsComplete(rows);
    forall r ensures r in all <==> r in Listing(rows) {
      if r in rows { TraverseFinds(fetches, None, r); }
      if r in all { TraverseWithin(fetches, None, rows, r); }
    }
    DescendingUnique(all, Listing(rows));
  }

  lemma {:induction false} TraverseWithin(fetches: seq<Fetch>, cursor: Option<CursorText>, rows: set<RowKey>, r: RowKey)
    requires Fixed(fetches, rows) && r in Traverse(fetches, cursor)
    ensures r in rows
  {
    PageMeaning(fetches[0].rows, cursor, fetches[0].limit);
    var p := GetOrders(fetches[0].rows, cursor, fetches[0].limit);
    if r !in p.orders { TraverseWithin(fetches[1..], p.next, rows, r); }
  }

  /** On fixed data it ends: each page with a cursor leaves strictly fewer rows to fetch. */
  lemma {:induction false} TraversalEnds(rows: set<RowKey>, fetches: seq<Fetch>, cursor: Option<CursorText>)
    requires Named(rows) && Fixed(fetches, rows) && |fetches| > |After(rows, From(cursor))|
    ensures Ends(fetches, cursor)
  {
    var p := GetOrders(rows, cursor, fetches[0].limit);
    PageMeaning(rows, cursor, fetches[0].limit);
    if p.next.Some? {
      var last := p.orders[|p.orders| - 1];
      assert last in p.orders;
      CursorRoundTrip(last);
      var now, later := After(rows, From(cursor)), After(rows, From(p.next));
      assert last in now && last !in later && later <= now;
      Shrinks(later, now, last);
      TraversalEnds(rows, fetches[1..], p.next);
    }
  }

  lemma {:induction false} Shrinks(small: set<RowKey>, large: set<RowKey>, r: RowKey)
    requires small <= large && r in large && r !in small
    ensures |small| < |large|
    decreases |large|
  {
    if small != {} {
      var x :| x in small;
      Shrinks(small - {x}, large - {x}, r);
    }
  }

  // ---------------------------------------------------------------------------------------------
  // Which orders a caller is shown, and in which order

  /** An order as the listing filters it. */
  datatype Entry = Entry(key: RowKey, user: UserId, status: OrderStatus)

  /** The base filter: the caller's own orders, or all of them for an administrator, of one status if asked. */
  function Matching(table: set<Entry>, caller: UserId, admin: bool, status: Option<OrderStatus>): set<RowKey> {
    set e | e in table && (admin || e.user == caller) && (status.None? || e.status == status.value) :: e.key
  }

  predicate NewestFirst(s: seq<RowKey>) {
    forall i, j :: 0 <= i < j < |s| ==>
      s[i].createdAt > s[j].createdAt || (s[i].createdAt == s[j].createdAt && s[i].id > s[j].id)
  }

  predicate UniqueKeys(table: set<Entry>) {
    forall e, f :: e in table && f in table && e.key == f.key ==> e == f
  }

  /** A traversal that ends shows a caller newest first exactly the orders of the asked status that are the
      caller's own, or all of them if the caller is an administrator. */
  lemma CallersSeeExactly(table: set<Entry>, caller: UserId, admin: bool, status: Option<OrderStatus>,
                          fetches: seq<Fetch>)
    requires UniqueKeys(table) && forall e :: e in table ==> e.key.id != EMPTY_ID
    requires Fixed(fetches, Matching(table, caller, admin, status)) && Ends(fetches, None)
    ensures NewestFirst(Traverse(fetches, None))
    ensures forall e :: e in table ==>
              (e.key in Traverse(fetches, None) <==>
                (admin || e.user == caller) && (status == None || status == Some(e.status)))
    ensures forall k :: k in Traverse(fetches, None) ==> exists e :: e in table && e.key == k
  {
    var rows := Matching(table, caller, admin, status);
    TraversalIsListing(rows, fetches);
    ListingIsComplete(rows);
  }
}

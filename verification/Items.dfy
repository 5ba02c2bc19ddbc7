/** Lists of stock items: the duplicate-merging transform of the order validators, and the canonical
    form that catalog-service computes before it reserves or compares. */
module Items {
  import opened Domain

  datatype Item = Item(product: ProductId, quantity: int)

  const MAX_SAFE_INTEGER: int := 0x1F_FFFF_FFFF_FFFF
  const MAX_LINES: nat := 100
  const UINT32_LIMIT: int := 0x1_0000_0000

  predicate IsSafeInteger(n: int) {
    -MAX_SAFE_INTEGER <= n <= MAX_SAFE_INTEGER
  }

  /** The quantity of one product over a whole list. */
  function Total(items: seq<Item>, product: ProductId): int {
    if items == [] then 0
    else (if items[0].product == product then items[0].quantity else 0) + Total(items[1..], product)
  }

  ghost predicate SameTotals(a: seq<Item>, b: seq<Item>) {
    forall p: ProductId :: Total(a, p) == Total(b, p)
  }

  predicate Positive(items: seq<Item>) {
    forall i :: 0 <= i < |items| ==> items[i].quantity >= 1
  }

  predicate Named(items: seq<Item>) {
    forall i :: 0 <= i < |items| ==> items[i].product != EMPTY_ID
  }

  predicate Distinct(items: seq<Item>) {
    forall i, j :: 0 <= i < j < |items| ==> items[i].product != items[j].product
  }

  /** Strictly ascending product identifiers. */
  predicate Sorted(items: seq<Item>) {
    forall i, j :: 0 <= i < j < |items| ==> items[i].product < items[j].product
  }

  // ---------------------------------------------------------------------------------------------
  // The insertion-ordered Map of the source, as an association list.

  function MapGet(m: seq<Item>, product: ProductId): Option<int> {
    if m == [] then None
    else if m[0].product == product then Some(m[0].quantity)
    else MapGet(m[1..], product)
  }

  function MapSet(m: seq<Item>, product: ProductId, quantity: int): seq<Item> {
    if m == [] then [Item(product, quantity)]
    else if m[0].product == product then [Item(product, quantity)] + m[1..]
    else [m[0]] + MapSet(m[1..], product, quantity)
  }

  function AddTo(m: seq<Item>, item: Item): seq<Item> {
    var held := MapGet(m, item.product);
    MapSet(m, item.product, (if held.Some? then held.value else 0) + item.quantity)
  }

  function Merged(items: seq<Item>): seq<Item> {
    if items == [] then []
    else AddTo(Merged(items[..|items| - 1]), items[|items| - 1])
  }

  lemma {:induction false} TotalConcat(a: seq<Item>, b: seq<Item>, p: ProductId)
    ensures Total(a + b, p) == Total(a, p) + Total(b, p)
  {
    if a == [] {
      assert a + b == b;
    } else {
      assert (a + b)[1..] == a[1..] + b;
      TotalConcat(a[1..], b, p);
    }
  }

  predicate Mentions(items: seq<Item>, p: ProductId) {
    exists i :: 0 <= i < |items| && items[i].product == p
  }

  lemma MentionsConcat(a: seq<Item>, b: seq<Item>, p: ProductId)
    ensures Mentions(a + b, p) <==> Mentions(a, p) || Mentions(b, p)
  {
    if Mentions(a + b, p) {
      var i :| 0 <= i < |a + b| && (a + b)[i].product == p;
      assert if i < |a| then a[i].product == p else b[i - |a|].product == p;
    }
    if Mentions(a, p) {
      var i :| 0 <= i < |a| && a[i].product == p;
      assert (a + b)[i].product == p;
    }
    if Mentions(b, p) {
      var i :| 0 <= i < |b| && b[i].product == p;
      assert (a + b)[i + |a|].product == p;
    }
  }

  lemma MentionsCons(x: Item, s: seq<Item>)
    ensures forall p :: Mentions([x] + s, p) <==> p == x.product || Mentions(s, p)
  {
    forall p ensures Mentions([x] + s, p) <==> p == x.product || Mentions(s, p) {
      MentionsConcat([x], s, p);
      assert [x][0] == x;
    }
  }

  lemma {:induction false} TotalOfAbsent(items: seq<Item>, p: ProductId)
    requires !Mentions(items, p)
    ensures Total(items, p) == 0
  {
    if items != [] {
      assert !Mentions(items[1..], p);
      TotalOfAbsent(items[1..], p);
    }
  }

  lemma {:induction false} TotalOfPositive(items: seq<Item>, p: ProductId)
    requires Positive(items)
    ensures Total(items, p) >= 0
    ensures Total(items, p) >= 1 <==> Mentions(items, p)
  {
    if items != [] {
      TotalOfPositive(items[1..], p);
      MentionsCons(items[0], items[1..]);
      assert items == [items[0]] + items[1..];
    }
  }

  lemma DistinctHead(s: seq<Item>)
    requires Distinct(s) && s != []
    ensures !Mentions(s[1..], s[0].product)
  {
  }

  lemma DistinctCons(x: Item, s: seq<Item>)
    requires Distinct(s) && !Mentions(s, x.product)
    ensures Distinct([x] + s)
  {
    var r := [x] + s;
    forall i, j | 0 <= i < j < |r| ensures r[i].product != r[j].product {
      assert r[j] == s[j - 1];
      if i == 0 { assert !Mentions(s, x.product) && r[0] == x; } else { assert r[i] == s[i - 1]; }
    }
  }

  lemma {:induction false} MapSetKeys(m: seq<Item>, product: ProductId, quantity: int)
    requires Distinct(m)
    ensures var r := MapSet(m, product, quantity);
            && Distinct(r)
            && |r| <= |m| + 1
            && (forall p :: Mentions(r, p) <==> p == product || Mentions(m, p))
            && (quantity >= 1 && Positive(m) ==> Positive(r))
  {
    if m == [] {
      assert MapSet(m, product, quantity) == [Item(product, quantity)] + [];
      MentionsCons(Item(product, quantity), []);
    } else {
      assert m == [m[0]] + m[1..];
      MentionsCons(m[0], m[1..]);
      DistinctHead(m);
      if m[0].product == product {
        MentionsCons(Item(product, quantity), m[1..]);
        DistinctCons(Item(product, quantity), m[1..]);
      } else {
        var tail := MapSet(m[1..], product, quantity);
        MapSetKeys(m[1..], product, quantity);
        MentionsCons(m[0], tail);
        DistinctCons(m[0], tail);
      }
    }
  }

  lemma {:induction false} MapSetTotals(m: seq<Item>, product: ProductId, quantity: int, p: ProductId)
    requires Distinct(m)
    ensures Total(MapSet(m, product, quantity), p) == if p == product then quantity else Total(m, p)
  {
    if m != [] {
      DistinctHead(m);
      TotalOfAbsent(m[1..], m[0].product);
      var r := MapSet(m, product, quantity);
      if m[0].product == product {
        assert r[1..] == m[1..];
      } else {
        assert r[1..] == MapSet(m[1..], product, quantity);
        MapSetTotals(m[1..], product, quantity, p);
      }
    }
  }

  lemma {:induction false} MapGetTotal(m: seq<Item>, product: ProductId)
    requires Distinct(m)
    ensures MapGet(m, product) == if Mentions(m, product) then Some(Total(m, product)) else None
  {
    if m != [] {
      DistinctHead(m);
      TotalOfAbsent(m[1..], m[0].product);
      MapGetTotal(m[1..], product);
      MentionsCons(m[0], m[1..]);
      assert m == [m[0]] + m[1..];
    }
  }

  /** One Map update changes one total, keeps keys unique, and never adds a key beside the new one. */
  lemma MapSetEffect(m: seq<Item>, product: ProductId, quantity: int)
    requires Distinct(m)
    ensures var r := MapSet(m, product, quantity);
            && Distinct(r)
            && |r| <= |m| + 1
            && (forall p :: Mentions(r, p) <==> p == product || Mentions(m, p))
            && (forall p :: Total(r, p) == if p == product then quantity else Total(m, p))
            && (MapGet(m, product) == if Mentions(m, product) then Some(Total(m, product)) else None)
            && (quantity >= 1 && Positive(m) ==> Positive(r))
  {
    MapSetKeys(m, product, quantity);
    MapGetTotal(m, product);
    forall p ensures Total(MapSet(m, product, quantity), p) == if p == product then quantity else Total(m, p) {
      MapSetTotals(m, product, quantity, p);
    }
  }

  lemma AddToEffect(m: seq<Item>, item: Item)
    requires Distinct(m) && Positive(m) && item.quantity >= 1
    ensures var r := AddTo(m, item);
            && Distinct(r) && Positive(r) && 1 <= |r| <= |m| + 1
            && (forall p :: Mentions(r, p) <==> p == item.product || Mentions(m, p))
            && (forall p :: Total(r, p) == Total(m, p) + if p == item.product then item.quantity else 0)
  {
    var held := MapGet(m, item.product);
    var q := (if held.Some? then held.value else 0) + item.quantity;
    TotalOfPositive(m, item.product);
    MapSetEffect(m, item.product, q);
    assert Mentions(AddTo(m, item), item.product);
  }

  /** The merge keeps every per-product total, makes keys unique and never lengthens the list. */
  lemma {:induction false} MergedEffect(items: seq<Item>)
    requires Positive(items)
    ensures var r := Merged(items);
            && Distinct(r) && Positive(r) && |r| <= |items|
            && (items != [] ==> r != [])
            && SameTotals(r, items)
            && (forall p :: Mentions(r, p) <==> Mentions(items, p))
  {
    if items != [] {
      var front, last := items[..|items| - 1], items[|items| - 1];
      MergedEffect(front);
      AddToEffect(Merged(front), last);
      LastEffect(items);
    }
  }

  lemma LastEffect(items: seq<Item>)
    requires items != []
    ensures var front, last := items[..|items| - 1], items[|items| - 1];
            && (forall p :: Mentions(items, p) <==> p == last.product || Mentions(front, p))
            && (forall p :: Total(items, p) == Total(front, p) + if p == last.product then last.quantity else 0)
  {
    var front, last := items[..|items| - 1], items[|items| - 1];
    assert items == front + [last];
    MentionsCons(last, []);
    assert [last] + [] == [last];
    forall p
      ensures Mentions(items, p) <==> p == last.product || Mentions(front, p)
      ensures Total(items, p) == Total(front, p) + if p == last.product then last.quantity else 0
    {
      MentionsConcat(front, [last], p);
      TotalConcat(front, [last], p);
    }
  }

  // ---------------------------------------------------------------------------------------------
  // Sorting by product identifier. Keys are unique after the merge, so any correct sort gives this list.

  function Insert(x: Item, s: seq<Item>): seq<Item> {
    if s == [] then [x]
    else if x.product <= s[0].product then [x] + s
    else [s[0]] + Insert(x, s[1..])
  }

  function SortById(items: seq<Item>): seq<Item> {
    if items == [] then [] else Insert(items[0], SortById(items[1..]))
  }

  lemma SortedHead(s: seq<Item>)
    requires Sorted(s) && s != []
    ensures forall p :: Mentions(s[1..], p) ==> s[0].product < p
  {
    forall p | Mentions(s[1..], p) ensures s[0].product < p {
      var i :| 0 <= i < |s[1..]| && s[1..][i].product == p;
      assert s[i + 1].product == p;
    }
  }

  lemma MentionsSorted(s: seq<Item>)
    requires Sorted(s) && s != []
    ensures forall p :: Mentions(s, p) ==> s[0].product <= p
  {
  }

  lemma SortedCons(x: Item, s: seq<Item>)
    requires Sorted(s) && forall p :: Mentions(s, p) ==> x.product < p
    ensures Sorted([x] + s)
  {
    var r := [x] + s;
    forall i, j | 0 <= i < j < |r| ensures r[i].product < r[j].product {
      assert r[j] == s[j - 1] && Mentions(s, s[j - 1].product);
      if i > 0 { assert r[i] == s[i - 1]; }
    }
  }

  lemma {:induction false} InsertTotals(x: Item, s: seq<Item>, p: ProductId)
    ensures var r := Insert(x, s);
            && Total(r, p) == (if p == x.product then x.quantity else 0) + Total(s, p)
            && (Mentions(r, p) <==> p == x.product || Mentions(s, p))
  {
    if s == [] {
      MentionsCons(x, []);
      assert [x] + [] == [x];
    } else {
      var first := x.product <= s[0].product;
      if !first { InsertTotals(x, s[1..], p); }
      var head, tail := if first then x else s[0], if first then s else Insert(x, s[1..]);
      assert s == [s[0]] + s[1..];
      MentionsCons(s[0], s[1..]);
      assert Insert(x, s) == [head] + tail;
      MentionsCons(head, tail);
    }
  }

  lemma {:induction false} InsertEffect(x: Item, s: seq<Item>)
    requires Sorted(s) && !Mentions(s, x.product)
    ensures var r := Insert(x, s);
            && Sorted(r)
            && |r| == |s| + 1
            && (x.quantity >= 1 && Positive(s) ==> Positive(r))
  {
    if s != [] {
      SortedHead(s);
      assert Mentions(s, s[0].product);
      if x.product < s[0].product {
        MentionsSorted(s);
        SortedCons(x, s);
      } else {
        var t := Insert(x, s[1..]);
        assert !Mentions(s[1..], x.product) by { MentionsCons(s[0], s[1..]); assert s == [s[0]] + s[1..]; }
        InsertEffect(x, s[1..]);
        forall p | Mentions(t, p) ensures s[0].product < p { InsertTotals(x, s[1..], p); }
        SortedCons(s[0], t);
      }
    }
  }

  lemma {:induction false} SortEffect(items: seq<Item>)
    requires Distinct(items)
    ensures var r := SortById(items);
            && Sorted(r) && |r| == |items|
            && (Positive(items) ==> Positive(r))
            && (forall p :: Mentions(r, p) <==> Mentions(items, p))
            && SameTotals(r, items)
  {
    if items != [] {
      var rest := items[1..];
      SortEffect(rest);
      assert items == [items[0]] + rest;
      MentionsCons(items[0], rest);
      var s := SortById(rest);
      assert !Mentions(rest, items[0].product) by { DistinctHead(items); }
      InsertEffect(items[0], s);
      forall p
        ensures Total(SortById(items), p) == Total(items, p)
        ensures Mentions(SortById(items), p) <==> Mentions(items, p)
      {
        InsertTotals(items[0], s, p);
      }
    }
  }

  lemma {:induction false} SortedTotal(s: seq<Item>, i: nat)
    requires Sorted(s) && i < |s|
    ensures Total(s, s[i].product) == s[i].quantity
  {
    if i == 0 {
      assert !Mentions(s[1..], s[0].product);
      TotalOfAbsent(s[1..], s[0].product);
    } else {
      SortedTotal(s[1..], i - 1);
    }
  }

  lemma NoTotals(s: seq<Item>)
    requires Sorted(s) && Positive(s) && forall p :: Total(s, p) == 0
    ensures s == []
  {
    if s != [] { SortedTotal(s, 0); }
  }

  /** A sorted list of positive lines is determined by its totals. */
  lemma {:induction false} SortedUnique(a: seq<Item>, b: seq<Item>)
    requires Sorted(a) && Sorted(b) && Positive(a) && Positive(b)
    requires SameTotals(a, b)
    ensures a == b
  {
    if a == [] {
      NoTotals(b);
    } else if b == [] {
      NoTotals(a);
    } else {
      SortedTotal(a, 0);
      SortedTotal(b, 0);
      TotalOfPositive(a, b[0].product);
      TotalOfPositive(b, a[0].product);
      assert a[0] == b[0];
      forall p ensures Total(a[1..], p) == Total(b[1..], p) {
        assert Total(a, p) == Total(b, p);
      }
      SortedUnique(a[1..], b[1..]);
      assert a == [a[0]] + a[1..];
      assert b == [b[0]] + b[1..];
    }
  }

  // ---------------------------------------------------------------------------------------------
  // The canonical form.

  predicate ValidLine(item: Item) {
    item.product != EMPTY_ID && IsSafeInteger(item.quantity) && item.quantity >= 1
  }

  predicate ValidLines(items: seq<Item>) {
    1 <= |items| <= MAX_LINES && forall i :: 0 <= i < |items| ==> ValidLine(items[i])
  }

  function CanonicalOf(items: seq<Item>): Result<seq<Item>> {
    if ValidLines(items) then Ok(SortById(Merged(items))) else Err(ValidationError)
  }

  method Canonical(items: seq<Item>) returns (r: Result<seq<Item>>)
    ensures r == CanonicalOf(items)
    ensures r.Ok? <==>
              && 1 <= |items| <= 100
              && forall i :: 0 <= i < |items| ==>
                   items[i].product != EMPTY_ID && 1 <= items[i].quantity < 0x20_0000_0000_0000
    ensures r.Err? ==> r.error == ValidationError
  {
    if |items| == 0 || |items| > MAX_LINES {
      return Err(ValidationError);
    }
    var merged: seq<Item> := [];
    for n := 0 to |items|
      invariant merged == Merged(items[..n])
      invariant forall i :: 0 <= i < n ==> ValidLine(items[i])
    {
      var item := items[n];
      if item.product == EMPTY_ID || !IsSafeInteger(item.quantity) || item.quantity < 1 {
        return Err(ValidationError);
      }
      var held := MapGet(merged, item.product);
      merged := MapSet(merged, item.product, (if held.Some? then held.value else 0) + item.quantity);
      assert items[..n + 1][..n] == items[..n];
    }
    assert items[..|items|] == items;
    return Ok(SortById(merged));
  }

  lemma {:induction false} SortedMergeEffect(items: seq<Item>)
    requires Positive(items)
    ensures var r := SortById(Merged(items));
            && Sorted(r) && Positive(r) && |r| <= |items|
            && (items != [] ==> r != [])
            && SameTotals(r, items)
            && (Named(items) ==> Named(r))
  {
    MergedEffect(items);
    var m := Merged(items);
    SortEffect(m);
    var r := SortById(m);
    forall i | 0 <= i < |r| ensures Mentions(items, r[i].product) {
      assert Mentions(r, r[i].product);
    }
  }

  /** What the canonical form is: the strictly sorted list of positive lines with the same totals. */
  lemma CanonicalMeaning(items: seq<Item>)
    ensures var r := CanonicalOf(items);
            && (r.Ok? <==> ValidLines(items))
            && (r.Ok? ==>
                && Sorted(r.value) && Positive(r.value) && Named(r.value)
                && 1 <= |r.value| <= |items|
                && SameTotals(r.value, items))
  {
    if ValidLines(items) { SortedMergeEffect(items); }
  }

  /** The canonical form is a complete invariant of the per-product totals. */
  lemma CanonicalComplete(a: seq<Item>, b: seq<Item>)
    requires ValidLines(a) && ValidLines(b)
    ensures CanonicalOf(a) == CanonicalOf(b) <==> SameTotals(a, b)
  {
    CanonicalMeaning(a);
    CanonicalMeaning(b);
    var ca, cb := CanonicalOf(a).value, CanonicalOf(b).value;
    if SameTotals(a, b) {
      assert SameTotals(ca, cb);
      SortedUnique(ca, cb);
    }
    if ca == cb {
      forall p ensures Total(a, p) == Total(b, p) {
        assert Total(ca, p) == Total(a, p) && Total(cb, p) == Total(b, p);
      }
    }
  }

  /** Re-canonicalising a canonical list gives it back exactly when every total is a safe integer;
      otherwise the code rejects its own output. */
  lemma CanonicalIdempotent(items: seq<Item>)
    requires ValidLines(items)
    ensures var c := CanonicalOf(items).value;
            && (CanonicalOf(c).Ok? <==> forall p :: Total(items, p) <= MAX_SAFE_INTEGER)
            && (CanonicalOf(c).Ok? ==> CanonicalOf(c) == Ok(c))
  {
    CanonicalMeaning(items);
    var c := CanonicalOf(items).value;
    forall i | 0 <= i < |c| ensures Total(items, c[i].product) == c[i].quantity {
      SortedTotal(c, i);
    }
    if CanonicalOf(c).Ok? {
      CanonicalMeaning(c);
      SortedUnique(CanonicalOf(c).value, c);
      forall p ensures Total(items, p) <= MAX_SAFE_INTEGER {
        if Mentions(c, p) {
          var i :| 0 <= i < |c| && c[i].product == p;
          assert ValidLine(c[i]);
        } else {
          TotalOfAbsent(c, p);
        }
      }
    } else {
      var i :| 0 <= i < |c| && !ValidLine(c[i]);
      assert Total(items, c[i].product) > MAX_SAFE_INTEGER;
    }
  }

  lemma {:induction false} TotalBound(items: seq<Item>, p: ProductId, bound: nat)
    requires forall i :: 0 <= i < |items| ==> items[i].quantity <= bound
    ensures Total(items, p) <= |items| * bound
  {
    if items != [] {
      TotalBound(items[1..], p, bound);
      assert |items| * bound == bound + (|items| - 1) * bound;
    }
  }

  /** Quantities arrive as uint32, so 100 of them never reach 2^53: canonical accepts its own output. */
  lemma CanonicalIdempotentOnWire(items: seq<Item>)
    requires ValidLines(items)
    requires forall i :: 0 <= i < |items| ==> items[i].quantity < UINT32_LIMIT
    ensures CanonicalOf(CanonicalOf(items).value) == CanonicalOf(items)
  {
    forall p ensures Total(items, p) <= MAX_SAFE_INTEGER {
      TotalBound(items, p, UINT32_LIMIT - 1);
      assert |items| * (UINT32_LIMIT - 1) <= 100 * (UINT32_LIMIT - 1);
    }
    CanonicalIdempotent(items);
  }

  /** Two lines of 2^53 - 1 for one product are valid, but their canonical form is rejected. */
  lemma CanonicalRejectsOwnOutput()
    ensures var items := [Item(1, MAX_SAFE_INTEGER), Item(1, MAX_SAFE_INTEGER)];
            ValidLines(items) && CanonicalOf(CanonicalOf(items).value).Err?
  {
    var items := [Item(1, MAX_SAFE_INTEGER), Item(1, MAX_SAFE_INTEGER)];
    TotalConcat([items[0]], [items[1]], 1);
    assert items == [items[0]] + [items[1]];
    assert Total(items, 1) > MAX_SAFE_INTEGER;
    CanonicalIdempotent(items);
  }

  // ---------------------------------------------------------------------------------------------
  // The order-service side: the schema transform, and the sorted list that is hashed.

  const MAX_QUANTITY: int := 1000

  predicate SchemaValid(items: seq<Item>) {
    && |items| >= 1
    && forall i :: 0 <= i < |items| ==> items[i].product != EMPTY_ID && 1 <= items[i].quantity <= MAX_QUANTITY
  }

  /** createOrderSchema: reject a bad list, otherwise merge duplicate products in first-seen order. */
  method MergeDuplicates(items: seq<Item>) returns (r: Result<seq<Item>>)
    ensures r == if SchemaValid(items) then Ok(Merged(items)) else Err(ValidationError)
    ensures r.Ok? <==>
              && |items| >= 1
              && forall i :: 0 <= i < |items| ==> items[i].product != EMPTY_ID && 1 <= items[i].quantity <= 1000
  {
    if |items| < 1 {
      return Err(ValidationError);
    }
    for n := 0 to |items|
      invariant forall i :: 0 <= i < n ==> items[i].product != EMPTY_ID && 1 <= items[i].quantity <= MAX_QUANTITY
    {
      if items[n].product == EMPTY_ID || items[n].quantity < 1 || items[n].quantity > MAX_QUANTITY {
        return Err(ValidationError);
      }
    }
    var merged: seq<Item> := [];
    for n := 0 to |items|
      invariant merged == Merged(items[..n])
    {
      var held := MapGet(merged, items[n].product);
      merged := MapSet(merged, items[n].product, (if held.Some? then held.value else 0) + items[n].quantity);
      assert items[..n + 1][..n] == items[..n];
    }
    assert items[..|items|] == items;
    return Ok(merged);
  }

  /** The list whose JSON text is hashed; the hash is treated as injective. */
  function RequestOf(items: seq<Item>): seq<Item> {
    SortById(items)
  }

  /** The hashed request is the same equivalence as the canonical form: equal exactly on equal totals. */
  lemma RequestComplete(a: seq<Item>, b: seq<Item>)
    requires SchemaValid(a) && SchemaValid(b)
    ensures RequestOf(Merged(a)) == RequestOf(Merged(b)) <==> SameTotals(a, b)
  {
    SortedMergeEffect(a);
    SortedMergeEffect(b);
    var ra, rb := RequestOf(Merged(a)), RequestOf(Merged(b));
    if SameTotals(a, b) {
      assert SameTotals(ra, rb);
      SortedUnique(ra, rb);
    }
    if ra == rb {
      forall p ensures Total(a, p) == Total(b, p) {
        assert Total(ra, p) == Total(a, p) && Total(rb, p) == Total(b, p);
      }
    }
  }

  /** Merging first changes nothing for catalog-service, as long as the raw list is within its limit. */
  lemma CanonicalOfMerged(items: seq<Item>)
    requires SchemaValid(items) && |items| <= MAX_LINES
    ensures CanonicalOf(Merged(items)) == CanonicalOf(items) == Ok(RequestOf(Merged(items)))
  {
    MergedEffect(items);
    SortedMergeEffect(items);
    var m := Merged(items);
    forall i | 0 <= i < |m| ensures ValidLine(m[i]) {
      assert Mentions(m, m[i].product);
      DistinctTotal(m, i);
      TotalBound(items, m[i].product, MAX_QUANTITY);
      assert Total(m, m[i].product) == Total(items, m[i].product);
      assert |items| * MAX_QUANTITY <= 100 * MAX_QUANTITY;
    }
    CanonicalComplete(m, items);
  }

  lemma {:induction false} DistinctTotal(s: seq<Item>, i: nat)
    requires Distinct(s) && i < |s|
    ensures Total(s, s[i].product) == s[i].quantity
  {
    if i == 0 {
      DistinctHead(s);
      TotalOfAbsent(s[1..], s[0].product);
    } else {
      DistinctTotal(s[1..], i - 1);
    }
  }

  /** The products of a list in the order of their first mention. */
  function FirstSeen(items: seq<Item>): seq<ProductId> {
    if items == [] then []
    else
      var before, p := FirstSeen(items[..|items| - 1]), items[|items| - 1].product;
      if p in before then before else before + [p]
  }

  function ProductsOf(items: seq<Item>): seq<ProductId> {
    seq(|items|, i requires 0 <= i < |items| => items[i].product)
  }

  lemma ProductsCons(x: Item, s: seq<Item>)
    ensures ProductsOf([x] + s) == [x.product] + ProductsOf(s)
  {
  }

  lemma {:induction false} MapSetOrder(m: seq<Item>, p: ProductId, quantity: int)
    ensures ProductsOf(MapSet(m, p, quantity)) == if p in ProductsOf(m) then ProductsOf(m) else ProductsOf(m) + [p]
  {
    if m != [] {
      var tail := m[1..];
      ProductsCons(m[0], tail);
      assert m == [m[0]] + tail;
      if m[0].product == p {
        ProductsCons(Item(p, quantity), tail);
      } else {
        MapSetOrder(tail, p, quantity);
        ProductsCons(m[0], MapSet(tail, p, quantity));
      }
    }
  }

  /** The merge keeps products in the order in which they were first mentioned. */
  lemma {:induction false} MergedOrder(items: seq<Item>)
    ensures ProductsOf(Merged(items)) == FirstSeen(items)
  {
    if items != [] {
      var front, last := items[..|items| - 1], items[|items| - 1];
      MergedOrder(front);
      var held := MapGet(Merged(front), last.product);
      MapSetOrder(Merged(front), last.product, (if held.Some? then held.value else 0) + last.quantity);
    }
  }
}

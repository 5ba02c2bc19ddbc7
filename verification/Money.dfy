/** Order amounts. Every price has two decimals (column DECIMAL(12,2)), so an amount is an integer number
    of cents. Decimal arithmetic rounds each result half up to 20 significant digits; the model applies
    that rounding at every operation, and the theorems say it never has an effect on a stored order. */
module Money {
  import opened Domain
  import opened Items

  datatype Line = Line(product: ProductId, quantity: nat, price: nat)

  /** The catalog's answer for one product. */
  datatype PriceReply = Priced(cents: nat) | ProductMissing | Unreachable

  datatype Quote = Quote(lines: seq<Line>, total: nat)

  const PRECISION_LIMIT: nat := 1_00000_00000_00000_00000   // 10^20
  const COLUMN_LIMIT: nat := 1_000_000_000_000              // DECIMAL(12,2) holds less than 10^12 cents

  /** `c` rounded half up to a multiple of the least power of ten that leaves 20 digits. */
  function RoundTo(c: nat, unit: nat): (r: nat)
    requires unit >= 1
    decreases c - unit
  {
    if c < PRECISION_LIMIT * unit then (c + unit / 2) / unit * unit
    else
      assert PRECISION_LIMIT * unit >= 10 * unit;
      RoundTo(c, 10 * unit)
  }

  function Round(c: nat): nat {
    RoundTo(c, 1)
  }

  function ExactTotal(lines: seq<Line>): nat {
    if lines == [] then 0
    else ExactTotal(lines[..|lines| - 1]) + lines[|lines| - 1].price * lines[|lines| - 1].quantity
  }

  /** What the accumulation loop computes, rounding after each multiplication and addition. */
  function RoundedTotal(lines: seq<Line>): nat {
    if lines == [] then 0
    else
      Round(RoundedTotal(lines[..|lines| - 1]) + Round(lines[|lines| - 1].price * lines[|lines| - 1].quantity))
  }

  predicate AllPriced(replies: seq<PriceReply>) {
    forall i :: 0 <= i < |replies| ==> replies[i].Priced?
  }

  function LinesOf(items: seq<Item>, replies: seq<PriceReply>): seq<Line>
    requires |items| == |replies| && AllPriced(replies) && Positive(items)
  {
    seq(|items|, i requires 0 <= i < |items| => Line(items[i].product, items[i].quantity, replies[i].cents))
  }

  /** Each line is the item with the price that was answered for its own product. */
  predicate PricedAs(lines: seq<Line>, items: seq<Item>, replies: seq<PriceReply>) {
    && |lines| == |items| == |replies|
    && forall i :: 0 <= i < |lines| ==>
         && lines[i].product == items[i].product && lines[i].quantity == items[i].quantity
         && replies[i].Priced? && lines[i].price == replies[i].cents
  }

  /** Answered price times quantity, summed over the items, without any rounding. */
  function AnsweredTotal(items: seq<Item>, replies: seq<PriceReply>): int
    requires |items| == |replies|
  {
    if items == [] then 0
    else
      var n := |items| - 1;
      AnsweredTotal(items[..n], replies[..n]) +
      (if replies[n].Priced? then replies[n].cents * items[n].quantity else 0)
  }

  lemma {:induction false} PricedTotal(lines: seq<Line>, items: seq<Item>, replies: seq<PriceReply>)
    requires PricedAs(lines, items, replies)
    ensures ExactTotal(lines) == AnsweredTotal(items, replies)
  {
    if lines != [] {
      var n := |lines| - 1;
      PricedTotal(lines[..n], items[..n], replies[..n]);
      assert lines[n].price * lines[n].quantity == replies[n].cents * items[n].quantity;
    }
  }

  lemma LinesArePriced(items: seq<Item>, replies: seq<PriceReply>)
    requires |items| == |replies| && AllPriced(replies) && Positive(items)
    ensures PricedAs(LinesOf(items, replies), items, replies)
  {
  }

  /** The pricing loop of createOrder: stop at the first product that is missing or cannot be asked. */
  method PriceItems(items: seq<Item>, replies: seq<PriceReply>) returns (r: Result<Quote>)
    requires |items| == |replies| && Positive(items)
    ensures AllPriced(replies) ==> r == Ok(Quote(LinesOf(items, replies), RoundedTotal(LinesOf(items, replies))))
    ensures !AllPriced(replies) ==>
              exists i :: 0 <= i < |replies| && AllPriced(replies[..i]) && !replies[i].Priced?
                && r == Err(if replies[i].ProductMissing? then ValidationError else DependencyUnavailable)
    ensures r.Ok? ==>
              && PricedAs(r.value.lines, items, replies)
              && (r.value.total < PRECISION_LIMIT <==> AnsweredTotal(items, replies) < PRECISION_LIMIT)
              && (r.value.total < PRECISION_LIMIT ==> r.value.total == AnsweredTotal(items, replies))
  {
    var total: nat := 0;
    var lines: seq<Line> := [];
    for n := 0 to |items|
      invariant AllPriced(replies[..n])
      invariant lines == LinesOf(items[..n], replies[..n])
      invariant total == RoundedTotal(lines)
    {
      match replies[n] {
        case ProductMissing => return Err(ValidationError);
        case Unreachable => return Err(DependencyUnavailable);
        case Priced(cents) =>
          var line := Line(items[n].product, items[n].quantity, cents);
          assert (lines + [line])[..|lines|] == lines;
          total := Round(total + Round(cents * items[n].quantity));
          lines := lines + [line];
      }
    }
    assert items[..|items|] == items && replies[..|replies|] == replies;
    LinesArePriced(items, replies);
    PricedTotal(lines, items, replies);
    TotalIsExact(lines);
    return Ok(Quote(lines, total));
  }

  lemma RoundOfSmall(c: nat)
    requires c < PRECISION_LIMIT
    ensures Round(c) == c
  {
  }

  /** Rounding never brings a number of more than 20 digits back under 10^20. */
  lemma {:induction false} RoundOfLarge(c: nat, unit: nat)
    requires unit == 1 || unit >= 10
    requires c >= PRECISION_LIMIT && c >= PRECISION_LIMIT / 10 * unit
    ensures RoundTo(c, unit) >= PRECISION_LIMIT
    decreases c - unit
  {
    if c < PRECISION_LIMIT * unit {
      RoundAtUnit(c, unit);
    } else {
      RoundOfLarge(c, 10 * unit);
    }
  }

  lemma RoundAtUnit(c: nat, unit: nat)
    requires unit >= 10 && c >= PRECISION_LIMIT / 10 * unit
    ensures (c + unit / 2) / unit * unit >= PRECISION_LIMIT
  {
    var q := (c + unit / 2) / unit;
    DivLower(c + unit / 2, PRECISION_LIMIT / 10, unit);
    MulMono(q, unit, PRECISION_LIMIT / 10, 10);
  }

  lemma DivLower(c: nat, q: nat, unit: nat)
    requires unit >= 1 && c >= q * unit
    ensures c / unit >= q
  {
    var d := c / unit;
    assert c == d * unit + c % unit;
    if d < q {
      assert (d + 1) * unit <= q * unit by { MulMono(q, unit, d + 1, unit); }
    }
  }

  lemma MulMono(a: nat, b: nat, c: nat, d: nat)
    requires a >= c && b >= d
    ensures a * b >= c * d
  {
  }

  lemma {:induction false} RoundTotalStep(a: nat, b: nat)
    ensures Round(a + Round(b)) < PRECISION_LIMIT ==> a + b < PRECISION_LIMIT && Round(a + Round(b)) == a + b
  {
    if a + b >= PRECISION_LIMIT {
      if b >= PRECISION_LIMIT { RoundOfLarge(b, 1); } else { RoundOfSmall(b); }
      RoundOfLarge(a + Round(b), 1);
    } else {
      RoundOfSmall(b);
      RoundOfSmall(a + b);
    }
  }

  /** The accumulated total is exact whenever the exact total, or equally the computed one, is below
      10^20 cents; below that bound no operation of the loop rounds. */
  lemma {:induction false} TotalIsExact(lines: seq<Line>)
    ensures RoundedTotal(lines) < PRECISION_LIMIT <==> ExactTotal(lines) < PRECISION_LIMIT
    ensures RoundedTotal(lines) < PRECISION_LIMIT ==> RoundedTotal(lines) == ExactTotal(lines)
  {
    if lines != [] {
      var front, last := lines[..|lines| - 1], lines[|lines| - 1];
      TotalIsExact(front);
      var amount: nat := last.price * last.quantity;
      RoundTotalStep(RoundedTotal(front), amount);
      if ExactTotal(lines) < PRECISION_LIMIT {
        assert ExactTotal(lines) == ExactTotal(front) + amount;
        assert ExactTotal(front) < PRECISION_LIMIT;
        RoundOfSmall(amount);
        RoundOfSmall(ExactTotal(front) + amount);
      }
    }
  }

  lemma {:induction false} ExactTotalBound(lines: seq<Line>, price: nat, quantity: nat)
    requires forall i :: 0 <= i < |lines| ==> lines[i].price <= price && lines[i].quantity <= quantity
    ensures ExactTotal(lines) <= |lines| * (price * quantity)
  {
    if lines != [] {
      var n := |lines| - 1;
      ExactTotalBound(lines[..n], price, quantity);
      assert lines[n].price * lines[n].quantity <= price * quantity by {
        MulMono(price, quantity, lines[n].price, lines[n].quantity);
      }
      assert |lines| * (price * quantity) == n * (price * quantity) + price * quantity;
    }
  }

  /** At most 100 lines of at most 1000 pieces at prices the column can hold: nothing is rounded. */
  lemma BoundedOrderIsExact(lines: seq<Line>)
    requires |lines| <= MAX_LINES
    requires forall i :: 0 <= i < |lines| ==> lines[i].price < COLUMN_LIMIT && lines[i].quantity <= MAX_QUANTITY
    ensures RoundedTotal(lines) == ExactTotal(lines)
  {
    ExactTotalBound(lines, COLUMN_LIMIT, 1000);
    assert |lines| * (COLUMN_LIMIT * 1000) <= 100 * (COLUMN_LIMIT * 1000);
    TotalIsExact(lines);
  }

  // ---------------------------------------------------------------------------------------------
  // The v2 response: amounts in minor units.

  datatype ProtoItem = ProtoItem(product: ProductId, quantity: nat, priceMinor: nat)
  datatype ProtoOrder = ProtoOrder(totalMinor: nat, items: seq<ProtoItem>)

  /** money(value): value * 100, with zero decimals. */
  function MinorUnits(cents: nat): nat {
    Round(cents)
  }

  function ToProto(total: nat, lines: seq<Line>): ProtoOrder {
    ProtoOrder(MinorUnits(total),
               seq(|lines|, i requires 0 <= i < |lines| =>
                 ProtoItem(lines[i].product, lines[i].quantity, MinorUnits(lines[i].price))))
  }

  function ProtoSum(items: seq<ProtoItem>): nat {
    if items == [] then 0
    else ProtoSum(items[..|items| - 1]) + items[|items| - 1].priceMinor * items[|items| - 1].quantity
  }

  lemma {:induction false} ProtoSumIsExact(total: nat, lines: seq<Line>)
    requires forall i :: 0 <= i < |lines| ==> lines[i].price < COLUMN_LIMIT
    ensures ProtoSum(ToProto(total, lines).items) == ExactTotal(lines)
  {
    var items := ToProto(total, lines).items;
    if lines != [] {
      var n := |lines| - 1;
      ProtoSumIsExact(total, lines[..n]);
      assert items[..n] == ToProto(total, lines[..n]).items;
      RoundOfSmall(lines[n].price);
    }
  }

  /** Each amount of the response is the amount of the same line, in minor units. */
  lemma ResponseBearsLines(total: nat, lines: seq<Line>)
    requires total < COLUMN_LIMIT && forall i :: 0 <= i < |lines| ==> lines[i].price < COLUMN_LIMIT
    ensures var r := ToProto(total, lines);
            && r.totalMinor == total && |r.items| == |lines|
            && forall i :: 0 <= i < |lines| ==>
                 && r.items[i].product == lines[i].product
                 && r.items[i].quantity == lines[i].quantity
                 && r.items[i].priceMinor == lines[i].price
  {
    RoundOfSmall(total);
    forall i | 0 <= i < |lines| ensures ToProto(total, lines).items[i].priceMinor == lines[i].price {
      RoundOfSmall(lines[i].price);
    }
  }

  /** For every order whose computed total fits its column, whatever the quantities, the response's total
      equals the sum of its own item prices times quantities, in minor units. */
  lemma {:induction false} ResponseAddsUp(lines: seq<Line>)
    requires RoundedTotal(lines) < COLUMN_LIMIT
    requires forall i :: 0 <= i < |lines| ==> lines[i].price < COLUMN_LIMIT
    ensures var r := ToProto(RoundedTotal(lines), lines); r.totalMinor == ProtoSum(r.items)
  {
    TotalIsExact(lines);
    ProtoSumIsExact(RoundedTotal(lines), lines);
    RoundOfSmall(RoundedTotal(lines));
  }
}

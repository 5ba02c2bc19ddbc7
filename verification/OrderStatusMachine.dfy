/** The order status graph, and the bound it puts on every order's history. */
module OrderStatusMachine {
  import opened Domain

  datatype OrderStatus = PENDING | CONFIRMED | PAID | SHIPPED | COMPLETED | CANCELLED

  function ValidTransitions(current: OrderStatus): seq<OrderStatus> {
    match current
    case PENDING => [CONFIRMED, CANCELLED]
    case CONFIRMED => [PAID, CANCELLED]
    case PAID => [SHIPPED, CANCELLED]
    case SHIPPED => [COMPLETED]
    case COMPLETED => []
    case CANCELLED => []
  }

  predicate CanTransition(current: OrderStatus, target: OrderStatus) {
    target in ValidTransitions(current)
  }

  function ValidateTransition(current: OrderStatus, target: OrderStatus): Result<()> {
    if CanTransition(current, target) then Ok(()) else Err(ValidationError)
  }

  /** Every edge of the graph raises the rank. */
  function Rank(s: OrderStatus): nat {
    match s
    case PENDING => 0
    case CONFIRMED => 1
    case PAID => 2
    case SHIPPED => 3
    case COMPLETED => 4
    case CANCELLED => 4
  }

  /** Statuses whose reservation the reconciler commits. */
  predicate Settled(s: OrderStatus) {
    s == PAID || s == SHIPPED || s == COMPLETED
  }

  datatype Writer = Admin | Customer | Reconciler | StockFailureHandler

  datatype Change = Change(from: OrderStatus, to: OrderStatus, writer: Writer)

  predicate AllowedChange(c: Change) {
    && CanTransition(c.from, c.to)
    && (c.writer != Admin ==> c.to == CANCELLED && (c.from == PENDING || c.from == CONFIRMED))
  }

  /** A path through the graph from PENDING to `current`, made of allowed changes. */
  ghost predicate IsHistory(h: seq<Change>, current: OrderStatus) {
    if h == [] then current == PENDING
    else
      var last := h[|h| - 1];
      AllowedChange(last) && last.to == current && IsHistory(h[..|h| - 1], last.from)
  }

  lemma HistoryExtends(h: seq<Change>, c: Change)
    requires IsHistory(h, c.from) && AllowedChange(c)
    ensures IsHistory(h + [c], c.to)
  {
    assert (h + [c])[..|h|] == h;
  }

  /** An order changes status at most four times, and never again once it is final. */
  lemma {:induction false} HistoryBound(h: seq<Change>, current: OrderStatus)
    requires IsHistory(h, current)
    ensures |h| <= Rank(current) <= 4
  {
    if h != [] { HistoryBound(h[..|h| - 1], h[|h| - 1].from); }
  }

  /** Every step of a history is an edge of the table, whoever wrote it. */
  lemma {:induction false} HistoryStep(h: seq<Change>, current: OrderStatus, i: nat)
    requires IsHistory(h, current) && i < |h|
    ensures AllowedChange(h[i])
    ensures h[i].from == (if i == 0 then PENDING else h[i - 1].to)
    ensures i == |h| - 1 ==> h[i].to == current
  {
    var front := h[..|h| - 1];
    if i < |h| - 1 {
      HistoryStep(front, h[|h| - 1].from, i);
    } else if i > 0 {
      HistoryStep(front, h[|h| - 1].from, i - 1);
    }
  }

  /** What the table says: an order advances by exactly one rank at a time, or is cancelled before it is
      shipped; COMPLETED and CANCELLED are final. */
  lemma TransitionsExactly(x: OrderStatus, y: OrderStatus)
    ensures CanTransition(x, y) <==>
              if y == CANCELLED then x in {PENDING, CONFIRMED, PAID}
              else x != CANCELLED && Rank(y) == Rank(x) + 1
  {
  }
}

/**
 * The order of the pure-domain skill (`examples/order_domain.py`), which records
 * events as it changes, and the mappers that store it (`SKILL.md`, section 5).
 */
module OrderDomain {
  import opened Prelude
  import opened Codec

  datatype OrderStatus = Draft | Placed | Paid | Cancelled

  datatype OrderError = NegativeUnitPrice | InvalidCurrency | CurrencyMismatch | AlreadyPlaced | EmptyOrder

  // ---- value objects ------------------------------------------------------------------

  predicate IsCurrency(s: string) { |s| == 3 && forall i | 0 <= i < 3 :: IsLetter(s[i]) }

  /** The amount is a scaled decimal of either sign. */
  datatype Money = Money(amount: int, currency: string)

  function MakeMoney(amount: int, currency: string): Result<Money, OrderError> {
    if IsCurrency(currency) then Ok(Money(amount, currency)) else Err(InvalidCurrency)
  }

  function Add(a: Money, b: Money): Result<Money, OrderError> {
    if a.currency != b.currency then Err(CurrencyMismatch) else MakeMoney(a.amount + b.amount, a.currency)
  }

  datatype OrderLine = OrderLine(productId: Uuid, quantity: int, unitPrice: Money)

  predicate ValidLine(l: OrderLine) { l.unitPrice.amount >= 0 && IsCurrency(l.unitPrice.currency) }

  /** Building the price, then the line, as their `__post_init__` allow. */
  function MakeLine(productId: Uuid, quantity: int, amount: int, currency: string): (r: Result<OrderLine, OrderError>)
    ensures r.Ok? <==> amount >= 0 && IsCurrency(currency)
    ensures r.Ok? ==> ValidLine(r.value)
  {
    match MakeMoney(amount, currency)
    case Err(e) => Err(e)
    case Ok(m) => if amount < 0 then Err(NegativeUnitPrice) else Ok(OrderLine(productId, quantity, m))
  }

  function LineSubtotal(l: OrderLine): Money { Money(l.unitPrice.amount * l.quantity, l.unitPrice.currency) }

  type Lines = ls: seq<OrderLine> | forall i | 0 <= i < |ls| :: ValidLine(ls[i])

  /** `total`: zero US dollars without lines; adding raises at the first foreign currency. */
  function Total(lines: Lines): Result<Money, OrderError> {
    if lines == [] then Ok(Money(0, "USD"))
    else
      var n := |lines| - 1;
      if n == 0 then Ok(LineSubtotal(lines[0]))
      else match Total(lines[..n])
        case Ok(running) => Add(running, LineSubtotal(lines[n]))
        case Err(e) => Err(e)
  }

  predicate OneCurrency(lines: seq<OrderLine>) {
    forall i, j | 0 <= i < j < |lines| :: lines[i].unitPrice.currency == lines[j].unitPrice.currency
  }

  function SumAmounts(lines: seq<OrderLine>): int {
    if lines == [] then 0 else SumAmounts(lines[..|lines| - 1]) + LineSubtotal(lines[|lines| - 1]).amount
  }

  function CurrencyOf(lines: seq<OrderLine>): string {
    if lines == [] then "USD" else lines[0].unitPrice.currency
  }

  /** The running sum succeeds exactly on one currency, and is then the sum in that currency. */
  lemma {:induction false} TotalMeans(lines: Lines)
    ensures Total(lines) == if OneCurrency(lines) then Ok(Money(SumAmounts(lines), CurrencyOf(lines))) else Err(CurrencyMismatch)
  {
    if |lines| > 1 {
      var n := |lines| - 1;
      TotalMeans(lines[..n]);
      assert ValidLine(lines[0]);
      OneCurrencySplit(lines);
    } else if lines != [] {
      assert SumAmounts(lines[..0]) == 0;
    }
  }

  lemma OneCurrencySplit(lines: seq<OrderLine>)
    requires |lines| > 1
    ensures var n := |lines| - 1;
            OneCurrency(lines) <==> OneCurrency(lines[..n]) && lines[0].unitPrice.currency == lines[n].unitPrice.currency
  {
    var n := |lines| - 1;
    if OneCurrency(lines[..n]) && lines[0].unitPrice.currency == lines[n].unitPrice.currency {
      forall i, j | 0 <= i < j < |lines|
        ensures lines[i].unitPrice.currency == lines[j].unitPrice.currency
      {
        assert i > 0 ==> lines[..n][0].unitPrice.currency == lines[..n][i].unitPrice.currency;
        assert 0 < j < n ==> lines[..n][0].unitPrice.currency == lines[..n][j].unitPrice.currency;
      }
    }
    if OneCurrency(lines) {
      forall i, j | 0 <= i < j < n
        ensures lines[..n][i].unitPrice.currency == lines[..n][j].unitPrice.currency
      {
        assert lines[i].unitPrice.currency == lines[j].unitPrice.currency;
      }
    }
  }

  // ---- line order does not matter -------------------------------------------------------

  lemma {:induction false} SumConcat(a: seq<OrderLine>, b: seq<OrderLine>)
    ensures SumAmounts(a + b) == SumAmounts(a) + SumAmounts(b)
  {
    if b == [] {
      assert a + b == a;
    } else {
      assert (a + b)[..|a| + |b| - 1] == a + b[..|b| - 1];
      SumConcat(a, b[..|b| - 1]);
    }
  }

  lemma SumMiddle(front: seq<OrderLine>, x: OrderLine, tail: seq<OrderLine>)
    ensures SumAmounts(front + [x] + tail) == SumAmounts(front + tail) + LineSubtotal(x).amount
  {
    SumConcat(front + [x], tail);
    SumConcat(front, tail);
    assert (front + [x])[..|front|] == front;
  }

  lemma {:induction false} SumPermutes(a: seq<OrderLine>, b: seq<OrderLine>)
    requires multiset(a) == multiset(b)
    ensures SumAmounts(a) == SumAmounts(b)
    decreases |a|
  {
    if a == [] {
      assert |multiset(b)| == 0;
    } else {
      var i := MultisetPeel(a, b);
      var front, x, tail := b[..i], b[i], b[i + 1..];
      assert b == front + [x] + tail;
      SumMiddle(front, x, tail);
      SumPermutes(a[..|a| - 1], front + tail);
    }
  }

  lemma OneCurrencyPermutes(a: seq<OrderLine>, b: seq<OrderLine>)
    requires multiset(a) == multiset(b) && OneCurrency(a)
    ensures OneCurrency(b) && CurrencyOf(a) == CurrencyOf(b)
  {
    forall i | 0 <= i < |b|
      ensures b[i].unitPrice.currency == CurrencyOf(a)
    {
      assert b[i] in multiset(a);
    }
    if b == [] {
      assert |multiset(a)| == 0;
    }
  }

  lemma TotalPermutes(a: Lines, b: Lines)
    requires multiset(a) == multiset(b)
    ensures Total(a) == Total(b)
  {
    TotalMeans(a);
    TotalMeans(b);
    SumPermutes(a, b);
    if OneCurrency(a) { OneCurrencyPermutes(a, b); }
    if OneCurrency(b) { OneCurrencyPermutes(b, a); }
  }

  // ---- the aggregate ----------------------------------------------------------------------

  datatype Event =
    | OrderPlaced(orderId: Uuid, customerId: Uuid, placedAt: int, total: Money)
    | OrderCancelled(orderId: Uuid, cancelledAt: int, reason: string)

  datatype Order = Order(id: Uuid, customerId: Uuid, status: OrderStatus, lines: Lines, events: seq<Event>)

  function Open(id: Uuid, customerId: Uuid): Order { Order(id, customerId, Draft, [], []) }

  datatype Op =
    | AddLine(productId: Uuid, quantity: int, amount: int, currency: string)
    | Place(now: int)
    | Cancel(reason: string, now: int)
    | PullEvents

  datatype Reply = Done | Raised(e: OrderError) | Drained(events: seq<Event>)

  function DoAddLine(o: Order, l: OrderLine): (Order, Reply)
    requires ValidLine(l)
  {
    if o.status != Draft then (o, Raised(AlreadyPlaced)) else (o.(lines := o.lines + [l]), Done)
  }

  /** The status is set before `total` can raise. */
  function DoPlace(o: Order, now: int): (Order, Reply) {
    if o.status != Draft then (o, Raised(AlreadyPlaced))
    else if o.lines == [] then (o, Raised(EmptyOrder))
    else match Total(o.lines)
      case Ok(total) => (o.(status := Placed, events := o.events + [OrderPlaced(o.id, o.customerId, now, total)]), Done)
      case Err(e) => (o.(status := Placed), Raised(e))
  }

  function DoCancel(o: Order, reason: string, now: int): (Order, Reply) {
    if o.status == Cancelled then (o, Done)
    else (o.(status := Cancelled, events := o.events + [OrderCancelled(o.id, now, reason)]), Done)
  }

  function Step(o: Order, op: Op): (Order, Reply) {
    match op
    case AddLine(p, q, a, c) => (match MakeLine(p, q, a, c) case Ok(l) => DoAddLine(o, l) case Err(e) => (o, Raised(e)))
    case Place(now) => DoPlace(o, now)
    case Cancel(reason, now) => DoCancel(o, reason, now)
    case PullEvents => (o.(events := []), Drained(o.events))
  }

  function After(o: Order, ops: seq<Op>): Order {
    if ops == [] then o else Step(After(o, ops[..|ops| - 1]), ops[|ops| - 1]).0
  }

  function Replies(o: Order, ops: seq<Op>): (r: seq<Reply>)
    ensures |r| == |ops|
  {
    if ops == [] then []
    else Replies(o, ops[..|ops| - 1]) + [Step(After(o, ops[..|ops| - 1]), ops[|ops| - 1]).1]
  }

  // ---- conservation ---------------------------------------------------------------------

  /** All drained batches, joined. */
  function DrainedOf(replies: seq<Reply>): seq<Event> {
    if replies == [] then []
    else
      var n := |replies| - 1;
      DrainedOf(replies[..n]) + (if replies[n].Drained? then replies[n].events else [])
  }

  /** The fact, if any, that an operation makes true, told by the status alone. */
  function Fact(o: Order, op: Op): seq<Event> {
    var p := Step(o, op).0;
    if o.status == Draft && p.status == Placed && Total(p.lines).Ok? then
      [OrderPlaced(o.id, o.customerId, op.now, Total(p.lines).value)]
    else if o.status != Cancelled && p.status == Cancelled then [OrderCancelled(o.id, op.now, op.reason)]
    else []
  }

  /** The emission history of a run. */
  function History(o: Order, ops: seq<Op>): seq<Event> {
    if ops == [] then []
    else History(o, ops[..|ops| - 1]) + Fact(After(o, ops[..|ops| - 1]), ops[|ops| - 1])
  }

  /** One operation appends its fact, or hands everything over. */
  lemma StepEmits(o: Order, op: Op)
    ensures var (p, reply) := Step(o, op);
            if op.PullEvents? then p.events == [] && reply == Drained(o.events) && Fact(o, op) == []
            else p.events == o.events + Fact(o, op) && !reply.Drained?
  {
  }

  /** Nothing is lost, repeated or reordered: drained batches, then pending events, are the history. */
  lemma {:induction false} EventsConserved(o: Order, ops: seq<Op>)
    ensures DrainedOf(Replies(o, ops)) + After(o, ops).events == o.events + History(o, ops)
  {
    if ops != [] {
      var n := |ops| - 1;
      EventsConserved(o, ops[..n]);
      hide Step, Fact;
      var p := After(o, ops[..n]);
      assert Replies(o, ops)[..n] == Replies(o, ops[..n]);
      StepEmits(p, ops[n]);
      Regroup(DrainedOf(Replies(o, ops[..n])), p.events, Fact(p, ops[n]), o.events, History(o, ops[..n]));
    }
  }

  lemma Regroup(d: seq<Event>, p: seq<Event>, f: seq<Event>, o: seq<Event>, h: seq<Event>)
    requires d + p == o + h
    ensures (d + p) + [] == o + (h + []) && (d + []) + (p + f) == o + (h + f)
  {
    assert d + (p + f) == (d + p) + f;
    assert o + (h + f) == (o + h) + f;
    assert d + [] == d && h + [] == h;
  }

  /** At most one OrderPlaced, then at most one OrderCancelled, as the status says. */
  predicate HistoryFits(o: Order, h: seq<Event>) {
    var placed := if h != [] && h[0].OrderPlaced? then 1 else 0;
    && |h| == placed + (if o.status == Cancelled then 1 else 0)
    && (o.status == Cancelled ==> h[placed].OrderCancelled? && h[placed].orderId == o.id)
    && (placed == 1 ==>
          && h[0].orderId == o.id && h[0].customerId == o.customerId
          && o.lines != [] && Total(o.lines) == Ok(h[0].total))
    && (o.status == Draft ==> h == [])
    && (o.status == Placed ==> o.lines != [] && (placed == 1 <==> OneCurrency(o.lines)))
    && o.status != Paid
  }

  lemma FactFits(o: Order, h: seq<Event>, op: Op)
    requires HistoryFits(o, h)
    ensures HistoryFits(Step(o, op).0, h + Fact(o, op))
  {
    TotalMeans(o.lines);
    hide Total, OneCurrency;
    if Fact(o, op) == [] {
      assert h + Fact(o, op) == h;
    } else {
      assert (h + Fact(o, op))[|h|] == Fact(o, op)[0];
      assert h != [] ==> (h + Fact(o, op))[0] == h[0];
    }
  }

  /**
   * Over every run of a fresh order: the shape of the history, and the placed total
   * is the order's total in the run's last state, hence ever after.
   */
  lemma {:induction false} HistoryShape(id: Uuid, customer: Uuid, ops: seq<Op>)
    ensures HistoryFits(After(Open(id, customer), ops), History(Open(id, customer), ops))
  {
    if ops != [] {
      HistoryShape(id, customer, ops[..|ops| - 1]);
      FactFits(After(Open(id, customer), ops[..|ops| - 1]), History(Open(id, customer), ops[..|ops| - 1]), ops[|ops| - 1]);
    }
  }

  /**
   * Placing announces the order exactly when its lines share a currency; otherwise
   * the order is left PLACED, and no later operation ever announces it.
   */
  lemma {:induction false} AnnouncedIff(o: Order, now: int, later: seq<Op>)
    requires o.status == Draft && o.lines != []
    ensures var p := Step(o, Place(now));
            && p.0.status == Placed
            && (p.1 == Done <==> OneCurrency(o.lines))
            && (p.1 != Done <==> p.1 == Raised(CurrencyMismatch))
            && (Fact(o, Place(now)) != [] <==> OneCurrency(o.lines))
            && (forall i | 0 <= i < |History(p.0, later)| :: !History(p.0, later)[i].OrderPlaced?)
  {
    TotalMeans(o.lines);
    NeverPlacedAgain(Step(o, Place(now)).0, later);
  }

  lemma {:induction false} NeverPlacedAgain(o: Order, ops: seq<Op>)
    requires o.status != Draft
    ensures After(o, ops).status != Draft
    ensures forall i | 0 <= i < |History(o, ops)| :: !History(o, ops)[i].OrderPlaced?
  {
    if ops != [] {
      NeverPlacedAgain(o, ops[..|ops| - 1]);
    }
  }

  /** Two currencies on one order: placed, and never announced. */
  lemma MixedCurrenciesGoUnannounced(id: Uuid, customer: Uuid, product: Uuid)
    ensures var ops := [AddLine(product, 1, 500, "USD"), AddLine(product, 1, 500, "EUR"), Place(7)];
            var o := Open(id, customer);
            After(o, ops).status == Placed && History(o, ops) == [] && Replies(o, ops)[2] == Raised(CurrencyMismatch)
  {
    var o := Open(id, customer);
    var a, b := AddLine(product, 1, 500, "USD"), AddLine(product, 1, 500, "EUR");
    var usd, eur := OrderLine(product, 1, Money(500, "USD")), OrderLine(product, 1, Money(500, "EUR"));
    MixedSteps(o, usd, eur);
    hide Step, Fact;
    var ops := [a, b, Place(7)];
    assert ops[..2] == [a, b] && [a, b][..1] == [a] && [a][..0] == [];
    assert After(o, []) == o && History(o, []) == [];
    assert After(o, [a]) == o.(lines := [usd]) && History(o, [a]) == [];
    assert After(o, [a, b]) == o.(lines := [usd, eur]) && History(o, [a, b]) == [];
  }

  lemma MixedSteps(o: Order, usd: OrderLine, eur: OrderLine)
    requires o.status == Draft && o.lines == []
    requires usd == OrderLine(usd.productId, 1, Money(500, "USD")) && eur == OrderLine(usd.productId, 1, Money(500, "EUR"))
    ensures var a, b := AddLine(usd.productId, 1, 500, "USD"), AddLine(usd.productId, 1, 500, "EUR");
            && IsCurrency("USD") && IsCurrency("EUR")
            && var p, q := o.(lines := [usd]), o.(lines := [usd, eur]);
            && Step(o, a) == (p, Done) && Fact(o, a) == []
            && Step(p, b) == (q, Done) && Fact(p, b) == []
            && Step(q, Place(7)) == (q.(status := Placed), Raised(CurrencyMismatch)) && Fact(q, Place(7)) == []
  {
    assert IsCurrency("USD") && IsCurrency("EUR");
    assert "USD"[0] != "EUR"[0];
    TotalMeans([usd, eur]);
    assert !OneCurrency([usd, eur]) by {
      assert [usd, eur][0].unitPrice.currency != [usd, eur][1].unitPrice.currency;
    }
    hide Total, OneCurrency;
    assert o.lines + [usd] == [usd] && [usd] + [eur] == [usd, eur];
  }

  // ---- a run told by its operations alone ------------------------------------------------------

  /** The lines accepted before the order was first placed or cancelled. */
  function LinesAdded(ops: seq<Op>): Lines
    decreases |ops|, 0
  {
    if ops == [] then []
    else
      var n := |ops| - 1;
      if ops[n].AddLine? && ops[n].amount >= 0 && IsCurrency(ops[n].currency) && !Closed(ops[..n])
      then LinesAdded(ops[..n]) + [OrderLine(ops[n].productId, ops[n].quantity, Money(ops[n].amount, ops[n].currency))]
      else LinesAdded(ops[..n])
  }

  /** When it was first placed with lines, not having been cancelled before. */
  function PlacedWhen(ops: seq<Op>): Option<int>
    decreases |ops|, 0
  {
    if ops == [] then None
    else
      var n := |ops| - 1;
      if ops[n].Place? && !Closed(ops[..n]) && LinesAdded(ops[..n]) != [] then Some(ops[n].now) else PlacedWhen(ops[..n])
  }

  /** When and why it was first cancelled. */
  function CancelledWhen(ops: seq<Op>): Option<(int, string)> {
    if ops == [] then None
    else
      var n := |ops| - 1;
      if CancelledWhen(ops[..n]).Some? then CancelledWhen(ops[..n])
      else if ops[n].Cancel? then Some((ops[n].now, ops[n].reason))
      else None
  }

  predicate Closed(ops: seq<Op>)
    decreases |ops|, 1
  {
    PlacedWhen(ops).Some? || CancelledWhen(ops).Some?
  }

  /** What there is to announce: the placing, if the lines share a currency, and the cancelling. */
  function Announced(id: Uuid, customer: Uuid, ops: seq<Op>): seq<Event> {
    var lines := LinesAdded(ops);
    (if PlacedWhen(ops).Some? && OneCurrency(lines)
     then [OrderPlaced(id, customer, PlacedWhen(ops).value, Money(SumAmounts(lines), CurrencyOf(lines)))] else [])
    + (if CancelledWhen(ops).Some? then [OrderCancelled(id, CancelledWhen(ops).value.0, CancelledWhen(ops).value.1)] else [])
  }

  predicate Told(ops: seq<Op>, o: Order) {
    && o.lines == LinesAdded(ops)
    && o.status == (if CancelledWhen(ops).Some? then Cancelled else if PlacedWhen(ops).Some? then Placed else Draft)
  }

  lemma ToldStep(ops: seq<Op>, o: Order)
    requires ops != [] && Told(ops[..|ops| - 1], o)
    ensures Told(ops, Step(o, ops[|ops| - 1]).0)
    ensures Step(o, ops[|ops| - 1]).0.id == o.id && Step(o, ops[|ops| - 1]).0.customerId == o.customerId
  {
    hide Total;
    var n := |ops| - 1;
    assert (o.status == Draft) == !Closed(ops[..n]);
  }

  lemma FactTold(ops: seq<Op>, o: Order)
    requires ops != [] && Told(ops[..|ops| - 1], o)
    ensures Announced(o.id, o.customerId, ops) == Announced(o.id, o.customerId, ops[..|ops| - 1]) + Fact(o, ops[|ops| - 1])
  {
    TotalMeans(o.lines);
    hide Total, OneCurrency, SumAmounts, CurrencyOf;
    var n := |ops| - 1;
    assert (o.status == Draft) == !Closed(ops[..n]);
    if ops[n].AddLine? && PlacedWhen(ops).Some? { assert LinesAdded(ops) == LinesAdded(ops[..n]); }
  }

  /**
   * Lines, status and everything that was ever announced, told by the operations:
   * the lines accepted before the first placing or cancelling, the first placing of a
   * draft with lines, announced if they share a currency, and the first cancelling.
   */
  lemma {:induction false} RunTold(id: Uuid, customer: Uuid, ops: seq<Op>)
    ensures var o := After(Open(id, customer), ops);
            o.id == id && o.customerId == customer && Told(ops, o)
    ensures History(Open(id, customer), ops) == Announced(id, customer, ops)
  {
    if ops != [] {
      var n := |ops| - 1;
      RunTold(id, customer, ops[..n]);
      var o := After(Open(id, customer), ops[..n]);
      ToldStep(ops, o);
      FactTold(ops, o);
      hide Told, Announced, Step, Fact, Open;
    }
  }

  // ---- storing ------------------------------------------------------------------------------

  datatype LineModel = LineModel(productId: Uuid, quantity: int, unitPrice: int, currency: string)

  datatype OrderRecord = OrderRecord(id: Uuid, customerId: Uuid, status: string, currency: string, lines: seq<LineModel>)

  function StatusText(s: OrderStatus): string {
    match s
    case Draft => "draft"
    case Placed => "placed"
    case Paid => "paid"
    case Cancelled => "cancelled"
  }

  /** `OrderStatus(text)`; an unknown text raises. */
  function ParseStatus(s: string): Option<OrderStatus> {
    if s == "draft" then Some(Draft)
    else if s == "placed" then Some(Placed)
    else if s == "paid" then Some(Paid)
    else if s == "cancelled" then Some(Cancelled)
    else None
  }

  function FromLine(l: OrderLine): LineModel { LineModel(l.productId, l.quantity, l.unitPrice.amount, l.unitPrice.currency) }

  function FromLines(ls: seq<OrderLine>): (r: seq<LineModel>)
    ensures |r| == |ls| && forall i | 0 <= i < |r| :: r[i] == FromLine(ls[i])
  {
    seq(|ls|, i requires 0 <= i < |ls| => FromLine(ls[i]))
  }

  function FromDomain(o: Order): OrderRecord {
    OrderRecord(o.id, o.customerId, StatusText(o.status), CurrencyOf(o.lines), FromLines(o.lines))
  }

  /** Every line is validated again on its way out. */
  function ToLines(ms: seq<LineModel>): Result<Lines, OrderError> {
    if ms == [] then Ok([])
    else
      var n := |ms| - 1;
      match ToLines(ms[..n])
      case Err(e) => Err(e)
      case Ok(front) =>
        match MakeLine(ms[n].productId, ms[n].quantity, ms[n].unitPrice, ms[n].currency)
        case Ok(l) => Ok(front + [l])
        case Err(e) => Err(e)
  }

  /** `rows`: the line rows in whatever order the relationship loads them. */
  function ToDomain(r: OrderRecord, rows: seq<LineModel>): Option<Order> {
    match (ParseStatus(r.status), ToLines(rows))
    case (Some(s), Ok(lines)) => Some(Order(r.id, r.customerId, s, lines, []))
    case _ => None
  }

  /** The two orders can differ in the order of their lines only. */
  predicate Similar(o: Order, p: Order) {
    o.(lines := []) == p.(lines := []) && multiset(o.lines) == multiset(p.lines)
  }

  lemma {:induction false} LinesReload(ls: Lines)
    ensures ToLines(FromLines(ls)) == Ok(ls)
  {
    if ls != [] {
      var n := |ls| - 1;
      LinesReload(ls[..n]);
      assert FromLines(ls)[..n] == FromLines(ls[..n]);
      assert ValidLine(ls[n]);
      assert ls == ls[..n] + [ls[n]];
    }
  }

  /** Any reordering of stored rows is the image of a reordering of the lines. */
  lemma {:induction false} RowsAreLines(ls: Lines, rows: seq<LineModel>) returns (loaded: Lines)
    requires multiset(rows) == multiset(FromLines(ls))
    ensures rows == FromLines(loaded) && multiset(loaded) == multiset(ls)
    decreases |rows|
  {
    if rows == [] {
      assert |multiset(FromLines(ls))| == 0;
      loaded := [];
    } else {
      var n := |rows| - 1;
      var i := MultisetPeel(rows, FromLines(ls));
      var rest := WithoutRow(ls, i);
      var front := RowsAreLines(rest, rows[..n]);
      loaded := JoinRow(front, ls, i, rest);
      assert rows == rows[..n] + [rows[n]];
    }
  }

  lemma WithoutRow(ls: Lines, i: nat) returns (rest: Lines)
    requires i < |ls|
    ensures rest == ls[..i] + ls[i + 1..]
    ensures FromLines(rest) == FromLines(ls)[..i] + FromLines(ls)[i + 1..]
  {
    rest := ls[..i] + ls[i + 1..];
  }

  lemma JoinRow(front: Lines, ls: Lines, i: nat, rest: Lines) returns (all: Lines)
    requires i < |ls| && rest == ls[..i] + ls[i + 1..] && multiset(front) == multiset(rest)
    ensures FromLines(all) == FromLines(front) + [FromLines(ls)[i]]
    ensures multiset(all) == multiset(ls)
  {
    all := front + [ls[i]];
    MultisetRemoveAt(ls, i);
  }

  /** Loading always succeeds, and gives the order back up to line order and pending events. */
  lemma StoreLoad(o: Order, rows: seq<LineModel>)
    requires multiset(rows) == multiset(FromDomain(o).lines)
    ensures ToDomain(FromDomain(o), rows).Some?
    ensures Similar(ToDomain(FromDomain(o), rows).value, o.(events := []))
    ensures rows == FromDomain(o).lines ==> ToDomain(FromDomain(o), rows) == Some(o.(events := []))
    ensures FromDomain(o).currency == if o.lines == [] then "USD" else o.lines[0].unitPrice.currency
    ensures FromDomain(o).status in {"draft", "placed", "paid", "cancelled"}
    ensures o.status == Draft <==> FromDomain(o).status == "draft"
    ensures o.status == Placed <==> FromDomain(o).status == "placed"
    ensures o.status == Paid <==> FromDomain(o).status == "paid"
  {
    StatusTexts(o.status);
    var loaded := RowsAreLines(o.lines, rows);
    LinesReload(loaded);
    LinesReload(o.lines);
    StatusReload(o.status);
    hide StatusText, ParseStatus, ToLines, FromLines, CurrencyOf;
  }

  lemma StatusReload(s: OrderStatus)
    ensures ParseStatus(StatusText(s)) == Some(s)
  {
    assert "draft"[0] != "placed"[0] && "placed"[0] != "cancelled"[0] && "placed"[1] != "paid"[1];
  }

  lemma StatusTexts(s: OrderStatus)
    ensures StatusText(s) in {"draft", "placed", "paid", "cancelled"}
    ensures s == Draft <==> StatusText(s) == "draft"
    ensures s == Placed <==> StatusText(s) == "placed"
    ensures s == Paid <==> StatusText(s) == "paid"
  {
    assert "draft"[0] != "placed"[0] && "placed"[0] != "cancelled"[0] && "placed"[1] != "paid"[1];
    assert "draft"[0] != "cancelled"[0] && "draft"[0] != "paid"[0] && "paid"[0] != "cancelled"[0];
  }

  lemma StepSimilar(o: Order, p: Order, op: Op)
    requires Similar(o, p)
    ensures Step(o, op).1 == Step(p, op).1 && Similar(Step(o, op).0, Step(p, op).0)
  {
    TotalPermutes(o.lines, p.lines);
    if o.lines == [] || p.lines == [] {
      assert |multiset(o.lines)| == |o.lines| && |multiset(p.lines)| == |p.lines|;
    }
  }

  lemma {:induction false} RunSimilar(o: Order, p: Order, ops: seq<Op>)
    requires Similar(o, p)
    ensures Replies(o, ops) == Replies(p, ops) && Similar(After(o, ops), After(p, ops))
  {
    if ops != [] {
      RunSimilar(o, p, ops[..|ops| - 1]);
      StepSimilar(After(o, ops[..|ops| - 1]), After(p, ops[..|ops| - 1]), ops[|ops| - 1]);
    }
  }

  predicate SameReplies(o: Order, p: Order, ops: seq<Op>) { Replies(o, ops) == Replies(p, ops) }

  /** Saving and loading goes unnoticed by every later run if and only if the events were drained first. */
  lemma SaveLoadUnnoticedIff(o: Order, rows: seq<LineModel>)
    requires multiset(rows) == multiset(FromDomain(o).lines)
    ensures ToDomain(FromDomain(o), rows).Some?
    ensures (forall ops :: SameReplies(o, ToDomain(FromDomain(o), rows).value, ops)) <==> o.events == []
  {
    StoreLoad(o, rows);
    hide StatusText, ParseStatus, ToLines, FromLines;
    var p := ToDomain(FromDomain(o), rows).value;
    if o.events == [] {
      assert o.(events := []) == o;
      forall ops
        ensures SameReplies(o, p, ops)
      {
        RunSimilar(p, o, ops);
      }
    } else {
      var pull := [PullEvents];
      assert pull[..0] == [];
      assert Replies(o, pull)[0] == Drained(o.events) && Replies(p, pull)[0] == Drained([]);
      assert !SameReplies(o, p, pull);
    }
  }

  // ---- the class --------------------------------------------------------------------------

  class OrderEntity {
    const id: Uuid
    const customerId: Uuid
    var status: OrderStatus
    var lines: Lines
    var events: seq<Event>

    function View(): Order
      reads this
    {
      Order(id, customerId, status, lines, events)
    }

    constructor New(id: Uuid, customerId: Uuid)
      ensures View() == Open(id, customerId)
    {
      this.id, this.customerId := id, customerId;
      status, lines, events := Draft, [], [];
    }

    constructor Load(o: Order)
      ensures View() == o
    {
      id, customerId, status, lines, events := o.id, o.customerId, o.status, o.lines, o.events;
    }

    method ComputeTotal() returns (r: Result<Money, OrderError>)
      ensures r == Total(lines)
      ensures r.Ok? <==> OneCurrency(lines)
      ensures r.Ok? ==> r.value.amount == SumAmounts(lines)
    {
      TotalMeans(lines);
      if lines == [] {
        return Ok(Money(0, "USD"));
      }
      var running := LineSubtotal(lines[0]);
      assert lines[..|lines|] == lines;
      for i := 1 to |lines|
        invariant Total(lines[..i]) == Ok(running)
      {
        assert lines[..i + 1][..i] == lines[..i];
        var sum := Add(running, LineSubtotal(lines[i]));
        if sum.Err? {
          FailsForGood(lines, i + 1);
          return Err(sum.error);
        }
        running := sum.value;
      }
      r := Ok(running);
    }

    method AddLine(l: OrderLine) returns (r: Reply)
      requires ValidLine(l)
      modifies this
      ensures (View(), r) == DoAddLine(old(View()), l)
      ensures old(status) == Draft ==> r == Done && lines == old(lines) + [l]
      ensures old(status) != Draft ==> r == Raised(AlreadyPlaced) && lines == old(lines)
      ensures unchanged(`status, `events)
    {
      if status != Draft {
        return Raised(AlreadyPlaced);
      }
      lines := lines + [l];
      r := Done;
    }

    method Place(now: int) returns (r: Reply)
      modifies this
      ensures (View(), r) == DoPlace(old(View()), now)
      ensures old(status) != Draft ==> r == Raised(AlreadyPlaced) && unchanged(this)
      ensures old(status) == Draft && lines == [] ==> r == Raised(EmptyOrder) && unchanged(this)
      ensures old(status) == Draft && lines != [] ==>
                && status == Placed && lines == old(lines)
                && if OneCurrency(lines)
                   then r == Done && events == old(events) + [OrderPlaced(id, customerId, now, Money(SumAmounts(lines), CurrencyOf(lines)))]
                   else r == Raised(CurrencyMismatch) && events == old(events)
    {
      TotalMeans(lines);
      if status != Draft {
        return Raised(AlreadyPlaced);
      }
      if lines == [] {
        return Raised(EmptyOrder);
      }
      status := Placed;
      var total := ComputeTotal();
      if total.Err? {
        return Raised(total.error);
      }
      events := events + [OrderPlaced(id, customerId, now, total.value)];
      r := Done;
    }

    method Cancel(reason: string, now: int) returns (r: Reply)
      modifies this
      ensures (View(), r) == DoCancel(old(View()), reason, now)
      ensures r == Done && status == Cancelled && lines == old(lines)
      ensures events == if old(status) == Cancelled then old(events) else old(events) + [OrderCancelled(id, now, reason)]
    {
      if status == Cancelled {
        return Done;
      }
      status := Cancelled;
      events := events + [OrderCancelled(id, now, reason)];
      r := Done;
    }

    method PullEvents() returns (drained: seq<Event>)
      modifies this
      ensures (View(), Drained(drained)) == Step(old(View()), Op.PullEvents)
      ensures drained == old(events) && events == [] && unchanged(`status, `lines)
    {
      drained, events := events, [];
    }
  }

  /** Once the running sum has raised, the whole total raises. */
  lemma {:induction false} FailsForGood(lines: Lines, k: nat)
    requires k <= |lines| && Total(lines[..k]).Err?
    ensures Total(lines) == Total(lines[..k])
    decreases |lines| - k
  {
    if k < |lines| {
      assert lines[..k + 1][..k] == lines[..k];
      FailsForGood(lines, k + 1);
    } else {
      assert lines[..k] == lines;
    }
  }
}

/** The order aggregate of the aggregate-and-repo skill: `examples/order_model.py`. */
module OrderModel {
  import opened Prelude
  import opened Codec

  datatype OrderStatus = Draft | Placed | Paid | Cancelled

  /** Prices are scaled integers of either sign: the aggregate validates neither price nor quantity. */
  datatype OrderLine = OrderLine(productId: Uuid, quantity: int, unitPrice: int)

  datatype Order = Order(
    id: Uuid,
    customerId: Uuid,
    currency: string,
    status: OrderStatus,
    placedAt: Option<int>,
    cancelledAt: Option<int>,
    cancelledReason: Option<string>,
    lines: seq<OrderLine>)

  datatype OrderError = AlreadyPlaced | EmptyOrder

  function Subtotal(l: OrderLine): int { l.unitPrice * l.quantity }

  function Total(lines: seq<OrderLine>): int {
    if lines == [] then 0 else Total(lines[..|lines| - 1]) + Subtotal(lines[|lines| - 1])
  }

  function NewOrder(id: Uuid, customerId: Uuid, currency: string): Order {
    Order(id, customerId, currency, Draft, None, None, None, [])
  }

  function WithLine(o: Order, l: OrderLine): Result<Order, OrderError> {
    if o.status != Draft then Err(AlreadyPlaced) else Ok(o.(lines := o.lines + [l]))
  }

  function AsPlaced(o: Order, now: int): Result<Order, OrderError> {
    if o.status != Draft then Err(AlreadyPlaced)
    else if o.lines == [] then Err(EmptyOrder)
    else Ok(o.(status := Placed, placedAt := Some(now)))
  }

  /** Cancelling again changes nothing; anything else, even a draft, may be cancelled. */
  function AsCancelled(o: Order, reason: string, now: int): Order {
    if o.status == Cancelled then o
    else o.(status := Cancelled, cancelledAt := Some(now), cancelledReason := Some(reason))
  }

  lemma {:induction false} TotalConcat(a: seq<OrderLine>, b: seq<OrderLine>)
    ensures Total(a + b) == Total(a) + Total(b)
  {
    if b == [] {
      assert a + b == a;
    } else {
      var n := |b| - 1;
      assert (a + b)[..|a| + n] == a + b[..n];
      TotalConcat(a, b[..n]);
    }
  }

  lemma TotalMiddle(front: seq<OrderLine>, x: OrderLine, tail: seq<OrderLine>)
    ensures Total(front + [x] + tail) == Total(front + tail) + Subtotal(x)
  {
    TotalConcat(front + [x], tail);
    TotalConcat(front, tail);
    assert (front + [x])[..|front|] == front;
  }

  /** The rows of a relationship come in any order; the total does not depend on it. */
  lemma {:induction false} TotalPermutes(a: seq<OrderLine>, b: seq<OrderLine>)
    requires multiset(a) == multiset(b)
    ensures Total(a) == Total(b)
    decreases |a|
  {
    if a == [] {
      assert |multiset(b)| == 0;
    } else {
      var i := MultisetPeel(a, b);
      var front, x, tail := b[..i], b[i], b[i + 1..];
      assert b == front + [x] + tail;
      TotalMiddle(front, x, tail);
      TotalPermutes(a[..|a| - 1], front + tail);
    }
  }

  class OrderEntity {
    const id: Uuid
    const customerId: Uuid
    const currency: string
    var status: OrderStatus
    var placedAt: Option<int>
    var cancelledAt: Option<int>
    var cancelledReason: Option<string>
    var lines: seq<OrderLine>

    function View(): Order
      reads this
    {
      Order(id, customerId, currency, status, placedAt, cancelledAt, cancelledReason, lines)
    }

    constructor New(id: Uuid, customerId: Uuid, currency: string)
      ensures View() == NewOrder(id, customerId, currency)
      ensures status == Draft && lines == [] && placedAt == None && cancelledAt == None && cancelledReason == None
    {
      this.id, this.customerId, this.currency := id, customerId, currency;
      status, placedAt, cancelledAt, cancelledReason, lines := Draft, None, None, None, [];
    }

    constructor Load(o: Order)
      ensures View() == o
    {
      id, customerId, currency := o.id, o.customerId, o.currency;
      status, placedAt, cancelledAt, cancelledReason, lines :=
        o.status, o.placedAt, o.cancelledAt, o.cancelledReason, o.lines;
    }

    method AddLine(l: OrderLine) returns (e: Option<OrderError>)
      modifies this
      ensures match WithLine(old(View()), l)
              case Ok(o) => e == None && View() == o
              case Err(x) => e == Some(x) && View() == old(View())
      ensures old(status) == Draft ==> e == None && lines == old(lines) + [l]
      ensures old(status) != Draft ==> e == Some(AlreadyPlaced) && lines == old(lines)
      ensures unchanged(`status, `placedAt, `cancelledAt, `cancelledReason)
    {
      if status != Draft {
        return Some(AlreadyPlaced);
      }
      lines := lines + [l];
      e := None;
    }

    method Place(now: int) returns (e: Option<OrderError>)
      modifies this
      ensures match AsPlaced(old(View()), now)
              case Ok(o) => e == None && View() == o
              case Err(x) => e == Some(x) && View() == old(View())
      ensures old(status) == Draft && lines != [] ==> e == None && status == Placed && placedAt == Some(now)
      ensures old(status) != Draft ==> e == Some(AlreadyPlaced) && unchanged(this)
      ensures old(status) == Draft && lines == [] ==> e == Some(EmptyOrder) && unchanged(this)
      ensures unchanged(`lines, `cancelledAt, `cancelledReason)
    {
      if status != Draft {
        return Some(AlreadyPlaced);
      }
      if lines == [] {
        return Some(EmptyOrder);
      }
      status, placedAt := Placed, Some(now);
      e := None;
    }

    method Cancel(reason: string, now: int)
      modifies this
      ensures View() == AsCancelled(old(View()), reason, now)
      ensures status == Cancelled && unchanged(`lines, `placedAt)
      ensures old(status) != Cancelled ==> cancelledAt == Some(now) && cancelledReason == Some(reason)
      ensures old(status) == Cancelled ==> unchanged(this)
    {
      if status == Cancelled {
        return;
      }
      status, cancelledAt, cancelledReason := Cancelled, Some(now), Some(reason);
    }
  }
}

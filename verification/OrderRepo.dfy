/**
 * `examples/order_repo.py`: the two tables behind the order aggregate and the
 * query that computes totals with GROUP BY and an inner join instead of loading
 * every order.
 */
module OrderRepo {
  import opened Prelude
  import opened Codec
  import opened OrderModel

  /** A row of "order": the aggregate without its lines. */
  datatype OrderRow = OrderRow(
    id: Uuid,
    customerId: Uuid,
    currency: string,
    status: OrderStatus,
    placedAt: Option<int>,
    cancelledAt: Option<int>,
    cancelledReason: Option<string>)

  datatype LineRow = LineRow(orderId: Uuid, line: OrderLine)

  datatype Db = Db(orders: seq<OrderRow>, lines: seq<LineRow>)

  // ---- mapping between aggregate and tables -----------------------------------------

  function RowOf(o: Order): OrderRow {
    OrderRow(o.id, o.customerId, o.currency, o.status, o.placedAt, o.cancelledAt, o.cancelledReason)
  }

  function LinesOf(rows: seq<LineRow>, id: Uuid): seq<OrderLine> {
    if rows == [] then []
    else
      var n := |rows| - 1;
      LinesOf(rows[..n], id) + (if rows[n].orderId == id then [rows[n].line] else [])
  }

  function LineRows(id: Uuid, ls: seq<OrderLine>): (r: seq<LineRow>)
    ensures |r| == |ls| && forall i | 0 <= i < |r| :: r[i] == LineRow(id, ls[i])
  {
    seq(|ls|, i requires 0 <= i < |ls| => LineRow(id, ls[i]))
  }

  function Aggregate(r: OrderRow, lines: seq<OrderLine>): Order {
    Order(r.id, r.customerId, r.currency, r.status, r.placedAt, r.cancelledAt, r.cancelledReason, lines)
  }

  function Find(rows: seq<OrderRow>, id: Uuid): (k: Option<nat>)
    ensures k.Some? ==> k.value < |rows| && rows[k.value].id == id
    ensures k.None? ==> forall i | 0 <= i < |rows| :: rows[i].id != id
  {
    if rows == [] then None
    else if rows[|rows| - 1].id == id then Some(|rows| - 1)
    else Find(rows[..|rows| - 1], id)
  }

  function Get(db: Db, id: Uuid): Option<Order> {
    match Find(db.orders, id)
    case Some(k) => Some(Aggregate(db.orders[k], LinesOf(db.lines, id)))
    case None => None
  }

  /** A flush updates the order's row and inserts the lines the collection gained. */
  function Flush(db: Db, o: Order): Db
    requires Find(db.orders, o.id).Some? && LinesOf(db.lines, o.id) <= o.lines
  {
    Db(db.orders[Find(db.orders, o.id).value := RowOf(o)],
       db.lines + LineRows(o.id, o.lines[|LinesOf(db.lines, o.id)|..]))
  }

  function Inserted(db: Db, o: Order): Db { Db(db.orders + [RowOf(o)], db.lines + LineRows(o.id, o.lines)) }

  /** The primary key and the foreign key. */
  predicate Keyed(db: Db) {
    && (forall i, j | 0 <= i < j < |db.orders| :: db.orders[i].id != db.orders[j].id)
    && (forall k | 0 <= k < |db.lines| :: Find(db.orders, db.lines[k].orderId).Some?)
  }

  lemma {:induction false} LinesOfAppended(rows: seq<LineRow>, id: Uuid, more: seq<OrderLine>, other: Uuid)
    ensures LinesOf(rows + LineRows(id, more), other) == LinesOf(rows, other) + (if other == id then more else [])
  {
    if more == [] {
      assert rows + LineRows(id, more) == rows;
    } else {
      var n := |more| - 1;
      assert (rows + LineRows(id, more))[..|rows| + n] == rows + LineRows(id, more[..n]);
      LinesOfAppended(rows, id, more[..n], other);
      assert more == more[..n] + [more[n]];
    }
  }

  lemma {:induction false} FindUpdated(rows: seq<OrderRow>, k: nat, r: OrderRow, id: Uuid)
    requires k < |rows| && rows[k].id == r.id
    ensures Find(rows[k := r], id) == Find(rows, id)
  {
    var n := |rows| - 1;
    if k < n {
      assert rows[k := r][..n] == rows[..n][k := r];
      FindUpdated(rows[..n], k, r, id);
    } else {
      assert rows[k := r][..n] == rows[..n];
    }
  }

  lemma FlushLines(db: Db, o: Order, id: Uuid)
    requires Find(db.orders, o.id).Some? && LinesOf(db.lines, o.id) <= o.lines
    ensures LinesOf(Flush(db, o).lines, id) == if id == o.id then o.lines else LinesOf(db.lines, id)
  {
    var kept := LinesOf(db.lines, o.id);
    LinesOfAppended(db.lines, o.id, o.lines[|kept|..], id);
    assert kept + o.lines[|kept|..] == o.lines;
    assert LinesOf(db.lines, id) + [] == LinesOf(db.lines, id);
  }

  /** What is flushed is what the next session loads, and no other order notices. */
  lemma FlushGet(db: Db, o: Order, id: Uuid)
    requires Find(db.orders, o.id).Some? && LinesOf(db.lines, o.id) <= o.lines
    ensures Get(Flush(db, o), id) == if id == o.id then Some(o) else Get(db, id)
  {
    FindUpdated(db.orders, Find(db.orders, o.id).value, RowOf(o), id);
    FlushLines(db, o, id);
    hide LinesOf, LineRows;
  }

  lemma {:induction false} NoOrderNoLines(db: Db, rows: seq<LineRow>, id: Uuid)
    requires Find(db.orders, id).None?
    requires forall k | 0 <= k < |rows| :: Find(db.orders, rows[k].orderId).Some?
    ensures LinesOf(rows, id) == []
  {
    if rows != [] {
      NoOrderNoLines(db, rows[..|rows| - 1], id);
    }
  }

  lemma InsertLines(db: Db, o: Order, id: Uuid)
    requires Keyed(db) && Find(db.orders, o.id).None?
    ensures LinesOf(Inserted(db, o).lines, id) == if id == o.id then o.lines else LinesOf(db.lines, id)
  {
    LinesOfAppended(db.lines, o.id, o.lines, id);
    NoOrderNoLines(db, db.lines, o.id);
    hide LinesOf;
    assert [] + o.lines == o.lines;
    assert LinesOf(db.lines, id) + [] == LinesOf(db.lines, id);
  }

  lemma InsertGet(db: Db, o: Order, id: Uuid)
    requires Keyed(db) && Find(db.orders, o.id).None?
    ensures Get(Inserted(db, o), id) == if id == o.id then Some(o) else Get(db, id)
  {
    InsertLines(db, o, id);
    hide LinesOf, LineRows, Keyed;
    assert (db.orders + [RowOf(o)])[..|db.orders|] == db.orders;
  }

  // ---- the query ----------------------------------------------------------------------

  datatype Group = Group(orderId: Uuid, total: int)

  /** SUM(quantity * unit_price) over the rows of one order. */
  function SumFor(rows: seq<LineRow>, id: Uuid): int {
    if rows == [] then 0
    else
      var n := |rows| - 1;
      SumFor(rows[..n], id) + (if rows[n].orderId == id then rows[n].line.quantity * rows[n].line.unitPrice else 0)
  }

  predicate HasRow(rows: seq<LineRow>, id: Uuid) { exists k | 0 <= k < |rows| :: rows[k].orderId == id }

  predicate HasGroup(g: seq<Group>, id: Uuid) { exists i | 0 <= i < |g| :: g[i].orderId == id }

  /** The sub-query: one row for every order_id that occurs, in any order. */
  predicate IsTotals(rows: seq<LineRow>, g: seq<Group>) {
    && (forall i, j | 0 <= i < j < |g| :: g[i].orderId != g[j].orderId)
    && (forall i | 0 <= i < |g| :: HasRow(rows, g[i].orderId) && g[i].total == SumFor(rows, g[i].orderId))
    && (forall k | 0 <= k < |rows| :: HasGroup(g, rows[k].orderId))
  }

  /** A comparison with NULL is not true. */
  predicate PlacedSince(r: OrderRow, since: int) { r.placedAt.Some? && r.placedAt.value >= since }

  /** One order joined with the sub-query: a result row for every match. */
  function JoinOne(r: OrderRow, g: seq<Group>, since: int, minTotal: int): seq<OrderRow> {
    if g == [] then []
    else
      var n := |g| - 1;
      JoinOne(r, g[..n], since, minTotal)
      + (if g[n].orderId == r.id && PlacedSince(r, since) && g[n].total >= minTotal then [r] else [])
  }

  function Join(orders: seq<OrderRow>, g: seq<Group>, since: int, minTotal: int): seq<OrderRow> {
    if orders == [] then []
    else
      var n := |orders| - 1;
      Join(orders[..n], g, since, minTotal) + JoinOne(orders[n], g, since, minTotal)
  }

  /** The database may deliver the rows of the statement in any order. */
  predicate IsAnswer(db: Db, g: seq<Group>, since: int, minTotal: int, rows: seq<OrderRow>) {
    IsTotals(db.lines, g) && multiset(rows) == multiset(Join(db.orders, g, since, minTotal))
  }

  /** The plain filter over loaded orders that the statement stands for. */
  predicate Wanted(r: OrderRow, lines: seq<LineRow>, since: int, minTotal: int) {
    PlacedSince(r, since) && Total(Aggregate(r, LinesOf(lines, r.id)).lines) >= minTotal
  }

  function Filter(orders: seq<OrderRow>, lines: seq<LineRow>, since: int, minTotal: int): seq<OrderRow> {
    if orders == [] then []
    else
      var n := |orders| - 1;
      Filter(orders[..n], lines, since, minTotal)
      + (if Wanted(orders[n], lines, since, minTotal) then [orders[n]] else [])
  }

  /** The one kind of order the inner join loses. */
  predicate Lost(r: OrderRow, lines: seq<LineRow>, since: int, minTotal: int) {
    PlacedSince(r, since) && LinesOf(lines, r.id) == [] && minTotal <= 0
  }

  lemma HasRowSplit(rows: seq<LineRow>, id: Uuid)
    requires rows != []
    ensures var n := |rows| - 1; HasRow(rows, id) <==> HasRow(rows[..n], id) || rows[n].orderId == id
  {
    var n := |rows| - 1;
    if k :| 0 <= k < n && rows[..n][k].orderId == id {
      assert rows[k].orderId == id;
    }
    if k :| 0 <= k < |rows| && rows[k].orderId == id && k != n {
      assert rows[..n][k].orderId == id;
    }
  }

  lemma {:induction false} SumIsTotal(rows: seq<LineRow>, id: Uuid)
    ensures SumFor(rows, id) == Total(LinesOf(rows, id))
    ensures HasRow(rows, id) <==> LinesOf(rows, id) != []
  {
    if rows != [] {
      var n := |rows| - 1;
      SumIsTotal(rows[..n], id);
      var init := LinesOf(rows[..n], id);
      HasRowSplit(rows, id);
      hide HasRow;
      if rows[n].orderId == id {
        assert (init + [rows[n].line])[..|init|] == init;
      } else {
        assert init + [] == init;
      }
    }
  }

  lemma {:induction false} JoinOneNone(r: OrderRow, g: seq<Group>, since: int, minTotal: int)
    requires forall j | 0 <= j < |g| :: g[j].orderId != r.id
    ensures JoinOne(r, g, since, minTotal) == []
  {
    if g != [] {
      JoinOneNone(r, g[..|g| - 1], since, minTotal);
    }
  }

  /** The join gives an order once, if its group passes, whatever else is in the sub-query. */
  lemma {:induction false} JoinOneExact(r: OrderRow, g: seq<Group>, since: int, minTotal: int, i: nat)
    requires forall i, j | 0 <= i < j < |g| :: g[i].orderId != g[j].orderId
    requires i < |g| && g[i].orderId == r.id
    ensures JoinOne(r, g, since, minTotal) == if PlacedSince(r, since) && g[i].total >= minTotal then [r] else []
    decreases |g|
  {
    var n := |g| - 1;
    if i == n {
      JoinOneNone(r, g[..n], since, minTotal);
    } else {
      JoinOneExact(r, g[..n], since, minTotal, i);
      assert g[n].orderId != r.id;
    }
  }

  lemma JoinOneMeans(r: OrderRow, db: Db, g: seq<Group>, since: int, minTotal: int)
    requires IsTotals(db.lines, g)
    ensures JoinOne(r, g, since, minTotal)
         == if Wanted(r, db.lines, since, minTotal) && !Lost(r, db.lines, since, minTotal) then [r] else []
  {
    SumIsTotal(db.lines, r.id);
    if HasRow(db.lines, r.id) {
      var k :| 0 <= k < |db.lines| && db.lines[k].orderId == r.id;
      assert HasGroup(g, db.lines[k].orderId);
      var i :| 0 <= i < |g| && g[i].orderId == r.id;
      JoinOneExact(r, g, since, minTotal, i);
    } else {
      forall i | 0 <= i < |g|
        ensures g[i].orderId != r.id
      {
        assert HasRow(db.lines, g[i].orderId);
      }
      JoinOneNone(r, g, since, minTotal);
    }
  }

  /** The statement is the filter exactly when no wanted order without lines exists. */
  lemma {:induction false} JoinAgreesIff(db: Db, orders: seq<OrderRow>, g: seq<Group>, since: int, minTotal: int)
    requires IsTotals(db.lines, g)
    ensures |Join(orders, g, since, minTotal)| <= |Filter(orders, db.lines, since, minTotal)|
    ensures Join(orders, g, since, minTotal) == Filter(orders, db.lines, since, minTotal)
       <==> forall i | 0 <= i < |orders| :: !Lost(orders[i], db.lines, since, minTotal)
    ensures (exists i | 0 <= i < |orders| :: Lost(orders[i], db.lines, since, minTotal)) ==>
              |Join(orders, g, since, minTotal)| < |Filter(orders, db.lines, since, minTotal)|
  {
    if orders != [] {
      var n := |orders| - 1;
      var init := orders[..n];
      JoinAgreesIff(db, init, g, since, minTotal);
      JoinOneMeans(orders[n], db, g, since, minTotal);
      if i :| 0 <= i < |orders| && Lost(orders[i], db.lines, since, minTotal) {
        assert i == n || init[i] == orders[i];
        SumIsTotal(db.lines, orders[n].id);
      }
      forall i | 0 <= i < n
        ensures init[i] == orders[i]
      {
      }
    }
  }

  // ---- runs -----------------------------------------------------------------------------

  datatype Op =
    | New(id: Uuid, customerId: Uuid, currency: string)
    | AddLine(id: Uuid, line: OrderLine)
    | Place(id: Uuid, now: int)
    | Cancel(id: Uuid, reason: string, now: int)

  lemma GetFits(db: Db, id: Uuid)
    requires Get(db, id).Some?
    ensures var o := Get(db, id).value;
            && o.id == id && Find(db.orders, id).Some? && LinesOf(db.lines, id) == o.lines
            && RowOf(o) == db.orders[Find(db.orders, id).value]
  {
  }

  /** Load the order, call the method, flush; an exception leaves the tables alone. */
  function Apply(db: Db, op: Op): Db {
    match op
    case New(id, customer, currency) =>
      if Find(db.orders, id).Some? then db else Inserted(db, NewOrder(id, customer, currency))
    case AddLine(id, l) =>
      (match Get(db, id)
       case None => db
       case Some(o) => match WithLine(o, l) case Ok(p) => Flush(db, p) case Err(_) => db)
    case Place(id, now) =>
      (match Get(db, id)
       case None => db
       case Some(o) => match AsPlaced(o, now) case Ok(p) => Flush(db, p) case Err(_) => db)
    case Cancel(id, reason, now) =>
      (match Get(db, id)
       case None => db
       case Some(o) => Flush(db, AsCancelled(o, reason, now)))
  }

  function Run(ops: seq<Op>): Db {
    if ops == [] then Db([], []) else Apply(Run(ops[..|ops| - 1]), ops[|ops| - 1])
  }

  /** What the methods of the aggregate keep. */
  predicate Lawful(o: Order) {
    && (o.placedAt.Some? ==> o.lines != [] && o.status != Draft)
    && (o.status == Draft ==> o.placedAt.None? && o.cancelledAt.None?)
    && (o.status == Placed ==> o.placedAt.Some?)
    && (o.status == Cancelled <==> o.cancelledAt.Some?)
  }

  predicate AllLawful(db: Db) {
    forall i | 0 <= i < |db.orders| :: Lawful(Aggregate(db.orders[i], LinesOf(db.lines, db.orders[i].id)))
  }

  lemma FlushKeeps(db: Db, o: Order)
    requires Keyed(db) && AllLawful(db) && Lawful(o)
    requires Find(db.orders, o.id).Some? && LinesOf(db.lines, o.id) <= o.lines
    ensures Keyed(Flush(db, o)) && AllLawful(Flush(db, o))
  {
    FlushKeepsKeys(db, o);
    var t := Flush(db, o);
    var k := Find(db.orders, o.id).value;
    forall i | 0 <= i < |t.orders|
      ensures Lawful(Aggregate(t.orders[i], LinesOf(t.lines, t.orders[i].id)))
    {
      FlushLines(db, o, t.orders[i].id);
      hide LinesOf, LineRows, Lawful;
      assert Lawful(Aggregate(db.orders[i], LinesOf(db.lines, db.orders[i].id)));
    }
  }

  lemma FlushKeepsKeys(db: Db, o: Order)
    requires Keyed(db) && Find(db.orders, o.id).Some? && LinesOf(db.lines, o.id) <= o.lines
    ensures Keyed(Flush(db, o))
  {
    var t := Flush(db, o);
    hide LinesOf;
    forall j | 0 <= j < |t.lines|
      ensures Find(t.orders, t.lines[j].orderId).Some?
    {
      FindUpdated(db.orders, Find(db.orders, o.id).value, RowOf(o), t.lines[j].orderId);
    }
  }

  lemma InsertKeeps(db: Db, id: Uuid, customer: Uuid, currency: string)
    requires Keyed(db) && AllLawful(db) && Find(db.orders, id).None?
    ensures Keyed(Inserted(db, NewOrder(id, customer, currency))) && AllLawful(Inserted(db, NewOrder(id, customer, currency)))
  {
    var o := NewOrder(id, customer, currency);
    var t := Inserted(db, o);
    assert t.lines == db.lines;
    NoOrderNoLines(db, db.lines, id);
    InsertKeepsKeys(db, o);
    hide Keyed, LinesOf, Find;
    forall i | 0 <= i < |t.orders|
      ensures Lawful(Aggregate(t.orders[i], LinesOf(t.lines, t.orders[i].id)))
    {
      if i < |db.orders| {
        assert Lawful(Aggregate(db.orders[i], LinesOf(db.lines, db.orders[i].id)));
      }
    }
  }

  lemma InsertKeepsKeys(db: Db, o: Order)
    requires Keyed(db) && Find(db.orders, o.id).None? && o.lines == []
    ensures Keyed(Inserted(db, o))
  {
    var t := Inserted(db, o);
    assert t.lines == db.lines;
    assert t.orders[..|db.orders|] == db.orders;
    hide LinesOf;
  }

  lemma LawfulGet(db: Db, id: Uuid)
    requires AllLawful(db) && Get(db, id).Some?
    ensures Lawful(Get(db, id).value)
  {
    var k := Find(db.orders, id).value;
    assert Lawful(Aggregate(db.orders[k], LinesOf(db.lines, db.orders[k].id)));
  }

  lemma ApplyKeeps(db: Db, op: Op)
    requires Keyed(db) && AllLawful(db)
    ensures Keyed(Apply(db, op)) && AllLawful(Apply(db, op))
  {
    hide Keyed, AllLawful, Flush, Inserted, Find, LinesOf, Get;
    if op.New? {
      if Find(db.orders, op.id).None? {
        InsertKeeps(db, op.id, op.customerId, op.currency);
      }
    } else if Get(db, op.id).Some? {
      GetFits(db, op.id);
      LawfulGet(db, op.id);
      var o := Get(db, op.id).value;
      match op
      case AddLine(_, l) => if WithLine(o, l).Ok? { FlushKeeps(db, WithLine(o, l).value); }
      case Place(_, now) => if AsPlaced(o, now).Ok? { FlushKeeps(db, AsPlaced(o, now).value); }
      case Cancel(_, reason, now) => FlushKeeps(db, AsCancelled(o, reason, now));
    }
  }

  lemma {:induction false} RunKeeps(ops: seq<Op>)
    ensures Keyed(Run(ops)) && AllLawful(Run(ops))
  {
    if ops != [] {
      RunKeeps(ops[..|ops| - 1]);
      ApplyKeeps(Run(ops[..|ops| - 1]), ops[|ops| - 1]);
    }
  }

  /** A placed order keeps its lines, its total and its time whatever is done afterwards. */
  lemma PlacedIsFrozen(db: Db, op: Op, id: Uuid)
    requires Keyed(db) && AllLawful(db) && Get(db, id).Some? && Get(db, id).value.placedAt.Some?
    ensures var o := Get(db, id).value;
            && Get(Apply(db, op), id).Some?
            && var p := Get(Apply(db, op), id).value;
            p.lines == o.lines && p.placedAt == o.placedAt && p.status in {o.status, Cancelled}
  {
    hide Keyed, AllLawful, Flush, Inserted, Find, LinesOf, Get;
    LawfulGet(db, id);
    GetFits(db, id);
    if op.New? {
      if Find(db.orders, op.id).None? {
        InsertGet(db, NewOrder(op.id, op.customerId, op.currency), id);
      }
    } else if Get(db, op.id).Some? {
      GetFits(db, op.id);
      var o := Get(db, op.id).value;
      match op
      case AddLine(_, l) => if WithLine(o, l).Ok? { FlushGet(db, WithLine(o, l).value, id); }
      case Place(_, now) => if AsPlaced(o, now).Ok? { FlushGet(db, AsPlaced(o, now).value, id); }
      case Cancel(_, reason, now) => FlushGet(db, AsCancelled(o, reason, now), id);
    }
  }

  // ---- what a run of operations comes to, told by the operations alone ----------------------

  /** The order has been created. */
  predicate Created(ops: seq<Op>, id: Uuid) { exists k | 0 <= k < |ops| :: ops[k].New? && ops[k].id == id }

  /** The lines added to the order before it was first placed or cancelled. */
  function LinesAdded(ops: seq<Op>, id: Uuid): seq<OrderLine>
    decreases |ops|, 0
  {
    if ops == [] then []
    else
      var n := |ops| - 1;
      LinesAdded(ops[..n], id)
      + (if ops[n].AddLine? && ops[n].id == id && Created(ops[..n], id) && !Closed(ops[..n], id) then [ops[n].line] else [])
  }

  /** The time at which the order, created and with lines, was first placed, not having been cancelled before. */
  function PlacedWhen(ops: seq<Op>, id: Uuid): Option<int>
    decreases |ops|, 0
  {
    if ops == [] then None
    else
      var n := |ops| - 1;
      if ops[n].Place? && ops[n].id == id && !Closed(ops[..n], id) && LinesAdded(ops[..n], id) != [] then Some(ops[n].now)
      else PlacedWhen(ops[..n], id)
  }

  /** The time and the reason for which it was first cancelled. */
  function CancelledWhen(ops: seq<Op>, id: Uuid): Option<(int, string)> {
    if ops == [] then None
    else
      var n := |ops| - 1;
      if CancelledWhen(ops[..n], id).Some? then CancelledWhen(ops[..n], id)
      else if ops[n].Cancel? && ops[n].id == id && Created(ops[..n], id) then Some((ops[n].now, ops[n].reason))
      else None
  }

  predicate Closed(ops: seq<Op>, id: Uuid)
    decreases |ops|, 1
  {
    PlacedWhen(ops, id).Some? || CancelledWhen(ops, id).Some?
  }

  /** The order is what the operations say. */
  predicate Told(ops: seq<Op>, o: Order) {
    && o.lines == LinesAdded(ops, o.id)
    && o.placedAt == PlacedWhen(ops, o.id)
    && o.cancelledAt == (if CancelledWhen(ops, o.id).Some? then Some(CancelledWhen(ops, o.id).value.0) else None)
    && o.cancelledReason == (if CancelledWhen(ops, o.id).Some? then Some(CancelledWhen(ops, o.id).value.1) else None)
    && (o.status == Cancelled <==> CancelledWhen(ops, o.id).Some?)
    && (o.status == Placed <==> PlacedWhen(ops, o.id).Some? && CancelledWhen(ops, o.id).None?)
    && o.status != Paid
  }

  lemma CreatedSplit(ops: seq<Op>, id: Uuid)
    requires ops != []
    ensures var n := |ops| - 1; Created(ops, id) <==> Created(ops[..n], id) || (ops[n].New? && ops[n].id == id)
  {
    var n := |ops| - 1;
    if k :| 0 <= k < n && ops[..n][k].New? && ops[..n][k].id == id {
      assert ops[k].New? && ops[k].id == id;
    }
    if k :| 0 <= k < |ops| && ops[k].New? && ops[k].id == id && k != n {
      assert ops[..n][k] == ops[k];
    }
  }

  lemma {:induction false} NothingUncreated(ops: seq<Op>, id: Uuid)
    requires !Created(ops, id)
    ensures LinesAdded(ops, id) == [] && PlacedWhen(ops, id) == None && CancelledWhen(ops, id) == None
  {
    if ops != [] {
      CreatedSplit(ops, id);
      NothingUncreated(ops[..|ops| - 1], id);
      hide Created;
    }
  }

  /** One operation on one order: all others stay. */
  lemma ApplyOthers(db: Db, op: Op, id: Uuid)
    requires Keyed(db) && op.id != id
    ensures Get(Apply(db, op), id) == Get(db, id)
  {
    hide Keyed, Flush, Inserted, Find, LinesOf, Get;
    if op.New? {
      if Find(db.orders, op.id).None? { InsertGet(db, NewOrder(op.id, op.customerId, op.currency), id); }
    } else if Get(db, op.id).Some? {
      var o := Get(db, op.id).value;
      GetFits(db, op.id);
      match op
      case AddLine(_, l) => if WithLine(o, l).Ok? { FlushGet(db, WithLine(o, l).value, id); }
      case Place(_, now) => if AsPlaced(o, now).Ok? { FlushGet(db, AsPlaced(o, now).value, id); }
      case Cancel(_, reason, now) => FlushGet(db, AsCancelled(o, reason, now), id);
    }
  }

  /** A created order is an empty draft; an id that is taken stays as it is. */
  lemma ApplyNew(db: Db, id: Uuid, customer: Uuid, currency: string)
    requires Keyed(db)
    ensures var t := Get(Apply(db, New(id, customer, currency)), id);
            if Get(db, id).Some? then t == Get(db, id)
            else t == Some(Order(id, customer, currency, Draft, None, None, None, []))
  {
    hide Keyed, Inserted, LinesOf;
    if Find(db.orders, id).None? { InsertGet(db, NewOrder(id, customer, currency), id); }
  }

  /** `p` is what the operation, as far as it is allowed, makes of `o`. */
  predicate Becomes(o: Order, op: Op, p: Order) {
    match op
    case New(_, _, _) => p == o
    case AddLine(_, l) => p == if o.status == Draft then o.(lines := o.lines + [l]) else o
    case Place(_, now) =>
      p == if o.status == Draft && o.lines != [] then o.(status := Placed, placedAt := Some(now)) else o
    case Cancel(_, reason, now) =>
      p == if o.status == Cancelled then o
           else o.(status := Cancelled, cancelledAt := Some(now), cancelledReason := Some(reason))
  }

  /** `add_line`, `place` and `cancel` on a stored order, as its next load shows them. */
  lemma ApplyOwn(db: Db, op: Op)
    requires Keyed(db) && Get(db, op.id).Some? && !op.New?
    ensures Get(Apply(db, op), op.id).Some?
    ensures Becomes(Get(db, op.id).value, op, Get(Apply(db, op), op.id).value)
  {
    hide Keyed, Flush, Find, LinesOf, Get;
    var o := Get(db, op.id).value;
    GetFits(db, op.id);
    match op
    case AddLine(_, l) => if WithLine(o, l).Ok? { FlushGet(db, WithLine(o, l).value, op.id); }
    case Place(_, now) => if AsPlaced(o, now).Ok? { FlushGet(db, AsPlaced(o, now).value, op.id); }
    case Cancel(_, reason, now) => FlushGet(db, AsCancelled(o, reason, now), op.id);
  }

  lemma NothingWithoutOrder(db: Db, op: Op)
    requires Get(db, op.id).None? && !op.New?
    ensures Apply(db, op) == db
  {
    hide Get;
  }

  /** The operations up to the last, and the last: what they say of an order that it is not about, or about. */
  lemma ToldOthers(ops: seq<Op>, o: Order)
    requires ops != [] && Told(ops[..|ops| - 1], o) && (ops[|ops| - 1].id != o.id || ops[|ops| - 1].New?)
    ensures Told(ops, o)
  {
    hide Created;
  }

  lemma ToldFresh(ops: seq<Op>, o: Order)
    requires ops != [] && !Created(ops[..|ops| - 1], o.id) && ops[|ops| - 1].New?
    requires o.status == Draft && o.lines == [] && o.placedAt == None && o.cancelledAt == None && o.cancelledReason == None
    ensures Told(ops, o)
  {
    NothingUncreated(ops[..|ops| - 1], o.id);
    hide Created;
  }

  lemma ToldOwn(ops: seq<Op>, o: Order, p: Order)
    requires ops != [] && Told(ops[..|ops| - 1], o) && Created(ops[..|ops| - 1], o.id)
    requires ops[|ops| - 1].id == o.id && !ops[|ops| - 1].New? && Becomes(o, ops[|ops| - 1], p)
    ensures Told(ops, p)
  {
    var n := |ops| - 1;
    assert (o.status == Draft) == !Closed(ops[..n], o.id);
    hide Created;
    assert LinesAdded(ops, o.id) == p.lines;
  }

  /**
   * Every order of every run is told by the operations: its lines are those added
   * before it was first placed or cancelled, its times those of the first placing of
   * a draft with lines and of the first cancelling.
   */
  lemma {:induction false} RunTold(ops: seq<Op>, id: Uuid)
    ensures Get(Run(ops), id).Some? <==> Created(ops, id)
    ensures Get(Run(ops), id).Some? ==> Get(Run(ops), id).value.id == id && Told(ops, Get(Run(ops), id).value)
  {
    hide Created, Get, Apply, Keyed, AllLawful, Told, Becomes;
    if ops == [] {
      NothingAtFirst(id);
    } else {
      var n := |ops| - 1;
      var db, op := Run(ops[..n]), ops[n];
      RunTold(ops[..n], id);
      RunKeeps(ops[..n]);
      CreatedSplit(ops, id);
      if op.id != id {
        ApplyOthers(db, op, id);
        if Get(db, id).Some? { ToldOthers(ops, Get(db, id).value); }
      } else if op.New? {
        ApplyNew(db, id, op.customerId, op.currency);
        if Get(db, id).Some? {
          ToldOthers(ops, Get(db, id).value);
        } else {
          ToldFresh(ops, Order(id, op.customerId, op.currency, Draft, None, None, None, []));
        }
      } else if Get(db, id).Some? {
        ApplyOwn(db, op);
        ToldOwn(ops, Get(db, id).value, Get(Apply(db, op), id).value);
        SameId(Get(db, id).value, op, Get(Apply(db, op), id).value);
      } else {
        NothingWithoutOrder(db, op);
      }
    }
  }

  lemma NothingAtFirst(id: Uuid)
    ensures Get(Run([]), id).None? && !Created([], id)
  {
  }

  lemma SameId(o: Order, op: Op, p: Order)
    requires Becomes(o, op, p)
    ensures p.id == o.id
  {
  }

  lemma {:induction false} NoneLost(db: Db, i: nat, since: int, minTotal: int)
    requires AllLawful(db) && i < |db.orders|
    ensures !Lost(db.orders[i], db.lines, since, minTotal)
  {
    assert Lawful(Aggregate(db.orders[i], LinesOf(db.lines, db.orders[i].id)));
  }

  lemma {:induction false} FilterCount(orders: seq<OrderRow>, lines: seq<LineRow>, since: int, minTotal: int, r: OrderRow)
    ensures multiset(Filter(orders, lines, since, minTotal))[r]
         == if Wanted(r, lines, since, minTotal) then multiset(orders)[r] else 0
  {
    if orders != [] {
      var n := |orders| - 1;
      assert orders == orders[..n] + [orders[n]];
      FilterCount(orders[..n], lines, since, minTotal, r);
    }
  }

  lemma {:induction false} OccursOnce(orders: seq<OrderRow>, r: OrderRow)
    requires forall i, j | 0 <= i < j < |orders| :: orders[i].id != orders[j].id
    ensures multiset(orders)[r] == if r in orders then 1 else 0
  {
    if orders != [] {
      var n := |orders| - 1;
      assert orders == orders[..n] + [orders[n]];
      OccursOnce(orders[..n], r);
    }
  }

  /** The rows delivered are the wanted orders, each exactly once. */
  ghost predicate Delivers(db: Db, since: int, minTotal: int, stream: seq<OrderRow>) {
    forall r :: multiset(stream)[r] == (if r in db.orders && Wanted(r, db.lines, since, minTotal) then 1 else 0)
  }

  /**
   * On every database the aggregate's methods can build, the statement returns each
   * order placed since `since` whose total reaches `minTotal` exactly once, and
   * nothing else; for every `minTotal`, also zero and below.
   */
  lemma QueryEquivalence(ops: seq<Op>, g: seq<Group>, since: int, minTotal: int, answer: seq<OrderRow>)
    requires IsAnswer(Run(ops), g, since, minTotal, answer)
    ensures multiset(answer) == multiset(Filter(Run(ops).orders, Run(ops).lines, since, minTotal))
    ensures Delivers(Run(ops), since, minTotal, answer)
  {
    var db := Run(ops);
    RunKeeps(ops);
    forall i | 0 <= i < |db.orders|
      ensures !Lost(db.orders[i], db.lines, since, minTotal)
    {
      NoneLost(db, i, since, minTotal);
    }
    JoinAgreesIff(db, db.orders, g, since, minTotal);
    forall r
      ensures multiset(answer)[r] == if r in db.orders && Wanted(r, db.lines, since, minTotal) then 1 else 0
    {
      FilterCount(db.orders, db.lines, since, minTotal, r);
      OccursOnce(db.orders, r);
    }
  }

  /** The answer, told by the operations: exactly the orders first placed since, the lines added to which come to enough. */
  lemma AnswerTold(ops: seq<Op>, g: seq<Group>, since: int, minTotal: int, answer: seq<OrderRow>, id: Uuid)
    requires IsAnswer(Run(ops), g, since, minTotal, answer)
    ensures (exists k | 0 <= k < |answer| :: answer[k].id == id) <==>
              && PlacedWhen(ops, id).Some? && PlacedWhen(ops, id).value >= since
              && Total(LinesAdded(ops, id)) >= minTotal
  {
    var db := Run(ops);
    hide IsAnswer, Total, Created;
    QueryEquivalence(ops, g, since, minTotal, answer);
    RunKeeps(ops);
    RunTold(ops, id);
    if !Created(ops, id) { NothingUncreated(ops, id); }
    hide PlacedWhen, LinesAdded, CancelledWhen;
    if k :| 0 <= k < |answer| && answer[k].id == id {
      StreamedRow(db, since, minTotal, answer, k);
    }
    if PlacedWhen(ops, id).Some? && PlacedWhen(ops, id).value >= since && Total(LinesAdded(ops, id)) >= minTotal {
      var k := StreamedFound(db, since, minTotal, answer, id);
      assert answer[k].id == id;
    }
  }

  /** Not an empty promise: an order with one line, placed, is in every answer that it belongs to. */
  lemma OneOrderIsFound(id: Uuid, customer: Uuid, product: Uuid, g: seq<Group>, answer: seq<OrderRow>)
    requires var ops := [New(id, customer, "EUR"), AddLine(id, OrderLine(product, 1, 500)), Place(id, 7)];
             IsAnswer(Run(ops), g, 0, 100, answer)
    ensures exists k | 0 <= k < |answer| :: answer[k].id == id
  {
    var l := OrderLine(product, 1, 500);
    var a, b, c := New(id, customer, "EUR"), AddLine(id, l), Place(id, 7);
    hide Run, IsAnswer;
    AnswerTold([a, b, c], g, 0, 100, answer, id);
    hide Total;
    assert [] + [a] == [a] && [a] + [b] == [a, b] && [a, b] + [c] == [a, b, c];
    ToldNext([], a, id);
    assert [a][0].New?;
    assert Created([a], id);
    ToldNext([a], b, id);
    ToldNext([a, b], c, id);
    hide LinesAdded, PlacedWhen, CancelledWhen, Created;
    TotalOfOne(l);
  }

  /** The tellers, one operation on. */
  lemma ToldNext(ops: seq<Op>, op: Op, id: Uuid)
    ensures Closed([], id) == false && LinesAdded([], id) == []
    ensures LinesAdded(ops + [op], id) == LinesAdded(ops, id)
              + (if op.AddLine? && op.id == id && Created(ops, id) && !Closed(ops, id) then [op.line] else [])
    ensures PlacedWhen(ops + [op], id) == if op.Place? && op.id == id && !Closed(ops, id) && LinesAdded(ops, id) != []
                                          then Some(op.now) else PlacedWhen(ops, id)
    ensures !op.Cancel? ==> CancelledWhen(ops + [op], id) == CancelledWhen(ops, id)
  {
    assert (ops + [op])[..|ops|] == ops;
    hide Created;
  }

  lemma TotalOfOne(l: OrderLine)
    ensures Total([l]) == l.unitPrice * l.quantity
  {
    assert [l][..0] == [];
  }

  predicate AgreesFor(db: Db, g: seq<Group>, since: int, minTotal: int) {
    Join(db.orders, g, since, minTotal) == Filter(db.orders, db.lines, since, minTotal)
  }

  predicate PlacedHaveLines(db: Db) {
    forall i | 0 <= i < |db.orders| :: db.orders[i].placedAt.Some? ==> LinesOf(db.lines, db.orders[i].id) != []
  }

  /** On an arbitrary database: the statement is always the filter if and only if placed orders have lines. */
  lemma AlwaysAgreesIff(db: Db, g: seq<Group>)
    requires IsTotals(db.lines, g)
    ensures (forall since, minTotal :: AgreesFor(db, g, since, minTotal)) <==> PlacedHaveLines(db)
  {
    if PlacedHaveLines(db) {
      forall since, minTotal
        ensures AgreesFor(db, g, since, minTotal)
      {
        JoinAgreesIff(db, db.orders, g, since, minTotal);
      }
    } else {
      var i :| 0 <= i < |db.orders| && db.orders[i].placedAt.Some? && LinesOf(db.lines, db.orders[i].id) == [];
      JoinAgreesIff(db, db.orders, g, db.orders[i].placedAt.value, 0);
      assert Lost(db.orders[i], db.lines, db.orders[i].placedAt.value, 0);
      assert !AgreesFor(db, g, db.orders[i].placedAt.value, 0);
    }
  }

  lemma RowAppended(rows: seq<LineRow>, row: LineRow, id: Uuid)
    ensures HasRow(rows + [row], id) <==> HasRow(rows, id) || row.orderId == id
    ensures SumFor(rows + [row], id) == SumFor(rows, id) + (if row.orderId == id then Subtotal(row.line) else 0)
  {
    assert (rows + [row])[..|rows|] == rows;
    if k :| 0 <= k < |rows| && rows[k].orderId == id {
      assert (rows + [row])[k].orderId == id;
    }
    assert (rows + [row])[|rows|] == row;
  }

  function AddTo(g: seq<Group>, id: Uuid, amount: int): seq<Group> {
    if g == [] then [Group(id, amount)]
    else if g[0].orderId == id then [Group(id, g[0].total + amount)] + g[1..]
    else [g[0]] + AddTo(g[1..], id, amount)
  }

  /** Adding to one group changes that one, or opens it at the end. */
  lemma {:induction false} AddToAt(g: seq<Group>, id: Uuid, amount: int) returns (k: nat)
    ensures var r := AddTo(g, id, amount);
            && k < |r| && |g| <= |r| && r[k].orderId == id
            && (forall i | 0 <= i < |g| && i != k :: r[i] == g[i])
            && (if k < |g| then |r| == |g| && g[k].orderId == id && r[k].total == g[k].total + amount
                else |r| == |g| + 1 && k == |g| && r[k].total == amount && !HasGroup(g, id))
  {
    if g == [] || g[0].orderId == id {
      k := 0;
    } else {
      var j := AddToAt(g[1..], id, amount);
      k := j + 1;
      if j == |g| - 1 {
        forall i | 0 <= i < |g|
          ensures g[i].orderId != id
        {
          assert i > 0 ==> g[i] == g[1..][i - 1];
        }
      }
    }
  }

  /** GROUP BY as a scan: one way to compute the sub-query, so it has a result on every table. */
  function Totals(rows: seq<LineRow>): seq<Group> {
    if rows == [] then []
    else AddTo(Totals(rows[..|rows| - 1]), rows[|rows| - 1].orderId, Subtotal(rows[|rows| - 1].line))
  }

  lemma {:induction false} SumOfAbsent(rows: seq<LineRow>, id: Uuid)
    requires !HasRow(rows, id)
    ensures SumFor(rows, id) == 0
  {
    SumIsTotal(rows, id);
  }

  lemma ScanStep(rows: seq<LineRow>, row: LineRow, g: seq<Group>)
    requires IsTotals(rows, g)
    ensures IsTotals(rows + [row], AddTo(g, row.orderId, Subtotal(row.line)))
  {
    var all := rows + [row];
    var r := AddTo(g, row.orderId, Subtotal(row.line));
    var k := AddToAt(g, row.orderId, Subtotal(row.line));
    forall i, j | 0 <= i < j < |r|
      ensures r[i].orderId != r[j].orderId
    {
      if j == |g| {
        assert g[i] == r[i];
      }
    }
    forall i | 0 <= i < |r|
      ensures HasRow(all, r[i].orderId) && r[i].total == SumFor(all, r[i].orderId)
    {
      RowAppended(rows, row, r[i].orderId);
      if i == |g| {
        Ungrouped(rows, g, row.orderId);
        SumOfAbsent(rows, row.orderId);
      } else {
        assert HasRow(rows, g[i].orderId);
      }
    }
    forall m | 0 <= m < |all|
      ensures HasGroup(r, all[m].orderId)
    {
      if m < |rows| {
        assert all[m] == rows[m] && HasGroup(g, rows[m].orderId);
        var j :| 0 <= j < |g| && g[j].orderId == rows[m].orderId;
        assert r[j].orderId == rows[m].orderId;
      } else {
        assert r[k].orderId == all[m].orderId;
      }
    }
  }

  lemma Ungrouped(rows: seq<LineRow>, g: seq<Group>, id: Uuid)
    requires IsTotals(rows, g) && !HasGroup(g, id)
    ensures !HasRow(rows, id)
  {
    forall k | 0 <= k < |rows|
      ensures rows[k].orderId != id
    {
      assert HasGroup(g, rows[k].orderId);
    }
  }

  lemma {:induction false} ScanIsTotals(rows: seq<LineRow>)
    ensures IsTotals(rows, Totals(rows))
  {
    if rows != [] {
      var n := |rows| - 1;
      ScanIsTotals(rows[..n]);
      ScanStep(rows[..n], rows[n], Totals(rows[..n]));
      assert rows[..n] + [rows[n]] == rows;
    }
  }

  // ---- the repository ---------------------------------------------------------------------

  datatype RepoError = UniqueViolation

  class OrderRepo {
    var db: Db

    constructor (d: Db)
      ensures db == d
    {
      db := d;
    }

    method Add(order: OrderEntity) returns (e: Option<RepoError>)
      modifies this
      ensures Find(old(db).orders, order.id).Some? ==> e == Some(UniqueViolation) && db == old(db)
      ensures Find(old(db).orders, order.id).None? ==> e == None && db == Inserted(old(db), order.View())
    {
      if Find(db.orders, order.id).Some? {
        return Some(UniqueViolation);
      }
      db := Inserted(db, order.View());
      e := None;
    }

    /** `conflict`: the flush meets a constraint of the database; nothing is written then. */
    method Save(order: OrderEntity, conflict: bool) returns (e: Option<RepoError>)
      requires Find(db.orders, order.id).Some? && LinesOf(db.lines, order.id) <= order.lines
      modifies this
      ensures conflict ==> e == Some(UniqueViolation) && db == old(db)
      ensures !conflict ==>
                && e == None && db == Flush(old(db), order.View())
                && Get(db, order.id) == Some(order.View())
                && forall id | id != order.id :: Get(db, id) == Get(old(db), id)
    {
      if conflict {
        return Some(UniqueViolation);
      }
      e := None;
      forall id
        ensures Get(Flush(db, order.View()), id) == if id == order.id then Some(order.View()) else Get(db, id)
      {
        FlushGet(db, order.View(), id);
      }
      db := Flush(db, order.View());
    }

    /** Streams whatever rows the database delivers, each loaded with its lines. */
    method ListRecentHighValue(since: int, minTotal: int, ghost ops: seq<Op>, ghost g: seq<Group>, stream: seq<OrderRow>)
      returns (found: seq<Order>)
      requires db == Run(ops) && IsAnswer(db, g, since, minTotal, stream)
      ensures |found| == |stream|
      ensures forall i | 0 <= i < |found| ::
                && Get(db, found[i].id) == Some(found[i])
                && found[i].placedAt.Some? && found[i].placedAt.value >= since && Total(found[i].lines) >= minTotal
      ensures forall i, j | 0 <= i < j < |found| :: found[i].id != found[j].id
      ensures forall id :: Get(db, id).Some? ==>
                var o := Get(db, id).value;
                o.placedAt.Some? && o.placedAt.value >= since && Total(o.lines) >= minTotal ==> o in found
    {
      hide *;
      QueryEquivalence(ops, g, since, minTotal, stream);
      RunKeeps(ops);
      found := [];
      for i := 0 to |stream|
        invariant |found| == i
        invariant forall k | 0 <= k < i :: found[k] == Aggregate(stream[k], LinesOf(db.lines, stream[k].id))
      {
        found := found + [Aggregate(stream[i], LinesOf(db.lines, stream[i].id))];
      }
      Streamed(db, since, minTotal, stream, found);
    }
  }

  lemma KeyedGet(db: Db, k: nat)
    requires Keyed(db) && k < |db.orders|
    ensures Get(db, db.orders[k].id) == Some(Aggregate(db.orders[k], LinesOf(db.lines, db.orders[k].id)))
  {
    var id := db.orders[k].id;
    assert Find(db.orders, id).Some?;
    var j := Find(db.orders, id).value;
    assert j == k;
  }

  lemma DeliveredOnce(stream: seq<OrderRow>, i: nat, j: nat)
    requires i < j < |stream| && stream[i] == stream[j]
    ensures multiset(stream)[stream[i]] >= 2
  {
    assert stream == stream[..j] + [stream[j]] + stream[j + 1..];
    assert stream[..j][i] == stream[i];
    assert stream[i] in multiset(stream[..j]);
  }

  lemma StreamedRow(db: Db, since: int, minTotal: int, stream: seq<OrderRow>, i: nat)
    requires Keyed(db) && Delivers(db, since, minTotal, stream) && i < |stream|
    ensures Wanted(stream[i], db.lines, since, minTotal)
    ensures Get(db, stream[i].id) == Some(Aggregate(stream[i], LinesOf(db.lines, stream[i].id)))
  {
    hide Wanted, LinesOf;
    assert stream[i] in multiset(stream);
    assert stream[i] in db.orders;
    var k :| 0 <= k < |db.orders| && db.orders[k] == stream[i];
    KeyedGet(db, k);
  }

  lemma StreamedOnce(db: Db, since: int, minTotal: int, stream: seq<OrderRow>, i: nat, j: nat)
    requires Keyed(db) && Delivers(db, since, minTotal, stream) && i < j < |stream|
    ensures stream[i].id != stream[j].id
  {
    StreamedRow(db, since, minTotal, stream, i);
    StreamedRow(db, since, minTotal, stream, j);
    hide Wanted, LinesOf, Keyed, Get;
    if stream[i].id == stream[j].id {
      assert RowOf(Get(db, stream[i].id).value) == stream[i];
      assert RowOf(Get(db, stream[j].id).value) == stream[j];
      DeliveredOnce(stream, i, j);
    }
  }

  lemma StreamedFound(db: Db, since: int, minTotal: int, stream: seq<OrderRow>, id: Uuid) returns (k: nat)
    requires Delivers(db, since, minTotal, stream) && Get(db, id).Some?
    requires var o := Get(db, id).value; o.placedAt.Some? && o.placedAt.value >= since && Total(o.lines) >= minTotal
    ensures k < |stream| && Get(db, id).value == Aggregate(stream[k], LinesOf(db.lines, stream[k].id))
  {
    var r := db.orders[Find(db.orders, id).value];
    assert Wanted(r, db.lines, since, minTotal);
    hide Wanted, LinesOf, Total;
    assert multiset(stream)[r] == 1;
    assert r in multiset(stream);
    k :| 0 <= k < |stream| && stream[k] == r;
  }

  lemma Streamed(db: Db, since: int, minTotal: int, stream: seq<OrderRow>, found: seq<Order>)
    requires Keyed(db) && |found| == |stream| && Delivers(db, since, minTotal, stream)
    requires forall k | 0 <= k < |found| :: found[k] == Aggregate(stream[k], LinesOf(db.lines, stream[k].id))
    ensures forall i | 0 <= i < |found| ::
              && Get(db, found[i].id) == Some(found[i])
              && found[i].placedAt.Some? && found[i].placedAt.value >= since && Total(found[i].lines) >= minTotal
    ensures forall i, j | 0 <= i < j < |found| :: found[i].id != found[j].id
    ensures forall id :: Get(db, id).Some? ==>
              var o := Get(db, id).value;
              o.placedAt.Some? && o.placedAt.value >= since && Total(o.lines) >= minTotal ==> o in found
  {
    hide LinesOf, Get, Keyed, Delivers, Total;
    forall i | 0 <= i < |stream|
      ensures Wanted(stream[i], db.lines, since, minTotal) && Get(db, stream[i].id) == Some(found[i])
    {
      StreamedRow(db, since, minTotal, stream, i);
    }
    forall i, j | 0 <= i < j < |found|
      ensures found[i].id != found[j].id
    {
      StreamedOnce(db, since, minTotal, stream, i, j);
    }
    forall id | Get(db, id).Some?
      ensures var o := Get(db, id).value;
              o.placedAt.Some? && o.placedAt.value >= since && Total(o.lines) >= minTotal ==> o in found
    {
      var o := Get(db, id).value;
      if o.placedAt.Some? && o.placedAt.value >= since && Total(o.lines) >= minTotal {
        var k := StreamedFound(db, since, minTotal, stream, id);
        assert found[k] == o;
      }
    }
  }
}

/** `app/outbox/` of the test run: rows without locks, one transaction per batch. */
module InvoiceOutbox {
  import opened Prelude
  import opened Events

  datatype Entry = Entry(
    eventType: string,
    payload: Payload,
    createdAt: int,
    processedAt: Option<int>,
    error: Option<string>,
    attempts: nat)

  function FromEvent(e: Event, now: int): Entry {
    Entry(EventType(e), ToPayload(e), now, None, None, 0)
  }

  function MarkedProcessed(e: Entry, now: int): Entry { e.(processedAt := Some(now), error := None) }

  function MarkedFailed(e: Entry, message: string): Entry {
    e.(attempts := e.attempts + 1, error := Some(message))
  }

  class OutboxEntry {
    const eventType: string
    const payload: Payload
    const createdAt: int
    var processedAt: Option<int>
    var error: Option<string>
    var attempts: nat

    function View(): Entry
      reads this
    {
      Entry(eventType, payload, createdAt, processedAt, error, attempts)
    }

    constructor Load(e: Entry)
      ensures View() == e
    {
      eventType, payload, createdAt := e.eventType, e.payload, e.createdAt;
      processedAt, error, attempts := e.processedAt, e.error, e.attempts;
    }

    method MarkProcessed(now: int)
      modifies this
      ensures View() == MarkedProcessed(old(View()), now)
      ensures processedAt == Some(now) && error == None && unchanged(`attempts)
    {
      processedAt := Some(now);
      error := None;
    }

    method MarkFailed(message: string)
      modifies this
      ensures View() == MarkedFailed(old(View()), message)
      ensures attempts == old(attempts) + 1 && error == Some(message) && unchanged(`processedAt)
    {
      attempts := attempts + 1;
      error := Some(message);
    }
  }

  // ---- selection ------------------------------------------------------------------

  function Unprocessed(rows: seq<Entry>): set<nat> {
    set i: nat | i < |rows| && rows[i].processedAt == None
  }

  function ToSet(s: seq<nat>): set<nat> { set i: nat | i < |s| :: s[i] }

  predicate Distinct(s: seq<nat>) { forall i, j | 0 <= i < j < |s| :: s[i] != s[j] }

  /** `list_unprocessed(limit)`: the oldest unprocessed rows first; equal creation times in any order. */
  predicate IsBatch(rows: seq<Entry>, limit: nat, sel: seq<nat>) {
    && Distinct(sel)
    && ToSet(sel) <= Unprocessed(rows)
    && (|sel| == limit || (|sel| < limit && ToSet(sel) == Unprocessed(rows)))
    && (forall i, j | 0 <= i < j < |sel| :: sel[i] < |rows| && sel[j] < |rows| && rows[sel[i]].createdAt <= rows[sel[j]].createdAt)
    && (forall i, j | i in ToSet(sel) && j in Unprocessed(rows) - ToSet(sel) :: rows[i].createdAt <= rows[j].createdAt)
  }

  lemma {:induction false} DistinctSize(s: seq<nat>)
    requires Distinct(s)
    ensures |ToSet(s)| == |s|
  {
    if s != [] {
      var n := |s| - 1;
      DistinctSize(s[..n]);
      assert ToSet(s) == ToSet(s[..n]) + {s[n]};
    }
  }

  /** A batch holds exactly min(number of unprocessed rows, limit) rows. */
  lemma BatchSize(rows: seq<Entry>, limit: nat, sel: seq<nat>)
    requires IsBatch(rows, limit, sel)
    ensures |sel| == if |Unprocessed(rows)| <= limit then |Unprocessed(rows)| else limit
  {
    DistinctSize(sel);
    assert Unprocessed(rows) == ToSet(sel) + (Unprocessed(rows) - ToSet(sel));
  }

  lemma MembersAgree(s: seq<nat>)
    ensures forall j :: j in s <==> j in ToSet(s)
  {
    forall j | j in s
      ensures j in ToSet(s)
    {
      var i :| 0 <= i < |s| && s[i] == j;
    }
  }

  // ---- one pass ---------------------------------------------------------------------

  /** What `_event_from_entry` and the bus did with one entry. */
  datatype Delivery = Delivered | Raised(message: string)

  function Settled(e: Entry, d: Delivery, now: int): Entry {
    if d.Delivered? then MarkedProcessed(e, now) else MarkedFailed(e, d.message)
  }

  /** The table after the first k entries of a batch have been settled in place. */
  function PassUpTo(rows: seq<Entry>, sel: seq<nat>, out: seq<Delivery>, now: int, k: nat): (r: seq<Entry>)
    requires k <= |sel| == |out| && forall i | 0 <= i < |sel| :: sel[i] < |rows|
    ensures |r| == |rows|
  {
    if k == 0 then rows
    else
      var prev := PassUpTo(rows, sel, out, now, k - 1);
      prev[sel[k - 1] := Settled(rows[sel[k - 1]], out[k - 1], now)]
  }

  function Pass(rows: seq<Entry>, sel: seq<nat>, out: seq<Delivery>, now: int): seq<Entry>
    requires |sel| == |out| && forall i | 0 <= i < |sel| :: sel[i] < |rows|
  {
    PassUpTo(rows, sel, out, now, |sel|)
  }

  /** A pass settles each selected row by its own delivery and touches nothing else. */
  lemma {:induction false} PassExact(rows: seq<Entry>, sel: seq<nat>, out: seq<Delivery>, now: int, k: nat)
    requires k <= |sel| == |out| && Distinct(sel) && forall i | 0 <= i < |sel| :: sel[i] < |rows|
    ensures var r := PassUpTo(rows, sel, out, now, k);
            && |r| == |rows|
            && (forall i | 0 <= i < k :: r[sel[i]] == Settled(rows[sel[i]], out[i], now))
            && (forall j | 0 <= j < |rows| && j !in sel[..k] :: r[j] == rows[j])
  {
    if k > 0 {
      PassExact(rows, sel, out, now, k - 1);
      assert sel[..k] == sel[..k - 1] + [sel[k - 1]];
    }
  }

  /** The `try` block: decode, then publish to the one handler; `raised` is what the handler raises. */
  function Attempted(e: Entry, raised: Option<string>): Delivery {
    match FromEntry(e.eventType, e.payload)
    case Err(UnknownEventType) => Raised("unknown outbox event type: " + e.eventType)
    case Err(_) => Raised("payload does not decode")
    case Ok(_) => if raised.Some? then Raised(raised.value) else Delivered
  }

  /** What delivering the entry raises, told by its row and by what its handler raises. */
  predicate Fails(e: Entry, raised: Option<string>) { FromEntry(e.eventType, e.payload).Err? || raised.Some? }

  /** The entry after its delivery: processed, or one more attempt with what was raised. */
  predicate SettledAs(was: Entry, row: Entry, raised: Option<string>, now: int) {
    && row.eventType == was.eventType && row.payload == was.payload && row.createdAt == was.createdAt
    && if Fails(was, raised)
       then
         && row.processedAt == was.processedAt && row.attempts == was.attempts + 1 && row.error.Some?
         && (FromEntry(was.eventType, was.payload).Ok? ==> row.error == raised)
         && (was.eventType !in {ISSUED, PAID} ==> row.error == Some("unknown outbox event type: " + was.eventType))
       else row.processedAt == Some(now) && row.error == None && row.attempts == was.attempts
  }

  lemma AttemptSettles(e: Entry, raised: Option<string>, now: int)
    ensures SettledAs(e, Settled(e, Attempted(e, raised), now), raised, now)
  {
    DecodedClass(e.eventType, e.payload);
    hide FromEntry;
  }

  function AllAttempted(rows: seq<Entry>, sel: seq<nat>, raised: seq<Option<string>>): (out: seq<Delivery>)
    requires |raised| == |sel| && forall i | 0 <= i < |sel| :: sel[i] < |rows|
    ensures |out| == |sel|
  {
    seq(|sel|, i requires 0 <= i < |sel| => Attempted(rows[sel[i]], raised[i]))
  }

  lemma PassSettles(rows: seq<Entry>, sel: seq<nat>, raised: seq<Option<string>>, now: int)
    requires |raised| == |sel| && Distinct(sel) && forall i | 0 <= i < |sel| :: sel[i] < |rows|
    ensures var r := Pass(rows, sel, AllAttempted(rows, sel, raised), now);
            && |r| == |rows|
            && (forall i | 0 <= i < |sel| :: SettledAs(rows[sel[i]], r[sel[i]], raised[i], now))
            && (forall j | 0 <= j < |rows| && j !in sel :: r[j] == rows[j])
  {
    PassExact(rows, sel, AllAttempted(rows, sel, raised), now, |sel|);
    assert sel[..|sel|] == sel;
    hide FromEntry, SettledAs, Attempted, Settled;
    forall i | 0 <= i < |sel|
      ensures SettledAs(rows[sel[i]], Pass(rows, sel, AllAttempted(rows, sel, raised), now)[sel[i]], raised[i], now)
    {
      AttemptSettles(rows[sel[i]], raised[i], now);
    }
  }

  /** The loop of `dispatch_once` over the loaded entries. */
  method DispatchEntries(entries: seq<OutboxEntry>, raised: seq<Option<string>>, now: int) returns (count: nat)
    requires |raised| == |entries| && forall i, j | 0 <= i < j < |entries| :: entries[i] != entries[j]
    modifies entries
    ensures count == |entries|
    ensures forall i | 0 <= i < |entries| ::
              entries[i].View() == Settled(old(entries[i].View()), Attempted(old(entries[i].View()), raised[i]), now)
    ensures forall i | 0 <= i < |entries| :: SettledAs(old(entries[i].View()), entries[i].View(), raised[i], now)
  {
    hide FromEntry, SettledAs;
    for k := 0 to |entries|
      invariant forall i | 0 <= i < k ::
                  entries[i].View() == Settled(old(entries[i].View()), Attempted(old(entries[i].View()), raised[i]), now)
      invariant forall i | k <= i < |entries| :: entries[i].View() == old(entries[i].View())
    {
      var event := FromEntry(entries[k].eventType, entries[k].payload);
      if event.Ok? && raised[k].None? {
        entries[k].MarkProcessed(now);
      } else {
        entries[k].MarkFailed(Attempted(entries[k].View(), raised[k]).message);
      }
    }
    count := |entries|;
    forall i | 0 <= i < |entries|
      ensures SettledAs(old(entries[i].View()), entries[i].View(), raised[i], now)
    {
      AttemptSettles(old(entries[i].View()), raised[i], now);
    }
  }

  class Outbox {
    var rows: seq<Entry>

    constructor (r: seq<Entry>)
      ensures rows == r
    {
      rows := r;
    }

    /** `add_event` */
    method AddEvent(e: Event, now: int)
      modifies this
      ensures rows == old(rows) + [FromEvent(e, now)]
      ensures var row := rows[|old(rows)|];
              && FromEntry(row.eventType, row.payload) == Ok(e) && row.createdAt == now
              && row.processedAt == None && row.error == None && row.attempts == 0
    {
      PayloadRoundTrip(e);
      hide FromEntry, ToPayload;
      rows := rows + [FromEvent(e, now)];
    }

    /** `list_unprocessed` has selected `sel`; one object per row. */
    method LoadBatch(limit: nat, sel: seq<nat>) returns (entries: seq<OutboxEntry>)
      requires IsBatch(rows, limit, sel)
      ensures |entries| == |sel| && forall i | 0 <= i < |sel| :: sel[i] < |rows| && entries[i].View() == rows[sel[i]]
      ensures fresh(entries)
      ensures forall i, j | 0 <= i < j < |entries| :: entries[i] != entries[j]
    {
      InRange(rows, limit, sel);
      entries := [];
      for k := 0 to |sel|
        invariant |entries| == k && forall i | 0 <= i < k :: entries[i].View() == rows[sel[i]]
        invariant fresh(entries)
        invariant forall i, j | 0 <= i < j < k :: entries[i] != entries[j]
      {
        var e := new OutboxEntry.Load(rows[sel[k]]);
        entries := entries + [e];
      }
    }

    /** The flush at the end of the block. */
    method StoreBatch(sel: seq<nat>, entries: seq<OutboxEntry>, ghost out: seq<Delivery>, ghost now: int)
      requires |sel| == |out| == |entries| && forall i | 0 <= i < |sel| :: sel[i] < |rows|
      requires forall i | 0 <= i < |sel| :: entries[i].View() == Settled(rows[sel[i]], out[i], now)
      modifies this
      ensures rows == Pass(old(rows), sel, out, now)
    {
      for k := 0 to |sel|
        invariant |rows| == |old(rows)|
        invariant forall i | 0 <= i < |sel| :: entries[i].View() == Settled(old(rows)[sel[i]], out[i], now)
        invariant rows == PassUpTo(old(rows), sel, out, now, k)
      {
        rows := rows[sel[k] := entries[k].View()];
      }
    }

    /** `dispatch_once`: one pass over the selected rows, each settled by what its delivery did. */
    method DispatchOnce(limit: nat, sel: seq<nat>, raised: seq<Option<string>>, now: int) returns (count: nat)
      requires IsBatch(rows, limit, sel) && |raised| == |sel|
      modifies this
      ensures count == if |Unprocessed(old(rows))| <= limit then |Unprocessed(old(rows))| else limit
      ensures (forall i | 0 <= i < |sel| :: sel[i] < |old(rows)|)
           && rows == Pass(old(rows), sel, AllAttempted(old(rows), sel, raised), now)
      ensures |rows| == |old(rows)|
      ensures forall i | 0 <= i < |sel| :: SettledAs(old(rows)[sel[i]], rows[sel[i]], raised[i], now)
      ensures forall j | 0 <= j < |rows| && j !in sel :: rows[j] == old(rows)[j]
    {
      BatchSize(rows, limit, sel);
      InRange(rows, limit, sel);
      assert Distinct(sel);
      hide IsBatch, FromEntry, Attempted, Settled, SettledAs;
      PassSettles(rows, sel, raised, now);
      var entries := LoadBatch(limit, sel);
      count := DispatchEntries(entries, raised, now);
      StoreBatch(sel, entries, AllAttempted(rows, sel, raised), now);
    }
  }

  // ---- how fast a backlog drains ------------------------------------------------------

  /** Rows that succeed whenever they are delivered, and rows that never do. */
  type Poison = set<nat>

  predicate Obeys(sel: seq<nat>, out: seq<Delivery>, bad: Poison) {
    |sel| == |out| && forall i | 0 <= i < |sel| :: out[i].Delivered? <==> sel[i] !in bad
  }

  /** Unprocessed rows created no later than `cut`. */
  function Old(rows: seq<Entry>, cut: int): set<nat> {
    set i: nat | i < |rows| && rows[i].processedAt == None && rows[i].createdAt <= cut
  }

  /** A run of passes; rows may be inserted between two passes. */
  datatype Passes =
    | NoPass(rows: seq<Entry>)
    | OnePass(before: Passes, inserted: seq<Entry>, sel: seq<nat>, out: seq<Delivery>, now: int)

  predicate ArePasses(p: Passes, limit: nat, bad: Poison)
    decreases p, 0
  {
    p.OnePass? ==>
      && ArePasses(p.before, limit, bad)
      && IsBatch(Table(p.before, limit, bad) + p.inserted, limit, p.sel)
      && Obeys(p.sel, p.out, bad)
  }

  function Table(p: Passes, limit: nat, bad: Poison): seq<Entry>
    requires ArePasses(p, limit, bad)
    decreases p, 1
  {
    if p.NoPass? then p.rows
    else
      var rows := Table(p.before, limit, bad) + p.inserted;
      InRange(rows, limit, p.sel);
      Pass(rows, p.sel, p.out, p.now)
  }

  /** Every row inserted during the run is younger than `cut`. */
  predicate InsertsAfter(p: Passes, cut: int) {
    p.OnePass? ==> InsertsAfter(p.before, cut) && forall i | 0 <= i < |p.inserted| :: p.inserted[i].createdAt > cut
  }

  function Length(p: Passes): nat { if p.NoPass? then 0 else 1 + Length(p.before) }

  function First(p: Passes): seq<Entry> { if p.NoPass? then p.rows else First(p.before) }

  lemma InRange(rows: seq<Entry>, limit: nat, sel: seq<nat>)
    requires IsBatch(rows, limit, sel)
    ensures forall i | 0 <= i < |sel| :: sel[i] < |rows|
  {
    forall i | 0 <= i < |sel|
      ensures sel[i] < |rows|
    {
      assert sel[i] in ToSet(sel);
    }
  }

  lemma SubsetSize(a: set<nat>, b: set<nat>)
    requires a <= b
    ensures |a| <= |b|
  {
    assert b == a + (b - a);
  }

  /** A pass takes exactly the selected good rows out of the unprocessed ones and keeps every creation time. */
  lemma OldAfterPass(rows: seq<Entry>, sel: seq<nat>, out: seq<Delivery>, now: int, bad: Poison, cut: int)
    requires Distinct(sel) && Obeys(sel, out, bad)
    requires forall i | 0 <= i < |sel| :: sel[i] < |rows| && rows[sel[i]].processedAt == None
    ensures var r := Pass(rows, sel, out, now);
            && |r| == |rows|
            && (forall j | 0 <= j < |rows| :: r[j].createdAt == rows[j].createdAt)
            && Old(r, cut) == Old(rows, cut) - (ToSet(sel) - bad)
  {
    PassExact(rows, sel, out, now, |sel|);
    assert sel[..|sel|] == sel;
    var r := Pass(rows, sel, out, now);
    forall j | 0 <= j < |rows|
      ensures r[j].createdAt == rows[j].createdAt
      ensures j in Old(r, cut) <==> j in Old(rows, cut) - (ToSet(sel) - bad)
    {
      if j in sel {
        var i :| 0 <= i < |sel| && sel[i] == j;
        assert r[sel[i]] == Settled(rows[sel[i]], out[i], now);
      }
    }
  }

  /** A full batch of aged rows holds at least limit - k good ones. */
  lemma FullBatch(aged: set<nat>, picked: set<nat>, bad: Poison)
    requires picked <= aged
    ensures |aged - picked - bad| + |picked| <= |aged - bad| + |aged * bad|
  {
    assert picked == (picked - bad) + (picked * bad);
    SubsetSize(picked * bad, aged * bad);
    assert aged - bad == (aged - picked - bad) + (picked - bad);
  }

  /** A batch that leaves the aged rows, or is not full, holds all of them. */
  lemma AllOldPicked(rows: seq<Entry>, limit: nat, sel: seq<nat>, cut: int)
    requires IsBatch(rows, limit, sel)
    requires |sel| < limit || !(ToSet(sel) <= Old(rows, cut))
    ensures Old(rows, cut) <= ToSet(sel)
  {
    forall j | j in Old(rows, cut)
      ensures j in ToSet(sel)
    {
      assert j in Unprocessed(rows);
      if |sel| == limit {
        var young :| young in ToSet(sel) && young !in Old(rows, cut);
        assert young in Unprocessed(rows);
      }
    }
  }

  function GoodOld(rows: seq<Entry>, bad: Poison, cut: int): nat { |Old(rows, cut) - bad| }

  function PoisonOld(rows: seq<Entry>, bad: Poison, cut: int): nat { |Old(rows, cut) * bad| }

  lemma BatchUnprocessed(rows: seq<Entry>, limit: nat, sel: seq<nat>)
    requires IsBatch(rows, limit, sel)
    ensures forall i | 0 <= i < |sel| :: sel[i] < |rows| && rows[sel[i]].processedAt == None
  {
    forall i | 0 <= i < |sel|
      ensures sel[i] < |rows| && rows[sel[i]].processedAt == None
    {
      assert sel[i] in ToSet(sel);
    }
  }

  /**
   * One pass either clears the good old rows or processes at least limit - k of
   * them, k being the poisoned ones, which all stay.
   */
  lemma PassProgress(rows: seq<Entry>, limit: nat, sel: seq<nat>, out: seq<Delivery>, now: int, bad: Poison, cut: int)
    requires IsBatch(rows, limit, sel) && Obeys(sel, out, bad)
    requires forall i | 0 <= i < |sel| :: sel[i] < |rows|
    ensures var r := Pass(rows, sel, out, now);
            && Old(r, cut) * bad == Old(rows, cut) * bad
            && (GoodOld(r, bad, cut) == 0 ||
                GoodOld(r, bad, cut) + limit <= GoodOld(rows, bad, cut) + PoisonOld(rows, bad, cut))
            && (GoodOld(rows, bad, cut) == 0 ==> GoodOld(r, bad, cut) == 0)
  {
    BatchUnprocessed(rows, limit, sel);
    OldAfterPass(rows, sel, out, now, bad, cut);
    var aged, picked := Old(rows, cut), ToSet(sel);
    var r := Pass(rows, sel, out, now);
    assert Old(r, cut) * bad == aged * bad;
    assert Old(r, cut) - bad == aged - picked - bad;
    SubsetSize(aged - picked - bad, aged - bad);
    if |sel| == limit && picked <= aged {
      DistinctSize(sel);
      FullBatch(aged, picked, bad);
    } else {
      AllOldPicked(rows, limit, sel, cut);
      assert aged - picked - bad == {};
    }
  }

  lemma OldOfAppend(rows: seq<Entry>, inserted: seq<Entry>, cut: int)
    requires forall i | 0 <= i < |inserted| :: inserted[i].createdAt > cut
    ensures Old(rows + inserted, cut) == Old(rows, cut)
  {
  }

  /** The last pass of a run, counting old rows only. */
  lemma LastPass(p: Passes, limit: nat, bad: Poison, cut: int)
    requires p.OnePass? && ArePasses(p, limit, bad) && InsertsAfter(p, cut)
    ensures var b := Table(p.before, limit, bad); var t := Table(p, limit, bad);
            && Old(t, cut) * bad == Old(b, cut) * bad
            && (GoodOld(t, bad, cut) == 0 ||
                GoodOld(t, bad, cut) + limit <= GoodOld(b, bad, cut) + PoisonOld(b, bad, cut))
            && (GoodOld(b, bad, cut) == 0 ==> GoodOld(t, bad, cut) == 0)
  {
    var b := Table(p.before, limit, bad);
    InRange(b + p.inserted, limit, p.sel);
    OldOfAppend(b, p.inserted, cut);
    PassProgress(b + p.inserted, limit, p.sel, p.out, p.now, bad, cut);
  }

  lemma {:induction false} PoisonStays(p: Passes, limit: nat, bad: Poison, cut: int)
    requires ArePasses(p, limit, bad) && InsertsAfter(p, cut)
    ensures Old(Table(p, limit, bad), cut) * bad == Old(First(p), cut) * bad
  {
    if p.OnePass? {
      PoisonStays(p.before, limit, bad, cut);
      LastPass(p, limit, bad, cut);
    }
  }

  /** Each pass of a run takes limit - k good old rows, as long as there are any. */
  lemma {:induction false} Drain(p: Passes, limit: nat, bad: Poison, cut: int)
    requires ArePasses(p, limit, bad) && InsertsAfter(p, cut)
    ensures var left := GoodOld(Table(p, limit, bad), bad, cut);
            left == 0 ||
            left + Length(p) * (limit - PoisonOld(First(p), bad, cut)) <= GoodOld(First(p), bad, cut)
  {
    hide GoodOld, PoisonOld;
    if p.OnePass? {
      Drain(p.before, limit, bad, cut);
      SamePoison(p.before, limit, bad, cut);
      LastPass(p, limit, bad, cut);
      DrainStep(Length(p.before), limit - PoisonOld(First(p), bad, cut), GoodOld(Table(p.before, limit, bad), bad, cut),
                GoodOld(Table(p, limit, bad), bad, cut), GoodOld(First(p), bad, cut));
      hide Table, ArePasses, InsertsAfter;
    }
  }

  lemma SamePoison(p: Passes, limit: nat, bad: Poison, cut: int)
    requires ArePasses(p, limit, bad) && InsertsAfter(p, cut)
    ensures PoisonOld(Table(p, limit, bad), bad, cut) == PoisonOld(First(p), bad, cut)
  {
    PoisonStays(p, limit, bad, cut);
  }

  lemma DrainStep(n: nat, d: int, before: nat, after: nat, first: nat)
    requires before == 0 || before + n * d <= first
    requires after == 0 || after + d <= before
    requires before == 0 ==> after == 0
    ensures after == 0 || after + (n + 1) * d <= first
  {
    Distribute(n, 1, d);
  }

  /**
   * Liveness bound: with k < limit poisoned rows among the rows created by `cut`,
   * all the others are processed once passes * (limit - k) reaches their number,
   * however many younger rows arrive meanwhile.
   */
  lemma BacklogDrains(p: Passes, limit: nat, bad: Poison, cut: int)
    requires ArePasses(p, limit, bad) && InsertsAfter(p, cut)
    requires PoisonOld(First(p), bad, cut) < limit
    requires Length(p) * (limit - PoisonOld(First(p), bad, cut)) >= GoodOld(First(p), bad, cut)
    ensures Old(Table(p, limit, bad), cut) <= bad
  {
    Drain(p, limit, bad, cut);
    var rest := Old(Table(p, limit, bad), cut) - bad;
    assert |rest| == 0;
    assert rest == {};
    forall j | j in Old(Table(p, limit, bad), cut)
      ensures j in bad
    {
      assert j !in rest;
    }
  }

  /** A batch of at most `limit` rows never gets past `limit` poisoned old ones. */
  lemma BatchStaysOld(rows: seq<Entry>, limit: nat, sel: seq<nat>, bad: Poison, cut: int)
    requires IsBatch(rows, limit, sel) && PoisonOld(rows, bad, cut) >= limit
    ensures ToSet(sel) <= Old(rows, cut)
  {
    var picked, poison := ToSet(sel), Old(rows, cut) * bad;
    DistinctSize(sel);
    if x :| x in picked && x !in Old(rows, cut) {
      AllOldPicked(rows, limit, sel, cut);
      SubsetSize(poison + {x}, picked);
    }
  }

  /** One pass over a blocked table leaves every younger row alone. */
  lemma BlockedPass(rows: seq<Entry>, limit: nat, sel: seq<nat>, out: seq<Delivery>, now: int, bad: Poison, cut: int)
    requires IsBatch(rows, limit, sel) && Obeys(sel, out, bad) && PoisonOld(rows, bad, cut) >= limit
    requires forall i | 0 <= i < |sel| :: sel[i] < |rows|
    ensures var r := Pass(rows, sel, out, now);
            forall j | 0 <= j < |rows| && rows[j].createdAt > cut :: r[j] == rows[j]
  {
    BatchStaysOld(rows, limit, sel, bad, cut);
    PassExact(rows, sel, out, now, |sel|);
    assert sel[..|sel|] == sel;
    MembersAgree(sel);
  }

  /** Strictly older poisoned rows in the number of a batch block everything behind them for good. */
  lemma {:induction false} Blocked(p: Passes, limit: nat, bad: Poison, cut: int)
    requires ArePasses(p, limit, bad) && InsertsAfter(p, cut)
    requires PoisonOld(First(p), bad, cut) >= limit
    ensures var t := Table(p, limit, bad);
            && |First(p)| <= |t|
            && forall j | 0 <= j < |First(p)| && First(p)[j].createdAt > cut :: t[j] == First(p)[j]
  {
    if p.OnePass? {
      var before := Table(p.before, limit, bad);
      Blocked(p.before, limit, bad, cut);
      PoisonStays(p.before, limit, bad, cut);
      OldOfAppend(before, p.inserted, cut);
      InRange(before + p.inserted, limit, p.sel);
      BlockedPass(before + p.inserted, limit, p.sel, p.out, p.now, bad, cut);
    }
  }

  lemma {:induction false} CreatedStays(p: Passes, limit: nat, bad: Poison, g: nat)
    requires ArePasses(p, limit, bad) && g < |First(p)|
    ensures g < |Table(p, limit, bad)| && Table(p, limit, bad)[g].createdAt == First(p)[g].createdAt
  {
    if p.OnePass? {
      var rows := Table(p.before, limit, bad) + p.inserted;
      CreatedStays(p.before, limit, bad, g);
      InRange(rows, limit, p.sel);
      BatchUnprocessed(rows, limit, p.sel);
      OldAfterPass(rows, p.sel, p.out, p.now, bad, 0);
    }
  }

  /**
   * Head-of-line blocking: an unprocessed good row is processed by enough passes
   * when fewer than `limit` poisoned rows are as old or older, and never when
   * `limit` of them are older.
   */
  lemma RowProcessedOrBlocked(p: Passes, limit: nat, bad: Poison, g: nat)
    requires g < |First(p)| && First(p)[g].processedAt == None && g !in bad
    requires ArePasses(p, limit, bad) && InsertsAfter(p, First(p)[g].createdAt)
    requires Length(p) >= GoodOld(First(p), bad, First(p)[g].createdAt)
    ensures g < |Table(p, limit, bad)|
    ensures PoisonOld(First(p), bad, First(p)[g].createdAt) < limit ==> Table(p, limit, bad)[g].processedAt.Some?
    ensures PoisonOld(First(p), bad, First(p)[g].createdAt - 1) >= limit ==> Table(p, limit, bad)[g] == First(p)[g]
  {
    var cut := First(p)[g].createdAt;
    hide ArePasses, Table, InsertsAfter, Length, GoodOld;
    CreatedStays(p, limit, bad, g);
    if PoisonOld(First(p), bad, cut) < limit {
      AtLeast(Length(p), limit - PoisonOld(First(p), bad, cut));
      BacklogDrains(p, limit, bad, cut);
      assert g !in Old(Table(p, limit, bad), cut);
    }
    if PoisonOld(First(p), bad, cut - 1) >= limit {
      InsertsAfterEarlier(p, cut);
      Blocked(p, limit, bad, cut - 1);
    }
  }

  /** ... which leaves nothing open unless a poisoned row has the very same creation time. */
  lemma RowProcessedIffNotBlocked(p: Passes, limit: nat, bad: Poison, g: nat)
    requires g < |First(p)| && First(p)[g].processedAt == None && g !in bad
    requires forall j | 0 <= j < |First(p)| && j in bad :: First(p)[j].createdAt != First(p)[g].createdAt
    requires ArePasses(p, limit, bad) && InsertsAfter(p, First(p)[g].createdAt)
    requires Length(p) >= GoodOld(First(p), bad, First(p)[g].createdAt)
    ensures g < |Table(p, limit, bad)|
    ensures Table(p, limit, bad)[g].processedAt.Some?
       <==> PoisonOld(First(p), bad, First(p)[g].createdAt - 1) < limit
  {
    hide ArePasses, Table, InsertsAfter, Length, GoodOld, PoisonOld;
    PoisonBefore(First(p), bad, First(p)[g].createdAt);
    RowProcessedOrBlocked(p, limit, bad, g);
  }

  lemma PoisonBefore(rows: seq<Entry>, bad: Poison, cut: int)
    requires forall j | 0 <= j < |rows| && j in bad :: rows[j].createdAt != cut
    ensures PoisonOld(rows, bad, cut) == PoisonOld(rows, bad, cut - 1)
  {
    assert Old(rows, cut) * bad == Old(rows, cut - 1) * bad;
  }

  lemma AtLeast(n: nat, d: int)
    requires d >= 1
    ensures n * d >= n
  {
  }

  lemma {:induction false} InsertsAfterEarlier(p: Passes, cut: int)
    requires InsertsAfter(p, cut)
    ensures InsertsAfter(p, cut - 1)
  {
    if p.OnePass? { InsertsAfterEarlier(p.before, cut); }
  }

  // ---- runs of `dispatch_once` itself ---------------------------------------------------

  /** Calls of `dispatch_once`, each on a table into which rows may have been inserted. */
  datatype Calls = NoCall(rows: seq<Entry>) | OneCall(before: Calls, inserted: seq<Entry>, sel: seq<nat>, now: int)

  /** `raises(j)`: what the handler raises for row j, every time. */
  function RaisedIn(sel: seq<nat>, raises: nat -> Option<string>): (r: seq<Option<string>>)
    ensures |r| == |sel| && forall i | 0 <= i < |sel| :: r[i] == raises(sel[i])
  {
    seq(|sel|, i requires 0 <= i < |sel| => raises(sel[i]))
  }

  predicate AreCalls(c: Calls, limit: nat, raises: nat -> Option<string>)
    decreases c, 0
  {
    c.OneCall? ==> AreCalls(c.before, limit, raises) && IsBatch(TableAfter(c.before, limit, raises) + c.inserted, limit, c.sel)
  }

  /** The table as the last call leaves it. */
  function TableAfter(c: Calls, limit: nat, raises: nat -> Option<string>): seq<Entry>
    requires AreCalls(c, limit, raises)
    decreases c, 1
  {
    if c.NoCall? then c.rows
    else
      var rows := TableAfter(c.before, limit, raises) + c.inserted;
      InRange(rows, limit, c.sel);
      Pass(rows, c.sel, AllAttempted(rows, c.sel, RaisedIn(c.sel, raises)), c.now)
  }

  function CallCount(c: Calls): nat { if c.NoCall? then 0 else 1 + CallCount(c.before) }

  function FirstTable(c: Calls): seq<Entry> { if c.NoCall? then c.rows else FirstTable(c.before) }

  predicate CallsInsertAfter(c: Calls, cut: int) {
    c.OneCall? ==> CallsInsertAfter(c.before, cut) && forall i | 0 <= i < |c.inserted| :: c.inserted[i].createdAt > cut
  }

  /** `bad` holds the rows of the table whose deliveries fail. */
  predicate AreFailing(rows: seq<Entry>, raises: nat -> Option<string>, bad: Poison) {
    forall j: nat | j < |rows| :: j in bad <==> Fails(rows[j], raises(j))
  }

  /** A call delivers exactly what does not fail. */
  lemma AttemptsObey(rows: seq<Entry>, sel: seq<nat>, raises: nat -> Option<string>, bad: Poison)
    requires AreFailing(rows, raises, bad) && forall i | 0 <= i < |sel| :: sel[i] < |rows|
    ensures Obeys(sel, AllAttempted(rows, sel, RaisedIn(sel, raises)), bad)
  {
    hide FromEntry;
  }

  /** Nothing a pass does changes whether a row fails. */
  lemma FailingStays(rows: seq<Entry>, sel: seq<nat>, raises: nat -> Option<string>, now: int, bad: Poison)
    requires Distinct(sel) && forall i | 0 <= i < |sel| :: sel[i] < |rows|
    ensures AreFailing(Pass(rows, sel, AllAttempted(rows, sel, RaisedIn(sel, raises)), now), raises, bad)
       <==> AreFailing(rows, raises, bad)
  {
    var r := Pass(rows, sel, AllAttempted(rows, sel, RaisedIn(sel, raises)), now);
    PassSettles(rows, sel, RaisedIn(sel, raises), now);
    hide FromEntry, Pass, AllAttempted;
    forall j: nat | j < |rows|
      ensures Fails(r[j], raises(j)) <==> Fails(rows[j], raises(j))
    {
      if j in sel {
        var i :| 0 <= i < |sel| && sel[i] == j;
        assert SettledAs(rows[sel[i]], r[sel[i]], raises(sel[i]), now);
      }
    }
  }

  lemma FailingPrefix(rows: seq<Entry>, inserted: seq<Entry>, raises: nat -> Option<string>, bad: Poison)
    requires AreFailing(rows + inserted, raises, bad)
    ensures AreFailing(rows, raises, bad)
  {
    forall j: nat | j < |rows|
      ensures (rows + inserted)[j] == rows[j]
    {
    }
    hide Fails;
  }

  /** Calls are passes: what the bounds above say of passes, they say of `dispatch_once`. */
  lemma {:induction false} CallsArePasses(c: Calls, limit: nat, raises: nat -> Option<string>, bad: Poison) returns (p: Passes)
    requires AreCalls(c, limit, raises) && AreFailing(TableAfter(c, limit, raises), raises, bad)
    ensures ArePasses(p, limit, bad) && Table(p, limit, bad) == TableAfter(c, limit, raises)
    ensures First(p) == FirstTable(c) && Length(p) == CallCount(c) && AreFailing(First(p), raises, bad)
    ensures forall cut | CallsInsertAfter(c, cut) :: InsertsAfter(p, cut)
  {
    if c.NoCall? {
      p := NoPass(c.rows);
    } else {
      var before := TableAfter(c.before, limit, raises);
      var rows := before + c.inserted;
      InRange(rows, limit, c.sel);
      assert Distinct(c.sel);
      hide IsBatch, AreFailing, Obeys, Pass, AllAttempted;
      FailingStays(rows, c.sel, raises, c.now, bad);
      FailingPrefix(before, c.inserted, raises, bad);
      var q := CallsArePasses(c.before, limit, raises, bad);
      AttemptsObey(rows, c.sel, raises, bad);
      p := OnePass(q, c.inserted, c.sel, AllAttempted(rows, c.sel, RaisedIn(c.sel, raises)), c.now);
    }
  }

  /** Unprocessed rows created by `cut` whose deliveries fail. */
  function FailingOld(rows: seq<Entry>, raises: nat -> Option<string>, cut: int): set<nat> {
    set j: nat | j < |rows| && rows[j].processedAt == None && rows[j].createdAt <= cut && Fails(rows[j], raises(j))
  }

  function AllFailing(rows: seq<Entry>, raises: nat -> Option<string>): Poison {
    set j: nat | j < |rows| && Fails(rows[j], raises(j))
  }

  lemma FailingIsPoison(rows: seq<Entry>, raises: nat -> Option<string>, bad: Poison, cut: int)
    requires AreFailing(rows, raises, bad)
    ensures |FailingOld(rows, raises, cut)| == PoisonOld(rows, bad, cut)
  {
    hide Fails;
    assert FailingOld(rows, raises, cut) == Old(rows, cut) * bad;
  }

  /**
   * Head-of-line blocking of `dispatch_once`: a row that decodes and whose handler
   * returns is processed by enough calls if and only if fewer than a batch of
   * failing rows are older; only a failing row of the very same creation time leaves
   * the matter to the database.
   */
  lemma DispatchedIffNotBlocked(c: Calls, limit: nat, raises: nat -> Option<string>, g: nat)
    requires g < |FirstTable(c)| && FirstTable(c)[g].processedAt == None && !Fails(FirstTable(c)[g], raises(g))
    requires forall j: nat | j < |FirstTable(c)| && Fails(FirstTable(c)[j], raises(j)) ::
               FirstTable(c)[j].createdAt != FirstTable(c)[g].createdAt
    requires AreCalls(c, limit, raises) && CallsInsertAfter(c, FirstTable(c)[g].createdAt)
    requires CallCount(c) >= |FirstTable(c)|
    ensures g < |TableAfter(c, limit, raises)|
    ensures TableAfter(c, limit, raises)[g].processedAt.Some?
       <==> |FailingOld(FirstTable(c), raises, FirstTable(c)[g].createdAt - 1)| < limit
  {
    hide *;
    var first, cut := FirstTable(c), FirstTable(c)[g].createdAt;
    var bad := AllFailing(TableAfter(c, limit, raises), raises);
    AllAreFailing(TableAfter(c, limit, raises), raises);
    var p := CallsArePasses(c, limit, raises, bad);
    BadIn(first, raises, bad, cut);
    NotBad(first, raises, bad, g);
    GoodBounded(first, bad, cut);
    FailingIsPoison(first, raises, bad, cut - 1);
    RowProcessedIffNotBlocked(p, limit, bad, g);
  }

  lemma AllAreFailing(rows: seq<Entry>, raises: nat -> Option<string>)
    ensures AreFailing(rows, raises, AllFailing(rows, raises))
  {
    hide Fails;
  }

  lemma NotBad(rows: seq<Entry>, raises: nat -> Option<string>, bad: Poison, g: nat)
    requires AreFailing(rows, raises, bad) && g < |rows| && !Fails(rows[g], raises(g))
    ensures g !in bad
  {
  }

  lemma GoodBounded(rows: seq<Entry>, bad: Poison, cut: int)
    ensures GoodOld(rows, bad, cut) <= |rows|
  {
    OldBounded(rows, cut);
    SubsetSize(Old(rows, cut) - bad, Old(rows, cut));
  }

  lemma BadIn(rows: seq<Entry>, raises: nat -> Option<string>, bad: Poison, cut: int)
    requires AreFailing(rows, raises, bad)
    requires forall j: nat | j < |rows| && Fails(rows[j], raises(j)) :: rows[j].createdAt != cut
    ensures forall j | 0 <= j < |rows| && j in bad :: rows[j].createdAt != cut
  {
    hide Fails;
  }

  lemma {:induction false} OldBounded(rows: seq<Entry>, cut: int)
    ensures |Old(rows, cut)| <= |rows|
  {
    if rows != [] {
      var n := |rows| - 1;
      OldBounded(rows[..n], cut);
      SubsetSize(Old(rows, cut), Old(rows[..n], cut) + {n});
    }
  }
}

/** Whatever has happened, a few undisturbed dispatcher passes bring every fact to its customer. */
module BillingDelivery {
  import opened Prelude
  import opened Codec
  import opened Events
  import opened InvoiceModel
  import opened InvoiceOutbox
  import opened Billing
  import opened BillingInvariant
  import opened BillingSteps
  import opened BillingSettling
  import opened BillingTheorems

  // ---- selecting ------------------------------------------------------------------------------

  lemma {:induction false} OldestOf(rows: seq<Entry>, s: set<nat>) returns (j: nat)
    requires s != {} && forall i | i in s :: i < |rows|
    ensures j in s && forall i | i in s :: rows[j].createdAt <= rows[i].createdAt
  {
    var x :| x in s;
    j := x;
    if s != {x} {
      var k := OldestOf(rows, s - {x});
      if rows[k].createdAt < rows[x].createdAt { j := k; }
    }
  }

  /** Appending the oldest row that is left makes the batch one larger. */
  lemma LargerBatch(rows: seq<Entry>, limit: nat, sel: seq<nat>, j: nat)
    requires IsBatch(rows, limit, sel) && j in Unprocessed(rows) - ToSet(sel)
    requires forall i | i in Unprocessed(rows) - ToSet(sel) :: rows[j].createdAt <= rows[i].createdAt
    ensures IsBatch(rows, limit + 1, sel + [j])
  {
    InRange(rows, limit, sel);
    OneMoreIn(sel, j);
    forall i | 0 <= i < |sel|
      ensures sel[i] in ToSet(sel) && sel[i] != j
    {
    }
  }

  lemma OneMoreIn(sel: seq<nat>, j: nat)
    ensures ToSet(sel + [j]) == ToSet(sel) + {j}
  {
    var more := sel + [j];
    assert more[|sel|] == j;
    forall i | i in ToSet(sel)
      ensures i in ToSet(more)
    {
      var k: nat :| k < |sel| && sel[k] == i;
      assert more[k] == i;
    }
  }

  lemma EmptyBatch(rows: seq<Entry>)
    ensures IsBatch(rows, 0, [])
  {
  }

  /** A batch that leaves nothing is a batch for a larger limit too. */
  lemma WholeBatch(rows: seq<Entry>, limit: nat, sel: seq<nat>)
    requires IsBatch(rows, limit, sel) && Unprocessed(rows) - ToSet(sel) == {}
    ensures IsBatch(rows, limit + 1, sel)
  {
    forall i | i in Unprocessed(rows)
      ensures i in ToSet(sel)
    {
      assert i !in Unprocessed(rows) - ToSet(sel);
    }
    assert Unprocessed(rows) == ToSet(sel);
  }

  /** `list_unprocessed` always has an answer. */
  lemma {:induction false} BatchExists(rows: seq<Entry>, limit: nat) returns (sel: seq<nat>)
    ensures IsBatch(rows, limit, sel)
  {
    if limit == 0 {
      sel := [];
      EmptyBatch(rows);
    } else {
      sel := BatchExists(rows, limit - 1);
      hide IsBatch;
      var rest := Unprocessed(rows) - ToSet(sel);
      if rest == {} {
        WholeBatch(rows, limit - 1, sel);
      } else {
        var j := OldestOf(rows, rest);
        LargerBatch(rows, limit - 1, sel, j);
        sel := sel + [j];
      }
    }
  }

  // ---- one pass -------------------------------------------------------------------------------

  /** `q` continues `r` with dispatcher steps alone, no handler failing. */
  predicate ByDispatcher(q: Run, r: Run, limit: nat) {
    || q == r
    || (&& q.Then? && ByDispatcher(q.prefix, r, limit)
        && match q.a
           case ReadBatch(_, n, _) => n == limit
           case Deliver(_, accepted, ok) => accepted && ok
           case CommitBatch(_) => true
           case _ => false)
  }

  /** Passes that committed. */
  function PassesOf(r: Run): nat { if r.Start? then 0 else PassesOf(r.prefix) + (if r.a.CommitBatch? then 1 else 0) }

  lemma {:induction false} FreshPass(used: set<PassId>) returns (p: PassId)
    ensures forall u | u in used :: u < p
  {
    p := 0;
    if used != {} {
      var x :| x in used;
      var q := FreshPass(used - {x});
      p := if q > x then q else x + 1;
      assert forall u | u in used :: u == x || u in used - {x};
    }
  }

  /** Everything but passes and emails is the same. */
  predicate SameFacts(s: State, t: State) { t == s.(passes := t.passes, emails := t.emails) }

  /** Every row an open pass has read decodes, and its customer exists. */
  lemma Deliverable(s: State, p: PassId, k: nat)
    requires Inv(s) && p in s.passes && k < |s.passes[p].read|
    ensures var e := EventOf(s.passes[p].read[k]); e.Ok? && e.value.customerId in s.customers
  {
    Parts(s);
    var pass := s.passes[p];
    assert PassFits(s, pass);
    hide Inv, AttemptsFit, RequestsFit, SendsFit, AllPreceded, CountsAgree, FromEntry;
    assert EventFits(s, EventOf(s.outbox[pass.items[k]]).value);
  }

  /** One good delivery settles its entry as processed. */
  lemma GoodDelivery(s: State, p: PassId)
    requires Inv(s) && p in s.passes && |s.passes[p].settled| < |s.passes[p].read|
    ensures Enabled(s, Deliver(p, true, true))
    ensures var t, pass := Do(s, Deliver(p, true, true)), s.passes[p];
            && SameFacts(s, t) && p in t.passes
            && t.passes[p] == pass.(settled := pass.settled + [MarkedProcessed(pass.read[|pass.settled|], s.clock)])
  {
    hide *;
    Deliverable(s, p, |s.passes[p].settled|);
    DeliverIs(s, p);
    Delivers(s, p);
  }

  lemma DeliverIs(s: State, p: PassId)
    requires p in s.passes && |s.passes[p].settled| < |s.passes[p].read|
    ensures Enabled(s, Deliver(p, true, true))
    ensures Do(s, Deliver(p, true, true)) == DoDeliver(s, p, true, true)
  {
    hide DoDeliver;
  }

  lemma Delivers(s: State, p: PassId)
    requires p in s.passes && |s.passes[p].settled| < |s.passes[p].read|
    requires var e := EventOf(s.passes[p].read[|s.passes[p].settled|]); e.Ok? && e.value.customerId in s.customers
    ensures var t, pass := DoDeliver(s, p, true, true), s.passes[p];
            && SameFacts(s, t) && p in t.passes
            && t.passes[p] == pass.(settled := pass.settled + [MarkedProcessed(pass.read[|pass.settled|], s.clock)])
  {
    hide FromEntry, Accept, EmailOf, MarkedProcessed, MarkedFailed;
  }

  predicate AllSettled(p: OpenPass, n: nat) {
    |p.settled| == n <= |p.read| && forall k | 0 <= k < n :: p.settled[k].processedAt.Some?
  }

  lemma {:induction false} DeliverSome(r: Run, p: PassId, n: nat, limit: nat) returns (q: Run)
    requires Reached(r) && p in Final(r).passes && Final(r).passes[p].settled == [] && n <= |Final(r).passes[p].read|
    ensures Reached(q) && ByDispatcher(q, r, limit) && PassesOf(q) == PassesOf(r) && SameFacts(Final(r), Final(q))
    ensures p in Final(q).passes && AllSettled(Final(q).passes[p], n)
    ensures Final(q).passes[p] == Final(r).passes[p].(settled := Final(q).passes[p].settled)
  {
    hide *;
    ReachedIsRun(r);
    q := r;
    if n == 0 {
      NoneSettled(Final(r).passes[p]);
      NoStep(r, limit);
      NoChange(Final(r));
    } else {
      var u := DeliverSome(r, p, n - 1, limit);
      ReachedIsRun(u);
      var s, pass := Final(u), Final(u).passes[p];
      SettledSize(pass, n - 1);
      InvHolds(u);
      GoodDelivery(s, p);
      ThenReached(u, Deliver(p, true, true));
      q := Then(u, Deliver(p, true, true));
      GoodStep(u, r, p, limit);
      OneMoreSettled(pass, n - 1, pass.read[n - 1], s.clock);
      FactsTrans(Final(r), s, Final(q));
    }
  }

  lemma NoneSettled(p: OpenPass)
    requires p.settled == []
    ensures AllSettled(p, 0)
  {
  }

  lemma NoStep(r: Run, limit: nat)
    ensures ByDispatcher(r, r, limit)
  {
  }

  lemma NoChange(s: State)
    ensures SameFacts(s, s)
  {
  }

  lemma FactsTrans(s: State, t: State, u: State)
    requires SameFacts(s, t) && SameFacts(t, u)
    ensures SameFacts(s, u) && u.clock == s.clock
  {
  }

  lemma GoodStep(u: Run, r: Run, p: PassId, limit: nat)
    requires ByDispatcher(u, r, limit)
    ensures var q := Then(u, Deliver(p, true, true)); ByDispatcher(q, r, limit) && PassesOf(q) == PassesOf(u)
  {
  }

  lemma OneMoreSettled(p: OpenPass, n: nat, e: Entry, now: int)
    requires AllSettled(p, n) && n < |p.read|
    ensures AllSettled(p.(settled := p.settled + [MarkedProcessed(e, now)]), n + 1)
  {
  }

  /** The rows of `items` have become processed, and no other row has changed. */
  predicate Taken(outbox: seq<Entry>, w: seq<Entry>, items: seq<nat>) {
    && |w| == |outbox|
    && forall j | 0 <= j < |outbox| :: if j in items then w[j].processedAt.Some? else w[j] == outbox[j]
  }

  lemma TakenMore(outbox: seq<Entry>, w: seq<Entry>, items: seq<nat>, j: nat, e: Entry)
    requires Taken(outbox, w, items) && j < |outbox| && e.processedAt.Some?
    ensures Taken(outbox, w[j := e], items + [j])
  {
  }

  /** What the commit of such a pass writes. */
  lemma {:induction false} WrittenProcessed(outbox: seq<Entry>, p: OpenPass, k: nat)
    requires k <= |p.settled| == |p.read| == |p.items| && AllSettled(p, |p.items|)
    requires forall i | 0 <= i < |p.items| :: p.items[i] < |outbox| && p.read[i].processedAt == None
    ensures Taken(outbox, Written(outbox, p, k), p.items[..k])
  {
    if k > 0 {
      WrittenProcessed(outbox, p, k - 1);
      var prev := Written(outbox, p, k - 1);
      MergeProcesses(prev[p.items[k - 1]], p.read[k - 1], p.settled[k - 1]);
      hide Merge, AllSettled, Taken;
      assert p.items[..k] == p.items[..k - 1] + [p.items[k - 1]];
      TakenMore(outbox, prev, p.items[..k - 1], p.items[k - 1], Merge(prev[p.items[k - 1]], p.read[k - 1], p.settled[k - 1]));
    }
  }

  lemma MergeProcesses(current: Entry, before: Entry, after: Entry)
    requires before.processedAt.None? && after.processedAt.Some?
    ensures Merge(current, before, after).processedAt.Some?
  {
  }

  lemma UnprocessedAfter(outbox: seq<Entry>, p: OpenPass)
    requires |p.settled| == |p.read| == |p.items| && AllSettled(p, |p.items|)
    requires forall i | 0 <= i < |p.items| :: p.items[i] < |outbox| && p.read[i].processedAt == None
    ensures Unprocessed(Written(outbox, p, |p.items|)) == Unprocessed(outbox) - ToSet(p.items)
  {
    WrittenProcessed(outbox, p, |p.items|);
    assert p.items[..|p.items|] == p.items;
    MembersAgree(p.items);
    hide Written, AllSettled;
  }

  /** The pass takes exactly its batch out of the unprocessed rows. */
  lemma GoodCommit(s: State, p: PassId)
    requires Inv(s) && p in s.passes && AllSettled(s.passes[p], |s.passes[p].items|)
    ensures Enabled(s, CommitBatch(p))
    ensures var t := Do(s, CommitBatch(p));
            && t == s.(outbox := t.outbox, passes := t.passes)
            && Unprocessed(t.outbox) == Unprocessed(s.outbox) - ToSet(s.passes[p].items)
  {
    hide *;
    Parts(s);
    SettledSize(s.passes[p], |s.passes[p].items|);
    PassRange(s, p);
    CommitIs(s, p);
    UnprocessedAfter(s.outbox, s.passes[p]);
  }

  lemma PassRange(s: State, p: PassId)
    requires PassesFit(s) && p in s.passes
    ensures var pass := s.passes[p];
            && |pass.read| == |pass.items|
            && forall i | 0 <= i < |pass.items| :: pass.items[i] < |s.outbox| && pass.read[i].processedAt == None
  {
    assert PassFits(s, s.passes[p]);
  }

  lemma CommitIs(s: State, p: PassId)
    requires p in s.passes && |s.passes[p].settled| == |s.passes[p].read| == |s.passes[p].items|
    requires forall i | 0 <= i < |s.passes[p].items| :: s.passes[p].items[i] < |s.outbox|
    ensures Enabled(s, CommitBatch(p))
    ensures var t := Do(s, CommitBatch(p));
            t == s.(outbox := Written(s.outbox, s.passes[p], |s.passes[p].items|), passes := t.passes)
  {
    hide Written;
  }

  lemma SettledSize(p: OpenPass, n: nat)
    requires AllSettled(p, n)
    ensures |p.settled| == n
  {
  }

  /** A whole pass that nothing disturbs. */
  lemma OnePass(r: Run, limit: nat) returns (q: Run)
    requires Reached(r)
    ensures Reached(q) && ByDispatcher(q, r, limit) && PassesOf(q) == PassesOf(r) + 1
    ensures var n, m := |Unprocessed(Final(r).outbox)|, |Unprocessed(Final(q).outbox)|;
            m == if n <= limit then 0 else n - limit
    ensures Final(q).invoices == Final(r).invoices
  {
    hide Inv, Do, Enabled, Reached, IsBatch, AllSettled, ByDispatcher, PassesOf, Unprocessed, ToSet;
    ReachedIsRun(r);
    var s := Final(r);
    var p := FreshPass(s.passes.Keys);
    var items := BatchExists(s.outbox, limit);
    var u := ReadsAll(r, p, limit, items);
    ReachedIsRun(u);
    var v := DeliverSome(u, p, |items|, limit);
    ReachedIsRun(v);
    InvHolds(v);
    GoodCommit(Final(v), p);
    ThenReached(v, CommitBatch(p));
    q := Then(v, CommitBatch(p));
    Chained(q, v, u, r, limit);
    TakenOut(s.outbox, limit, items, Final(q).outbox);
  }

  lemma ReadsAll(r: Run, p: PassId, limit: nat, items: seq<nat>) returns (q: Run)
    requires Reached(r) && p !in Final(r).passes && IsBatch(Final(r).outbox, limit, items)
    ensures Reached(q) && q == Then(r, ReadBatch(p, limit, items)) && SameFacts(Final(r), Final(q))
    ensures p in Final(q).passes && Final(q).passes[p].items == items
    ensures |Final(q).passes[p].read| == |items| && Final(q).passes[p].settled == []
    ensures forall k | 0 <= k < |items| ::
              items[k] < |Final(r).outbox| && Final(q).passes[p].read[k] == Final(r).outbox[items[k]]
  {
    InRange(Final(r).outbox, limit, items);
    hide IsBatch;
    ThenReached(r, ReadBatch(p, limit, items));
    q := Then(r, ReadBatch(p, limit, items));
  }

  lemma {:induction false} ByDispatcherTrans(q: Run, v: Run, r: Run, limit: nat)
    requires ByDispatcher(q, v, limit) && ByDispatcher(v, r, limit)
    ensures ByDispatcher(q, r, limit)
  {
    if q != v { ByDispatcherTrans(q.prefix, v, r, limit); }
  }

  /** Reading, delivering and committing, one after the other. */
  lemma Chained(q: Run, v: Run, u: Run, r: Run, limit: nat)
    requires q.Then? && q.prefix == v && q.a.CommitBatch? && ByDispatcher(v, u, limit) && PassesOf(v) == PassesOf(u)
    requires u.Then? && u.prefix == r && u.a.ReadBatch? && u.a.limit == limit
    ensures ByDispatcher(q, r, limit) && PassesOf(q) == PassesOf(r) + 1
  {
    ByDispatcherTrans(v, u, r, limit);
  }

  lemma TakenOut(rows: seq<Entry>, limit: nat, sel: seq<nat>, after: seq<Entry>)
    requires IsBatch(rows, limit, sel) && Unprocessed(after) == Unprocessed(rows) - ToSet(sel)
    ensures var n := |Unprocessed(rows)|; |Unprocessed(after)| == if n <= limit then 0 else n - limit
  {
    BatchSize(rows, limit, sel);
    DistinctSize(sel);
    assert Unprocessed(rows) == ToSet(sel) + Unprocessed(after);
  }

  // ---- a pass in steps is `dispatch_once` --------------------------------------------------------

  /** What the handlers of a batch raise. */
  function RaisedFor(s: State, entries: seq<Entry>, oks: seq<bool>): (r: seq<Option<string>>)
    requires |oks| == |entries|
    ensures |r| == |entries|
  {
    seq(|entries|, k requires 0 <= k < |entries| => HandlerRaises(s, entries[k], oks[k]))
  }

  /** The first n entries have been settled, each by its own delivery. */
  predicate SettledBy(s: State, p: OpenPass, oks: seq<bool>, n: nat) {
    && |p.settled| == n <= |p.read| == |oks|
    && forall k | 0 <= k < n ::
         p.settled[k] == Settled(p.read[k], Attempted(p.read[k], HandlerRaises(s, p.read[k], oks[k])), s.clock)
  }

  lemma AnyDelivery(s: State, p: PassId, accepted: bool, ok: bool)
    requires p in s.passes && |s.passes[p].settled| < |s.passes[p].read| && (ok ==> accepted)
    ensures Enabled(s, Deliver(p, accepted, ok))
    ensures var t, pass := Do(s, Deliver(p, accepted, ok)), s.passes[p]; var e := pass.read[|pass.settled|];
            && SameFacts(s, t) && p in t.passes
            && t.passes[p] == pass.(settled := pass.settled + [Settled(e, Attempted(e, HandlerRaises(s, e, ok)), s.clock)])
  {
    hide FromEntry, Accept, EmailOf, Settled, Attempted, HandlerRaises;
  }

  lemma RaisesAlike(s: State, t: State)
    requires SameFacts(s, t)
    ensures forall e, ok :: HandlerRaises(t, e, ok) == HandlerRaises(s, e, ok)
    ensures t.clock == s.clock && t.outbox == s.outbox
  {
    hide FromEntry;
  }

  /** `took[k]`: the email provider accepted the k-th email, even if the handler then raised. */
  lemma {:induction false} DeliversEach(r: Run, p: PassId, took: seq<bool>, oks: seq<bool>, n: nat) returns (q: Run)
    requires Reached(r) && p in Final(r).passes && Final(r).passes[p].settled == []
    requires n <= |oks| == |took| == |Final(r).passes[p].read| && forall k | 0 <= k < |oks| :: oks[k] ==> took[k]
    ensures Reached(q) && SameFacts(Final(r), Final(q))
    ensures p in Final(q).passes && SettledBy(Final(r), Final(q).passes[p], oks, n)
    ensures Final(q).passes[p] == Final(r).passes[p].(settled := Final(q).passes[p].settled)
  {
    hide *;
    ReachedIsRun(r);
    q := r;
    if n == 0 {
      NoChange(Final(r));
      NoneSettledBy(Final(r), Final(r).passes[p], oks);
    } else {
      var u := DeliversEach(r, p, took, oks, n - 1);
      ReachedIsRun(u);
      var s, pass := Final(u), Final(u).passes[p];
      SettledByCount(Final(r), pass, oks, n - 1);
      AnyDelivery(s, p, took[n - 1], oks[n - 1]);
      RaisesAlike(Final(r), s);
      ThenReached(u, Deliver(p, took[n - 1], oks[n - 1]));
      q := Then(u, Deliver(p, took[n - 1], oks[n - 1]));
      SettledByMore(Final(r), pass, oks, n - 1);
      FactsTrans(Final(r), s, Final(q));
    }
  }

  lemma NoneSettledBy(s: State, p: OpenPass, oks: seq<bool>)
    requires p.settled == [] && |p.read| == |oks|
    ensures SettledBy(s, p, oks, 0)
  {
  }

  lemma SettledByCount(s: State, p: OpenPass, oks: seq<bool>, n: nat)
    requires SettledBy(s, p, oks, n)
    ensures |p.settled| == n && |p.read| == |oks|
  {
  }

  lemma SettledByMore(s: State, p: OpenPass, oks: seq<bool>, n: nat)
    requires SettledBy(s, p, oks, n) && n < |p.read|
    ensures SettledBy(s, p.(settled := p.settled + [Settled(p.read[n], Attempted(p.read[n], HandlerRaises(s, p.read[n], oks[n])), s.clock)]),
                      oks, n + 1)
  {
    hide Settled, Attempted, HandlerRaises;
  }

  /** Over rows that are as they were read, the UPDATE writes the settled entries. */
  lemma {:induction false} WritesSettled(outbox: seq<Entry>, p: OpenPass, out: seq<Delivery>, now: int, k: nat)
    requires k <= |p.items| == |p.read| == |p.settled| == |out| && Distinct(p.items)
    requires forall i | 0 <= i < |p.items| :: p.items[i] < |outbox| && p.read[i] == outbox[p.items[i]]
    requires forall i | 0 <= i < |p.items| :: p.settled[i] == Settled(p.read[i], out[i], now)
    ensures Written(outbox, p, k) == PassUpTo(outbox, p.items, out, now, k)
  {
    if k > 0 {
      WritesSettled(outbox, p, out, now, k - 1);
      PassExact(outbox, p.items, out, now, k - 1);
      assert p.items[k - 1] !in p.items[..k - 1];
      MergeOwn(p.read[k - 1], out[k - 1], now);
      hide Merge, Settled;
    }
  }

  lemma MergeOwn(e: Entry, d: Delivery, now: int)
    ensures Merge(e, e, Settled(e, d, now)) == Settled(e, d, now)
  {
  }

  /** The read, the deliveries and the commit of a pass that nothing disturbs are one call of `dispatch_once`. */
  lemma UndisturbedPass(r: Run, p: PassId, limit: nat, items: seq<nat>, took: seq<bool>, oks: seq<bool>) returns (q: Run)
    requires Reached(r) && p !in Final(r).passes && IsBatch(Final(r).outbox, limit, items)
    requires |oks| == |took| == |items| && forall k | 0 <= k < |oks| :: oks[k] ==> took[k]
    ensures Reached(q)
    ensures forall k | 0 <= k < |items| :: items[k] < |Final(r).outbox|
    ensures var s := Final(r);
            Final(q).outbox == Pass(s.outbox, items,
              AllAttempted(s.outbox, items, RaisedFor(s, seq(|items|, k requires 0 <= k < |items| => s.outbox[items[k]]), oks)),
              s.clock)
  {
    var s := Final(r);
    InRange(s.outbox, limit, items);
    assert Distinct(items);
    var u := ReadsAll(r, p, limit, items);
    hide Do, Enabled, Reached, IsBatch, FromEntry, HandlerRaises, Attempted, Settled;
    ReachedIsRun(u);
    RaisesAlike(s, Final(u));
    var v := DeliversEach(u, p, took, oks, |items|);
    ReachedIsRun(v);
    RaisesAlike(Final(u), Final(v));
    var read := seq(|items|, k requires 0 <= k < |items| => s.outbox[items[k]]);
    CommitIs(Final(v), p);
    ThenReached(v, CommitBatch(p));
    q := Then(v, CommitBatch(p));
    WritesSettled(s.outbox, Final(v).passes[p], AllAttempted(s.outbox, items, RaisedFor(s, read, oks)), s.clock, |items|);
  }

  // ---- every fact reaches its customer ----------------------------------------------------------

  /** `n / limit`, rounded up. */
  function PassesNeeded(n: nat, limit: nat): nat
    requires limit >= 1
  {
    if n == 0 then 0 else 1 + PassesNeeded(if n <= limit then 0 else n - limit, limit)
  }

  lemma {:induction false} DrainsOutbox(r: Run, limit: nat) returns (q: Run)
    requires Reached(r) && limit >= 1
    ensures Reached(q) && ByDispatcher(q, r, limit) && AllProcessed(Final(q))
    ensures PassesOf(q) == PassesOf(r) + PassesNeeded(|Unprocessed(Final(r).outbox)|, limit)
    ensures Final(q).invoices == Final(r).invoices
    decreases |Unprocessed(Final(r).outbox)|
  {
    if Unprocessed(Final(r).outbox) == {} {
      q := r;
      forall j | 0 <= j < |Final(r).outbox|
        ensures Final(r).outbox[j].processedAt.Some?
      {
        assert j !in Unprocessed(Final(r).outbox);
      }
    } else {
      var u := OnePass(r, limit);
      q := DrainsOutbox(u, limit);
      ByDispatcherTrans(q, u, r, limit);
    }
  }

  /**
   * From every state the system can reach - requests and passes crashed half-way,
   * rows failed before - the dispatcher alone, n unprocessed rows and n / limit passes
   * later, has sent each invoice's customer exactly one email for each fact.
   */
  lemma EveryFactIsMailed(r: Run, limit: nat) returns (q: Run)
    requires Reached(r) && limit >= 1
    ensures Reached(q) && ByDispatcher(q, r, limit) && Final(q).invoices == Final(r).invoices
    ensures PassesOf(q) == PassesOf(r) + PassesNeeded(|Unprocessed(Final(r).outbox)|, limit)
    ensures forall i :: EmailCount(Final(q), ISSUED, i) ==
              if i in Final(r).invoices && Final(r).invoices[i].status != Draft then 1 else 0
    ensures forall i :: EmailCount(Final(q), PAID, i) ==
              if i in Final(r).invoices && Final(r).invoices[i].status == Paid then 1 else 0
  {
    q := DrainsOutbox(r, limit);
    hide EmailCount, AllProcessed, Reached;
    forall i
      ensures EmailCount(Final(q), ISSUED, i) == if i in Final(r).invoices && Final(r).invoices[i].status != Draft then 1 else 0
      ensures EmailCount(Final(q), PAID, i) == if i in Final(r).invoices && Final(r).invoices[i].status == Paid then 1 else 0
    {
      OneEmailPerFact(q, i);
    }
  }
}

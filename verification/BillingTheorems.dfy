/** What holds of every run of the billing system, whatever overlaps and crashes. */
module BillingTheorems {
  import opened Prelude
  import opened Codec
  import opened Events
  import opened HalfUp
  import opened InvoiceModel
  import opened InvoiceOutbox
  import opened PaymentClient
  import opened Billing
  import opened BillingInvariant
  import opened BillingSteps
  import opened BillingSettling
  import opened BillingShapes

  predicate Extends(r: Run, q: Run) { r == q || (r.Then? && Extends(r.prefix, q)) }

  lemma {:induction false} PrefixReached(r: Run, q: Run)
    requires Reached(r) && Extends(r, q)
    ensures Reached(q)
  {
    if r != q { PrefixReached(r.prefix, q); }
  }

  lemma ReachedIsRun(r: Run)
    requires Reached(r)
    ensures IsRun(r)
  {
  }

  lemma ThenReached(r: Run, a: Action)
    requires Reached(r) && Enabled(Final(r), a)
    ensures IsRun(Then(r, a)) && Reached(Then(r, a)) && Final(Then(r, a)) == Do(Final(r), a) && Extends(Then(r, a), r)
  {
    hide Do, Enabled;
  }

  // ---- payment safety --------------------------------------------------------------------

  /** `mark_paid` passed its check on a status that was no longer the committed one. */
  predicate Collides(s: State, a: Action) {
    && a.Settle? && a.seen != Paid
    && a.req in s.requests && s.requests[a.req].Returned? && s.requests[a.req].id < |s.attempts|
    && Succeeds(s.requests[a.req].outcome)
    && var i := s.attempts[s.requests[a.req].id].invoiceId;
       i in s.invoices && s.invoices[i].status == Paid
  }

  predicate NeverCollides(r: Run)
    requires IsRun(r)
  {
    r.Then? ==> NeverCollides(r.prefix) && !Collides(Final(r.prefix), r.a)
  }

  /** Every last block reads the committed status. */
  predicate ReadsCommitted(r: Run)
    requires IsRun(r)
  {
    r.Then? ==>
      && ReadsCommitted(r.prefix)
      && (r.a.Settle? ==>
            var s := Final(r.prefix); r.a.seen == s.invoices[s.attempts[s.requests[r.a.req].id].invoiceId].status)
  }

  lemma {:induction false} CommittedReadsNeverCollide(r: Run)
    requires IsRun(r) && ReadsCommitted(r)
    ensures NeverCollides(r)
  {
    if r.Then? { CommittedReadsNeverCollide(r.prefix); }
  }

  ghost predicate PaidOnce(s: State) { forall i :: SucceededAttempts(s, i) <= 1 }

  /** Only a flush and a last block touch attempts. */
  lemma OthersKeepAttempts(s: State, a: Action)
    requires Enabled(s, a) && !a.Insert? && !a.Settle?
    ensures Do(s, a).attempts == s.attempts
  {
    StepMoves(s, a);
    hide Do, Classify, Stops;
  }

  lemma InsertSuccess(s: State, req: ReqId, i: Uuid)
    requires RequestsFit(s) && req in s.requests && s.requests[req].Starting?
    ensures SucceededAttempts(DoInsert(s, req, s.requests[req].attempt), i) == SucceededAttempts(s, i)
  {
    var a := s.requests[req].attempt;
    assert RequestFits(s, s.requests[req]);
    CountAppend(s.attempts, a, IsSuccessFor(i));
  }

  /** A last block adds one success exactly when the provider succeeded and the check passed. */
  lemma SettleSuccess(s: State, req: ReqId, id: nat, o: Outcome, seen: InvoiceStatus, i: Uuid)
    requires id < |s.attempts| && s.attempts[id].invoiceId in s.invoices && s.attempts[id].status == Pending
    ensures SucceededAttempts(DoSettle(s, req, id, o, seen), i)
         == SucceededAttempts(s, i) + (if Succeeds(o) && seen != Paid && s.attempts[id].invoiceId == i then 1 else 0)
  {
    var t := DoSettle(s, req, id, o, seen);
    assert t.attempts == s.attempts[id := t.attempts[id]];
    CountUpdate(s.attempts, id, t.attempts[id], IsSuccessFor(i));
    hide CountIf, FromEvent, PaidEvent;
  }

  /** How one step moves the number of succeeded attempts. */
  lemma SuccessStep(s: State, a: Action, i: Uuid)
    requires Inv(s) && Enabled(s, a)
    ensures SucceededAttempts(Do(s, a), i) >= SucceededAttempts(s, i)
    ensures !Collides(s, a) && SucceededAttempts(s, i) <= 1 ==> SucceededAttempts(Do(s, a), i) <= 1
    ensures Collides(s, a) && i == s.attempts[s.requests[a.req].id].invoiceId ==> SucceededAttempts(Do(s, a), i) >= 2
  {
    Parts(s);
    hide Inv, SendsFit, EmailsFit, AttemptsFit, InvoicesFit, RequestsFit, RowsDescribe, AllPreceded;
    hide SucceededAttempts, Succeeds, DoSettle, DoInsert;
    if a.Insert? {
      InsertSuccess(s, a.req, i);
    } else if a.Settle? {
      var id, o := s.requests[a.req].id, s.requests[a.req].outcome;
      ReturnedFits(s, a.req, id, o);
      SettleSuccess(s, a.req, id, o, a.seen, i);
    } else {
      OthersKeepAttempts(s, a);
      SameTables(s, Do(s, a));
    }
  }

  lemma {:induction false} OnceIffNoCollision(r: Run)
    requires Reached(r)
    ensures NeverCollides(r) <==> PaidOnce(Final(r))
  {
    if r.Start? {
      assert forall i :: SucceededAttempts(Final(r), i) == 0;
    } else {
      var s := Final(r.prefix);
      OnceIffNoCollision(r.prefix);
      InvHolds(r.prefix);
      forall i
        ensures SucceededAttempts(Final(r), i) >= SucceededAttempts(s, i)
        ensures !Collides(s, r.a) && SucceededAttempts(s, i) <= 1 ==> SucceededAttempts(Final(r), i) <= 1
      {
        SuccessStep(s, r.a, i);
      }
      if Collides(s, r.a) {
        SuccessStep(s, r.a, s.attempts[s.requests[r.a.req].id].invoiceId);
      }
    }
  }

  /**
   * Whatever status the last blocks see, every block being atomic otherwise: an
   * invoice has as many InvoicePaid rows as succeeded attempts, it is PAID exactly
   * when there is one, and there is never more than one exactly when no last block
   * marked an already paid invoice on a stale status.
   */
  lemma PaymentSafety(r: Run)
    requires Reached(r)
    ensures var s := Final(r);
            forall i | i in s.invoices ::
              && PaidRows(s, i) == SucceededAttempts(s, i)
              && (s.invoices[i].status == Paid <==> SucceededAttempts(s, i) >= 1)
    ensures NeverCollides(r) <==> forall i | i in Final(r).invoices :: SucceededAttempts(Final(r), i) <= 1
  {
    InvHolds(r);
    OnceIffNoCollision(r);
    var s := Final(r);
    forall i | i !in s.invoices
      ensures SucceededAttempts(s, i) == 0
    {
      NoRowsForStrangers(s, i);
    }
  }

  /** When every last block reads committed state: PAID iff one success iff one InvoicePaid row. */
  lemma PaidExactlyOnce(r: Run, i: Uuid)
    requires Reached(r) && ReadsCommitted(r) && i in Final(r).invoices
    ensures var s := Final(r);
            && (s.invoices[i].status == Paid <==> SucceededAttempts(s, i) == 1)
            && (s.invoices[i].status == Paid <==> PaidRows(s, i) == 1)
  {
    CommittedReadsNeverCollide(r);
    PaymentSafety(r);
  }

  // ---- idempotent collection ------------------------------------------------------------------

  function MoreHistory(s: State, a: Action, id: nat, h: seq<Response>): seq<Response> {
    if CallsAttempt(s, a, id) then h + [a.response] else h
  }

  /** The responses of all requests sent for attempt `id`, in order. */
  function ResponsesOf(r: Run, id: nat): seq<Response>
    requires IsRun(r)
  {
    if r.Start? then [] else MoreHistory(Final(r.prefix), r.a, id, ResponsesOf(r.prefix, id))
  }

  /** The open request knows exactly the responses in `h`. */
  predicate Tells(maxRetries: int, pc: Pc, h: seq<Response>) {
    match pc
    case Starting(_) => true
    case Calling(_, got) => h == got && GoesOn(maxRetries, got)
    case Returned(_, o) => IsExchange(maxRetries, h) && o == Classify(h[|h| - 1])
  }

  predicate HistoryFits(s: State, id: nat, h: seq<Response>) {
    && (GoesOn(s.maxRetries, h) || IsExchange(s.maxRetries, h))
    && (id >= |s.attempts| ==> h == [])
    && forall q | q in s.requests && !s.requests[q].Starting? && s.requests[q].id == id :: Tells(s.maxRetries, s.requests[q], h)
  }

  /** The request that is sent carries on the call. */
  lemma SendHistory(s: State, a: Action, id: nat, h: seq<Response>)
    requires RequestsFit(s) && Enabled(s, a) && CallsAttempt(s, a, id) && HistoryFits(s, id, h)
    ensures HistoryFits(Do(s, a), id, h + [a.response])
  {
    var t, got, x := Do(s, a), s.requests[a.req].got, a.response;
    assert Tells(s.maxRetries, s.requests[a.req], h);
    OneMore(s.maxRetries, got, x);
    StepMoves(s, a);
    SameRetries(s, a);
    assert (h + [x])[|h|] == x;
    hide Do, Enabled, Classify, Stops, GoesOn, IsExchange;
    forall q | q in t.requests && !t.requests[q].Starting? && t.requests[q].id == id
      ensures Tells(t.maxRetries, t.requests[q], h + [x])
    {
      assert q == a.req;
    }
  }

  lemma SameRetries(s: State, a: Action)
    requires Enabled(s, a)
    ensures Do(s, a).maxRetries == s.maxRetries
  {
    hide FromEntry, IsBatch, Written, PaidEvent, IssuedEvent, Classify, Stops;
  }

  lemma QuietHistory(s: State, a: Action, id: nat, h: seq<Response>)
    requires Enabled(s, a) && !CallsAttempt(s, a, id) && HistoryFits(s, id, h)
    ensures HistoryFits(Do(s, a), id, h)
  {
    var t := Do(s, a);
    PairsStay(s, a);
    SameRetries(s, a);
    hide Do, Enabled, Classify, Stops, IsExchange;
    forall q | q in t.requests && !t.requests[q].Starting? && t.requests[q].id == id
      ensures Tells(t.maxRetries, t.requests[q], h)
    {
      QuietRequest(s, a, q);
    }
  }

  /** Without a request being sent, an open request is where it was or has just been flushed. */
  lemma QuietRequest(s: State, a: Action, q: ReqId)
    requires Enabled(s, a) && q in Do(s, a).requests && !Do(s, a).requests[q].Starting?
    requires !CallsAttempt(s, a, Do(s, a).requests[q].id)
    ensures (q in s.requests && Do(s, a).requests[q] == s.requests[q]) || Do(s, a).requests[q] == Calling(|s.attempts|, [])
  {
    StepMoves(s, a);
    hide Do, Classify, Stops;
  }

  lemma HistoryStep(s: State, a: Action, id: nat, h: seq<Response>)
    requires Inv(s) && Enabled(s, a) && HistoryFits(s, id, h)
    ensures HistoryFits(Do(s, a), id, MoreHistory(s, a, id, h))
  {
    Parts(s);
    hide Inv, Do, Enabled, HistoryFits, CallsAttempt, RequestsFit, AttemptsFit, SendsFit, OutboxFits, EmailsFit, InvoicesFit;
    if CallsAttempt(s, a, id) {
      SendHistory(s, a, id, h);
    } else {
      QuietHistory(s, a, id, h);
    }
  }

  /**
   * However a run interleaves and crashes, the requests sent for one attempt are one
   * logical call, or the beginning of one: every response but the last is retryable,
   * there are at most max(1, MAX_RETRIES), and an outcome is the last one's.
   */
  lemma {:induction false} OneExchange(r: Run, id: nat)
    requires Reached(r)
    ensures HistoryFits(Final(r), id, ResponsesOf(r, id))
  {
    if r.Start? {
      assert ResponsesOf(r, id) == [];
    } else {
      OneExchange(r.prefix, id);
      InvHolds(r.prefix);
      HistoryStep(Final(r.prefix), r.a, id, ResponsesOf(r.prefix, id));
      hide Inv, Do, Enabled, HistoryFits, CallsAttempt;
    }
  }

  /** The first request of a logical provider call for attempt `id`. */
  predicate BeginsCall(s: State, a: Action, id: nat) { CallsAttempt(s, a, id) && s.requests[a.req].got == [] }

  /** Logical provider calls made for attempt `id`. */
  function CallsOf(r: Run, id: nat): nat
    requires IsRun(r)
  {
    if r.Start? then 0 else CallsOf(r.prefix, id) + (if BeginsCall(Final(r.prefix), r.a, id) then 1 else 0)
  }

  /** Attempt `id` has been committed and its call has not begun. */
  ghost predicate Unsent(s: State, id: nat) {
    exists q :: q in s.requests && s.requests[q] == Calling(id, [])
  }

  lemma {:induction false} CallsBounded(r: Run, id: nat)
    requires Reached(r)
    ensures CallsOf(r, id) == if ResponsesOf(r, id) == [] then 0 else 1
    ensures Unsent(Final(r), id) || id >= |Final(r).attempts| ==> CallsOf(r, id) == 0
  {
    OneExchange(r, id);
    if r.Then? {
      CallsBounded(r.prefix, id);
      OneExchange(r.prefix, id);
      hide Do, Enabled, IsExchange, Classify;
    }
    NotYetSent(Final(r), id, ResponsesOf(r, id));
  }

  lemma NotYetSent(s: State, id: nat, h: seq<Response>)
    requires HistoryFits(s, id, h)
    ensures Unsent(s, id) || id >= |s.attempts| ==> h == []
  {
    if Unsent(s, id) {
      var q :| q in s.requests && s.requests[q] == Calling(id, []);
      assert Tells(s.maxRetries, s.requests[q], h);
    }
  }

  /**
   * For each invoice and key: one attempt at most, one logical call at most, at
   * most max(1, MAX_RETRIES) HTTP requests, all of them asking for the invoice's
   * total, and a charge under a key is one that some such request asked for.
   */
  lemma IdempotentCollection(r: Run)
    requires Reached(r)
    ensures var s := Final(r);
            && (forall a, b | 0 <= a < |s.attempts| && 0 <= b < |s.attempts| && SamePair(s.attempts[a], s.attempts[b]) :: a == b)
            && (forall a | 0 <= a < |s.attempts| :: CallsOf(r, a) <= 1)
            && (forall i, key :: SendCount(s, i, key) <= MaxSends(s.maxRetries))
            && (forall j | 0 <= j < |s.sends| ::
                  && s.sends[j].invoiceId in s.invoices
                  && s.sends[j].amount == Total(s.invoices[s.sends[j].invoiceId].lines)
                  && HasAttempt(s, s.sends[j].invoiceId, s.sends[j].key))
            && (forall key | key in s.charges :: ChargeFits(s, key))
  {
    InvHolds(r);
    forall a | 0 <= a < |Final(r).attempts|
      ensures CallsOf(r, a) <= 1
    {
      CallsBounded(r, a);
    }
    CollectionFits(Final(r));
    hide Inv, CallsOf, SendCount, HasAttempt, ChargeFits, Total, SamePair;
  }

  lemma CollectionFits(s: State)
    requires Inv(s)
    ensures forall a, b | 0 <= a < |s.attempts| && 0 <= b < |s.attempts| && SamePair(s.attempts[a], s.attempts[b]) :: a == b
    ensures forall i, key :: SendCount(s, i, key) <= MaxSends(s.maxRetries)
    ensures forall j | 0 <= j < |s.sends| ::
              && s.sends[j].invoiceId in s.invoices
              && s.sends[j].amount == Total(s.invoices[s.sends[j].invoiceId].lines)
              && HasAttempt(s, s.sends[j].invoiceId, s.sends[j].key)
    ensures forall key | key in s.charges :: ChargeFits(s, key)
  {
    Parts(s);
    hide Inv, RequestsFit, OutboxFits, EmailsFit, InvoicesFit, SendCount, Total, ChargeFits;
    forall j | 0 <= j < |s.sends|
      ensures Owes(s, s.sends[j].invoiceId, s.sends[j].amount, s.sends[j].currency)
    {
    }
  }

  // ---- frozen invoices ---------------------------------------------------------------------------

  /** Every attempt and every stored event carries the total and the currency the invoice has now. */
  lemma FrozenInvoice(r: Run)
    requires Reached(r)
    ensures var s := Final(r);
            && (forall a | 0 <= a < |s.attempts| ::
                  && s.attempts[a].invoiceId in s.invoices
                  && s.attempts[a].amount == Total(s.invoices[s.attempts[a].invoiceId].lines)
                  && s.attempts[a].currency == s.invoices[s.attempts[a].invoiceId].currency)
            && (forall j | 0 <= j < |s.outbox| ::
                  && EventOf(s.outbox[j]).Ok?
                  && var e := EventOf(s.outbox[j]).value;
                     e.invoiceId in s.invoices && e.total == Total(s.invoices[e.invoiceId].lines)
                     && e.currency == s.invoices[e.invoiceId].currency)
  {
    InvHolds(r);
    hide RequestsFit, EmailsFit, SendsFit, AllPreceded, CountsAgree, Total;
    var s := Final(r);
    forall j | 0 <= j < |s.outbox|
      ensures EventOf(s.outbox[j]).Ok? && EventFits(s, EventOf(s.outbox[j]).value)
    {
    }
  }

  /** Statuses only advance, an issued invoice keeps its lines, a settled attempt keeps everything. */
  predicate Later(s: State, t: State) {
    && (forall i | i in s.invoices ::
          && i in t.invoices && Rank(s.invoices[i].status) <= Rank(t.invoices[i].status)
          && (s.invoices[i].status != Draft ==>
                s.invoices[i].lines == t.invoices[i].lines && s.invoices[i].issuedAt == t.invoices[i].issuedAt))
    && |s.attempts| <= |t.attempts|
    && (forall a | 0 <= a < |s.attempts| :: NextAttempt(s.attempts[a], t.attempts[a]))
  }

  lemma LaterStep(p: State, s: State, t: State)
    requires Later(p, s) && InvoicesGrow(s, t) && AttemptsGrow(s, t)
    ensures Later(p, t)
  {
  }

  lemma GrowParts(s: State, t: State)
    requires Grows(s, t)
    ensures InvoicesGrow(s, t) && AttemptsGrow(s, t) && |s.attempts| <= |t.attempts|
  {
  }

  /** Nothing that happens later in a run reopens anything. */
  lemma {:induction false} NothingReopens(r: Run, q: Run)
    requires Reached(r) && Extends(r, q) && Reached(q)
    ensures Later(Final(q), Final(r))
  {
    if r != q {
      InvHolds(r.prefix);
      NothingReopens(r.prefix, q);
      StepKeeps(Final(r.prefix), r.a);
      hide Inv, Grows, Later, InvoicesGrow, AttemptsGrow, Do, Enabled;
      GrowParts(Final(r.prefix), Do(Final(r.prefix), r.a));
      LaterStep(Final(q), Final(r.prefix), Do(Final(r.prefix), r.a));
    }
  }

  /** Although `mark_paid` accepts a draft, a paid invoice has been ISSUED before, with the lines it has now. */
  lemma {:induction false} PaidWasIssued(r: Run, i: Uuid) returns (q: Run)
    requires Reached(r) && i in Final(r).invoices && Final(r).invoices[i].status == Paid
    ensures Extends(r, q) && Reached(q) && i in Final(q).invoices
    ensures Final(q).invoices[i].status == Issued && Final(q).invoices[i].lines == Final(r).invoices[i].lines
  {
    var s := Final(r.prefix);
    InvHolds(r.prefix);
    PaidBefore(s, r.a, i);
    hide Inv, Grows, Do, Enabled;
    if s.invoices[i].status == Issued {
      q := r.prefix;
    } else {
      q := PaidWasIssued(r.prefix, i);
    }
  }

  /** A step that ends with a paid invoice started with it issued, or paid, with the same lines. */
  lemma PaidBefore(s: State, a: Action, i: Uuid)
    requires Inv(s) && Enabled(s, a) && i in Do(s, a).invoices && Do(s, a).invoices[i].status == Paid
    ensures i in s.invoices && s.invoices[i].status != Draft && s.invoices[i].lines == Do(s, a).invoices[i].lines
  {
    hide Inv, Grows, Do, Enabled;
    StepKeeps(s, a);
    GrowParts(s, Do(s, a));
    FreshAreDrafts(s, a, i);
  }

  lemma FreshAreDrafts(s: State, a: Action, i: Uuid)
    requires Enabled(s, a) && i in Do(s, a).invoices && Do(s, a).invoices[i].status != Draft
    ensures i in s.invoices
  {
    if OfRequest(a) {
      StepMoves(s, a);
    } else if a.AddLine? || a.Issue? {
      DraftShape(s, a);
    } else if !a.CreateInvoice? {
      OthersKeepRequests(s, a);
    }
    hide DoLookup, DoInsert, DoSendOnce, DoSettle, DoIssue, DoAddLine, DoRead, DoDeliver, DoCommit, IsBatch, Classify;
  }

  /** Steps of the run that changed the status of attempt `a`. */
  function StatusChanges(r: Run, a: nat): nat
    requires IsRun(r)
  {
    if r.Start? then 0
    else
      var s, t := Final(r.prefix), Final(r);
      StatusChanges(r.prefix, a)
      + (if a < |s.attempts| && a < |t.attempts| && s.attempts[a].status != t.attempts[a].status then 1 else 0)
  }

  /** Although `succeed` and `fail` have no guard, an attempt leaves PENDING at most once. */
  lemma {:induction false} LeavesPendingOnce(r: Run, a: nat)
    requires Reached(r)
    ensures StatusChanges(r, a) <= 1
    ensures a < |Final(r).attempts| && Final(r).attempts[a].status == Pending ==> StatusChanges(r, a) == 0
    ensures a >= |Final(r).attempts| ==> StatusChanges(r, a) == 0
  {
    if r.Then? {
      LeavesPendingOnce(r.prefix, a);
      InvHolds(r.prefix);
      AttemptStep(Final(r.prefix), r.a, a);
      hide Inv, Do, Enabled;
    }
  }

  lemma AttemptStep(s: State, c: Action, a: nat)
    requires Inv(s) && Enabled(s, c)
    ensures |s.attempts| <= |Do(s, c).attempts|
    ensures a < |s.attempts| && s.attempts[a].status != Pending ==> Do(s, c).attempts[a].status == s.attempts[a].status
  {
    hide Inv, Grows, Do, Enabled;
    StepKeeps(s, c);
    GrowParts(s, Do(s, c));
  }

  // ---- what the provider said is what is stored ------------------------------------------------------

  /** The last response of the call, read off the wire, against the attempt it settled. */
  predicate SettledBy(x: Attempt, last: Response) {
    && x.completedAt.Some?
    && match last
       case TransportFailure => x.status == Failed && x.errorMessage == Some("payment provider request failed")
       case RequestFailure => x.status == Failed && x.errorMessage == Some("payment provider request failed")
       case Http(status, body) =>
         if 200 <= status < 300 then
           match body
           case Success(pid) => x.status == Succeeded && x.providerPaymentId == pid && x.errorMessage == None
           case Declined(m) =>
             x.status == Failed && x.errorMessage == Some(if m.Some? && m.value != "" then m.value else "payment failed")
           case Malformed => false
         else
           !(400 <= status < 500) && x.status == Failed && x.errorMessage == Some("payment provider returned an error")
  }

  /** One last block, for the outcome of one response. */
  lemma SettleTells(s: State, req: ReqId, id: nat, x: Response, seen: InvoiceStatus)
    requires id < |s.attempts| && s.attempts[id].invoiceId in s.invoices && s.attempts[id].status == Pending
    ensures var t := DoSettle(s, req, id, Classify(x), seen);
            && |t.attempts| == |s.attempts| && t.attempts == s.attempts[id := t.attempts[id]]
            && (t.attempts[id] == s.attempts[id] || SettledBy(t.attempts[id], x))
  {
    hide PaidEvent, FromEvent, AsPaid;
    assert s.attempts[id := s.attempts[id]] == s.attempts;
  }

  /** Only the last block of its own request settles an attempt. */
  lemma SettlesOwn(s: State, c: Action, a: nat)
    requires Inv(s) && Enabled(s, c) && a < |Do(s, c).attempts| && Do(s, c).attempts[a].status != Pending
    requires a < |s.attempts| ==> s.attempts[a].status == Pending
    ensures a < |s.attempts| && c.Settle? && c.req in s.requests && s.requests[c.req].Returned? && s.requests[c.req].id == a
  {
    hide Inv, Do, Enabled, Classify, Stops, RequestsFit;
    if c.Insert? {
      InsertsPending(s, c);
    } else if c.Settle? {
      SettlesOne(s, c);
    } else {
      OthersKeepAttempts(s, c);
    }
  }

  lemma InsertsPending(s: State, c: Action)
    requires Inv(s) && Enabled(s, c) && c.Insert?
    ensures var t := Do(s, c);
            |s.attempts| <= |t.attempts|
            && forall a | 0 <= a < |t.attempts| :: if a < |s.attempts| then t.attempts[a] == s.attempts[a] else t.attempts[a].status == Pending
  {
    InsertDoes(s, c);
    hide *;
    Parts(s);
    StartingOwes(s, c.req, s.requests[c.req].attempt);
    InsertsOne(s, c.req, s.requests[c.req].attempt);
  }

  lemma InsertDoes(s: State, c: Action)
    requires Enabled(s, c) && c.Insert?
    ensures c.req in s.requests && s.requests[c.req] == Starting(s.requests[c.req].attempt)
    ensures Do(s, c) == DoInsert(s, c.req, s.requests[c.req].attempt)
  {
    hide DoInsert;
  }

  lemma InsertsOne(s: State, req: ReqId, x: Attempt)
    requires x.status == Pending
    ensures var t := DoInsert(s, req, x);
            |s.attempts| <= |t.attempts|
            && forall a | 0 <= a < |t.attempts| :: if a < |s.attempts| then t.attempts[a] == s.attempts[a] else t.attempts[a].status == Pending
  {
    hide FindAttempt;
  }

  lemma SettlesOne(s: State, c: Action)
    requires Enabled(s, c) && c.Settle?
    ensures c.req in s.requests && s.requests[c.req].Returned?
    ensures var t := Do(s, c);
            |t.attempts| == |s.attempts|
            && forall a | 0 <= a < |s.attempts| && a != s.requests[c.req].id :: t.attempts[a] == s.attempts[a]
  {
    StepMoves(s, c);
    hide Do;
  }

  lemma OpenIsPending(s: State)
    requires RequestsFit(s)
    ensures forall q | q in s.requests && s.requests[q].Starting? :: s.requests[q].attempt.status == Pending
    ensures forall q | q in s.requests && s.requests[q].Calling? && s.requests[q].id < |s.attempts| ::
              s.attempts[s.requests[q].id].status == Pending
  {
    forall q | q in s.requests
      ensures RequestFits(s, s.requests[q])
    {
    }
    hide GoesOn, SendCount, Owes;
  }

  lemma SettledStays(s: State, c: Action, a: nat)
    requires Inv(s) && Enabled(s, c) && a < |s.attempts| && s.attempts[a].status != Pending
    ensures a < |Do(s, c).attempts| && Do(s, c).attempts[a] == s.attempts[a] && !CallsAttempt(s, c, a)
  {
    Parts(s);
    hide Inv, Grows, Do, Enabled;
    StepKeeps(s, c);
    GrowParts(s, Do(s, c));
    OpenIsPending(s);
    hide RequestsFit;
  }

  lemma SettleIs(s: State, c: Action, a: nat, h: seq<Response>)
    requires Inv(s) && Enabled(s, c) && c.Settle? && c.req in s.requests && s.requests[c.req].Returned?
    requires s.requests[c.req].id == a && HistoryFits(s, a, h)
    ensures IsExchange(s.maxRetries, h)
    ensures a < |s.attempts| && a < |Do(s, c).attempts|
    ensures Do(s, c).attempts[a] == s.attempts[a] || SettledBy(Do(s, c).attempts[a], h[|h| - 1])
    ensures !CallsAttempt(s, c, a)
  {
    hide *;
    var o := s.requests[c.req].outcome;
    assert s.requests[c.req] == Returned(a, o);
    Parts(s);
    ReturnedFits(s, c.req, a, o);
    ReturnedTells(s, c.req, a, o, h);
    SettleDoes(s, c);
    SettleTells(s, c.req, a, h[|h| - 1], c.seen);
  }

  lemma ReturnedTells(s: State, q: ReqId, a: nat, o: Outcome, h: seq<Response>)
    requires HistoryFits(s, a, h) && q in s.requests && s.requests[q] == Returned(a, o)
    ensures IsExchange(s.maxRetries, h) && |h| >= 1 && o == Classify(h[|h| - 1])
  {
    assert Tells(s.maxRetries, s.requests[q], h);
    hide Classify;
  }

  lemma SettleDoes(s: State, c: Action)
    requires Enabled(s, c) && c.Settle?
    ensures c.req in s.requests && s.requests[c.req].Returned? && s.requests[c.req].id < |s.attempts|
    ensures s.attempts[s.requests[c.req].id].invoiceId in s.invoices
    ensures Do(s, c) == DoSettle(s, c.req, s.requests[c.req].id, s.requests[c.req].outcome, c.seen)
    ensures forall a :: !CallsAttempt(s, c, a)
  {
    hide DoSettle;
  }

  /** A settled attempt is what its history says. */
  predicate SettledFits(s: State, a: nat, h: seq<Response>) {
    a < |s.attempts| && s.attempts[a].status != Pending ==> IsExchange(s.maxRetries, h) && SettledBy(s.attempts[a], h[|h| - 1])
  }

  lemma SettledMeans(s: State, a: nat, h: seq<Response>)
    requires SettledFits(s, a, h) && a < |s.attempts| && s.attempts[a].status != Pending
    ensures IsExchange(s.maxRetries, h) && |h| >= 1 && SettledBy(s.attempts[a], h[|h| - 1])
  {
    hide SettledBy;
  }

  lemma SettledStep(s: State, c: Action, a: nat, h: seq<Response>)
    requires Inv(s) && Enabled(s, c) && HistoryFits(s, a, h)
    requires SettledFits(s, a, h)
    ensures SettledFits(Do(s, c), a, MoreHistory(s, c, a, h))
  {
    hide Inv, Do, Enabled, SettledBy, IsExchange, HistoryFits, CallsAttempt;
    SameRetries(s, c);
    if a < |s.attempts| && s.attempts[a].status != Pending {
      SettledStays(s, c, a);
    } else if a < |Do(s, c).attempts| && Do(s, c).attempts[a].status != Pending {
      SettlesOwn(s, c, a);
      SettleIs(s, c, a, h);
    }
  }

  lemma {:induction false} SettledFitsHolds(r: Run, a: nat)
    requires Reached(r)
    ensures SettledFits(Final(r), a, ResponsesOf(r, a))
  {
    if r.Start? {
    } else {
      SettledFitsHolds(r.prefix, a);
      InvHolds(r.prefix);
      OneExchange(r.prefix, a);
      SettledStep(Final(r.prefix), r.a, a, ResponsesOf(r.prefix, a));
      hide Inv, Do, Enabled, SettledFits, HistoryFits, MoreHistory;
    }
  }

  /**
   * Over every run: an attempt that has left PENDING was settled as the last response
   * of its one complete provider call says - payment id, failure message and all.
   */
  lemma SettledAsAnswered(r: Run, a: nat)
    requires Reached(r) && a < |Final(r).attempts| && Final(r).attempts[a].status != Pending
    ensures var h := ResponsesOf(r, a);
            IsExchange(Final(r).maxRetries, h) && SettledBy(Final(r).attempts[a], h[|h| - 1])
  {
    SettledFitsHolds(r, a);
    SettledMeans(Final(r), a, ResponsesOf(r, a));
    hide IsExchange, SettledBy, Reached, ResponsesOf;
  }

  // ---- end to end ------------------------------------------------------------------------------------

  /** Emails of one kind about one invoice. */
  function EmailCount(s: State, eventType: string, i: Uuid): nat {
    CountIf(s.emails, (m: Email) => m.eventType == eventType && m.invoiceId == i)
  }

  function KeyCount(s: State, eventType: string, i: Uuid): nat {
    CountIf(s.emails, (m: Email) => m.key == EmailKey(eventType, i))
  }

  /** Every email is of one of the two kinds, and its key says which, and for which invoice. */
  predicate KindFits(m: Email) {
    && m.eventType in {ISSUED, PAID}
    && (m.eventType == ISSUED ==> m.key == "invoice-issued:" + UuidText(m.invoiceId))
    && (m.eventType == PAID ==> m.key == "invoice-paid:" + UuidText(m.invoiceId))
  }

  lemma EmailKind(s: State, k: nat)
    requires EmailsFit(s) && k < |s.emails|
    ensures KindFits(s.emails[k]) && s.emails[k].key == EmailKey(s.emails[k].eventType, s.emails[k].invoiceId)
  {
    hide FromEntry, UuidText;
    assert EmailFits(s, s.emails[k]);
    assert "invoice.issued"[8] != "invoice.paid"[8];
  }

  lemma KindsAreKeys(s: State, eventType: string, i: Uuid)
    requires EmailsFit(s) && eventType in {ISSUED, PAID}
    ensures EmailCount(s, eventType, i) == KeyCount(s, eventType, i)
  {
    var p, q := (m: Email) => m.eventType == eventType && m.invoiceId == i, (m: Email) => m.key == EmailKey(eventType, i);
    hide EmailsFit, EmailKey;
    forall k | 0 <= k < |s.emails|
      ensures p(s.emails[k]) == q(s.emails[k])
    {
      EmailKind(s, k);
      EmailKeyInjective(s.emails[k].eventType, s.emails[k].invoiceId, eventType, i);
    }
    CountAgrees(s.emails, p, q);
  }

  predicate AllProcessed(s: State) {
    forall j | 0 <= j < |s.outbox| :: s.outbox[j].processedAt.Some?
  }

  lemma AtMostOneEmail(s: State, eventType: string, i: Uuid)
    requires EmailsFit(s)
    ensures KeyCount(s, eventType, i) <= 1
  {
    CountAtMostOne(s.emails, (m: Email) => m.key == EmailKey(eventType, i));
  }

  /** An email exists only for a stored event of its kind, and says what the event says. */
  lemma EmailHasRow(s: State, eventType: string, i: Uuid) returns (j: nat)
    requires EmailsFit(s) && eventType in {ISSUED, PAID} && KeyCount(s, eventType, i) >= 1
    ensures j < |s.outbox| && IsEventFor(eventType, i)(s.outbox[j])
  {
    hide FromEntry, UuidText;
    var m := CountWitness(s.emails, (m: Email) => m.key == EmailKey(eventType, i));
    assert EmailFits(s, s.emails[m]);
    j :| 0 <= j < |s.outbox| && EventOf(s.outbox[j]).Ok?
      && var e := EventOf(s.outbox[j]).value; e.customerId in s.customers && s.emails[m] == EmailOf(e, s.customers[e.customerId]);
    var e := EventOf(s.outbox[j]).value;
    DecodedClass(s.outbox[j].eventType, s.outbox[j].payload);
    EmailKeyInjective(eventType, i, EventType(e), e.invoiceId);
  }

  /** A processed row has had its email. */
  lemma RowHasEmail(s: State, eventType: string, i: Uuid, j: nat)
    requires EmailsFit(s) && j < |s.outbox| && s.outbox[j].processedAt.Some?
    requires IsEventFor(eventType, i)(s.outbox[j])
    ensures KeyCount(s, eventType, i) >= 1
  {
    hide FromEntry, UuidText;
    assert SentFor(s, s.outbox[j]);
    var k :| 0 <= k < |s.emails| && s.emails[k].key == EmailKey(eventType, i);
    CountPositive(s.emails, k, (m: Email) => m.key == EmailKey(eventType, i));
  }

  /** Emails of one kind against outbox rows of that kind. */
  lemma EmailsMatchRows(s: State, eventType: string, i: Uuid)
    requires EmailsFit(s) && eventType in {ISSUED, PAID}
    ensures EmailCount(s, eventType, i) <= 1
    ensures EmailCount(s, eventType, i) == 1 ==> CountIf(s.outbox, IsEventFor(eventType, i)) >= 1
    ensures AllProcessed(s) ==>
              (EmailCount(s, eventType, i) == 1 <==> CountIf(s.outbox, IsEventFor(eventType, i)) >= 1)
  {
    AtMostOneEmail(s, eventType, i);
    KindsAreKeys(s, eventType, i);
    hide EmailsFit, FromEntry, EmailKey, EmailCount, KeyCount;
    if EmailCount(s, eventType, i) >= 1 {
      var j := EmailHasRow(s, eventType, i);
      CountPositive(s.outbox, j, IsEventFor(eventType, i));
    }
    if AllProcessed(s) && CountIf(s.outbox, IsEventFor(eventType, i)) >= 1 {
      var j := CountWitness(s.outbox, IsEventFor(eventType, i));
      RowHasEmail(s, eventType, i, j);
    }
  }

  /**
   * End to end: whatever overlaps, crashes and is delivered again, each invoice
   * has at most one "issued" and one "paid" email, and only if it was issued or
   * paid; once no unprocessed row is left it has exactly those.
   */
  lemma OneEmailPerFact(r: Run, i: Uuid)
    requires Reached(r)
    ensures var s := Final(r);
            && EmailCount(s, ISSUED, i) <= 1 && EmailCount(s, PAID, i) <= 1
            && (EmailCount(s, ISSUED, i) == 1 ==> i in s.invoices && s.invoices[i].status != Draft)
            && (EmailCount(s, PAID, i) == 1 ==> i in s.invoices && s.invoices[i].status == Paid)
            && (AllProcessed(s) ==>
                  && (EmailCount(s, ISSUED, i) == 1 <==> i in s.invoices && s.invoices[i].status != Draft)
                  && (EmailCount(s, PAID, i) == 1 <==> i in s.invoices && s.invoices[i].status == Paid))
  {
    var s := Final(r);
    InvHolds(r);
    Parts(s);
    assert CountsAgree(s);
    if i !in s.invoices { NoRowsForStrangers(s, i); }
    hide EmailsFit, EmailCount, CountIf, Inv, IsEventFor, AllProcessed;
    EmailsMatchRows(s, ISSUED, i);
    EmailsMatchRows(s, PAID, i);
    assert IssuedRows(s, i) == CountIf(s.outbox, IsEventFor(ISSUED, i));
    assert PaidRows(s, i) == CountIf(s.outbox, IsEventFor(PAID, i));
  }

  /**
   * Every email goes to the customer of its invoice and states the invoice's total;
   * it is the "issued" or the "paid" one, its key says so, and so does the invoice.
   */
  lemma EmailsTellTheTruth(r: Run, k: nat)
    requires Reached(r) && k < |Final(r).emails|
    ensures var s := Final(r); var m := s.emails[k];
            && m.invoiceId in s.invoices && s.invoices[m.invoiceId].customerId in s.customers
            && m.recipient == s.customers[s.invoices[m.invoiceId].customerId]
            && m.total == Total(s.invoices[m.invoiceId].lines) && m.currency == s.invoices[m.invoiceId].currency
            && KindFits(m)
            && (m.eventType == ISSUED ==> s.invoices[m.invoiceId].status != Draft)
            && (m.eventType == PAID ==> s.invoices[m.invoiceId].status == Paid)
  {
    var s := Final(r);
    InvHolds(r);
    hide *;
    Parts(s);
    EmailKind(s, k);
    var e := EmailEvent(s, k);
    EventTruth(s, e, s.emails[k]);
  }

  /** The event that an email reports. */
  lemma EmailEvent(s: State, k: nat) returns (e: Event)
    requires EmailsFit(s) && OutboxFits(s) && k < |s.emails|
    ensures EventFits(s, e) && e.customerId in s.customers && s.emails[k] == EmailOf(e, s.customers[e.customerId])
  {
    hide FromEntry, UuidText, EventFits, EmailOf, AllPreceded, CountsAgree;
    assert EmailFits(s, s.emails[k]);
    var j :| 0 <= j < |s.outbox| && EventOf(s.outbox[j]).Ok?
      && var e := EventOf(s.outbox[j]).value; e.customerId in s.customers && s.emails[k] == EmailOf(e, s.customers[e.customerId]);
    e := EventOf(s.outbox[j]).value;
  }

  lemma EventTruth(s: State, e: Event, m: Email)
    requires EventFits(s, e) && e.customerId in s.customers && m == EmailOf(e, s.customers[e.customerId])
    ensures m.invoiceId in s.invoices && s.invoices[m.invoiceId].customerId in s.customers
    ensures m.recipient == s.customers[s.invoices[m.invoiceId].customerId]
    ensures m.total == Total(s.invoices[m.invoiceId].lines) && m.currency == s.invoices[m.invoiceId].currency
    ensures m.eventType == ISSUED ==> s.invoices[m.invoiceId].status != Draft
    ensures m.eventType == PAID ==> s.invoices[m.invoiceId].status == Paid
  {
    assert "invoice.issued"[8] != "invoice.paid"[8];
    hide Total, UuidText;
  }

  /** The outbox tells each invoice's story in order: issued once, and before any payment. */
  lemma IssuedOnceAndFirst(r: Run, i: Uuid)
    requires Reached(r)
    ensures var s := Final(r);
            && IssuedRows(s, i) == (if i in s.invoices && s.invoices[i].status != Draft then 1 else 0)
            && forall j | 0 <= j < |s.outbox| && IsEventFor(PAID, i)(s.outbox[j]) ::
                 exists h :: 0 <= h < j && IsEventFor(ISSUED, i)(s.outbox[h])
  {
    var s := Final(r);
    InvHolds(r);
    assert AllPreceded(s.outbox) && CountsAgree(s);
    hide Inv, EventOf;
    forall j | 0 <= j < |s.outbox| && IsEventFor(PAID, i)(s.outbox[j])
      ensures exists h :: 0 <= h < j && IsEventFor(ISSUED, i)(s.outbox[h])
    {
      assert Preceded(s.outbox, j);
    }
  }
}

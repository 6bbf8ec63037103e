/** The last block of a payment request and the dispatcher passes keep the invariant; so does every step. */
module BillingSettling {
  import opened Prelude
  import opened Codec
  import opened Events
  import opened HalfUp
  import opened InvoiceModel
  import opened InvoiceOutbox
  import opened PaymentClient
  import opened Billing
  import opened BillingInvariant
  import opened BillingSteps

  // ---- settling a request ------------------------------------------------------------------

  /** Request `req` is over and its attempt has become `b`. */
  predicate Closes(s: State, t: State, req: ReqId, id: nat, b: Attempt) {
    && req in s.requests && s.requests[req].Returned? && s.requests[req].id == id < |s.attempts|
    && NextAttempt(s.attempts[id], b) && b.status != Pending
    && t.attempts == s.attempts[id := b] && t.requests == s.requests - {req}
    && t.sends == s.sends && t.charges == s.charges && t.maxRetries == s.maxRetries
  }

  lemma ClosesAttempts(s: State, t: State, req: ReqId, id: nat, b: Attempt)
    requires AttemptsFit(s) && InvoicesGrow(s, t) && Closes(s, t, req, id, b)
    ensures AttemptsFit(t) && AttemptsGrow(s, t)
  {
    OwesStays(s, t);
    hide Owes, InvoicesGrow;
    forall a | 0 <= a < |t.attempts|
      ensures Owes(t, t.attempts[a].invoiceId, t.attempts[a].amount, t.attempts[a].currency)
    {
      assert Owes(s, s.attempts[a].invoiceId, s.attempts[a].amount, s.attempts[a].currency);
    }
  }

  lemma OwesStays(s: State, t: State)
    requires InvoicesGrow(s, t)
    ensures forall id, amount, currency | Owes(s, id, amount, currency) :: Owes(t, id, amount, currency)
  {
  }

  lemma ClosesRequests(s: State, t: State, req: ReqId, id: nat, b: Attempt)
    requires RequestsFit(s) && InvoicesGrow(s, t) && Closes(s, t, req, id, b)
    ensures RequestsFit(t)
  {
    SameSends(s, t);
    OwesStays(s, t);
    hide Owes, SendCount, InvoicesGrow;
    forall r | r in t.requests
      ensures RequestFits(t, t.requests[r])
    {
      assert RequestFits(s, s.requests[r]);
      if !s.requests[r].Starting? { assert s.requests[r].id != id; }
    }
  }

  /** The attempt was PENDING, and a success was charged. */
  lemma ReturnedFits(s: State, req: ReqId, id: nat, o: Outcome)
    requires RequestsFit(s) && req in s.requests && s.requests[req] == Returned(id, o)
    ensures id < |s.attempts| && s.attempts[id].status == Pending
    ensures Succeeds(o) ==> s.attempts[id].key in s.charges
  {
    assert RequestFits(s, s.requests[req]);
  }

  lemma ClosesCharged(s: State, t: State, req: ReqId, id: nat, b: Attempt)
    requires SuccessesCharged(s) && Closes(s, t, req, id, b)
    requires b.status == Succeeded ==> b.key in s.charges
    ensures SuccessesCharged(t)
  {
  }

  lemma ClosesCounts(s: State, t: State, req: ReqId, id: nat, b: Attempt)
    requires Closes(s, t, req, id, b) && s.attempts[id].status == Pending
    ensures forall i :: SucceededAttempts(t, i)
              == SucceededAttempts(s, i) + (if b.status == Succeeded && b.invoiceId == i then 1 else 0)
  {
    forall i
      ensures SucceededAttempts(t, i)
              == SucceededAttempts(s, i) + (if b.status == Succeeded && b.invoiceId == i then 1 else 0)
    {
      CountUpdate(s.attempts, id, b, IsSuccessFor(i));
    }
  }

  /** The request fails its attempt. */
  lemma FailKeeps(s: State, t: State, req: ReqId, id: nat, o: Outcome, b: Attempt)
    requires Inv(s) && req in s.requests && s.requests[req] == Returned(id, o) && id < |s.attempts|
    requires b.status == Failed && SamePair(s.attempts[id], b)
    requires b.amount == s.attempts[id].amount && b.currency == s.attempts[id].currency
    requires t == s.(attempts := s.attempts[id := b], requests := s.requests - {req})
    ensures Inv(t) && Grows(s, t)
  {
    hide *;
    Parts(s);
    ReturnedFits(s, req, id, o);
    FailCloses(s, t, req, id, b);
    SameTables(s, t);
    ClosesAttempts(s, t, req, id, b);
    ClosesRequests(s, t, req, id, b);
    ClosesCharged(s, t, req, id, b);
    SendsFrame(s, t);
    OutboxFrame(s, t);
    EmailsFrame(s, t);
    Assemble(s, t);
  }

  lemma FailCloses(s: State, t: State, req: ReqId, id: nat, b: Attempt)
    requires req in s.requests && s.requests[req].Returned? && s.requests[req].id == id < |s.attempts|
    requires s.attempts[id].status == Pending && b.status == Failed && SamePair(s.attempts[id], b)
    requires b.amount == s.attempts[id].amount && b.currency == s.attempts[id].currency
    requires t == s.(attempts := s.attempts[id := b], requests := s.requests - {req})
    ensures Closes(s, t, req, id, b) && SameSuccesses(s, t)
  {
    ClosesCounts(s, t, req, id, b);
  }

  /** The request succeeds: attempt SUCCEEDED, invoice PAID, one InvoicePaid row. */
  predicate Pays(s: State, t: State, id: nat, e: Event)
    requires id < |s.attempts|
  {
    var i := s.attempts[id].invoiceId;
    && i in s.invoices && s.invoices[i].status != Draft
    && t.invoices.Keys == s.invoices.Keys && t.invoices[i].status == Paid
    && (forall j | j in s.invoices && j != i :: t.invoices[j] == s.invoices[j])
    && e.InvoicePaid? && e.invoiceId == i && EventFits(t, e)
    && t.outbox == s.outbox + [FromEvent(e, s.clock)]
  }

  lemma PayCounts(s: State, t: State, req: ReqId, id: nat, b: Attempt, e: Event)
    requires CountsAgree(s) && id < |s.attempts| && Pays(s, t, id, e)
    requires Closes(s, t, req, id, b) && s.attempts[id].status == Pending && b.status == Succeeded
    ensures CountsAgree(t)
  {
    hide EventOf, EventFits, FromEvent, IssuedRows, PaidRows, SucceededAttempts, CountIf, IsEventFor, IsSuccessFor;
    AppendRow(s, t, e, s.clock);
    ClosesCounts(s, t, req, id, b);
  }

  lemma PayOutbox(s: State, t: State, req: ReqId, id: nat, b: Attempt, e: Event)
    requires OutboxFits(s) && id < |s.attempts| && Pays(s, t, id, e) && InvoicesGrow(s, t)
    requires Closes(s, t, req, id, b) && s.attempts[id].status == Pending && b.status == Succeeded
    ensures OutboxFits(t)
  {
    assert IssuedRows(s, e.invoiceId) >= 1;
    hide RowsDescribe, AllPreceded, CountsAgree, EventFits, FromEvent, InvoicesGrow, Closes, IssuedRows;
    RowsFit(s, t, e, s.clock);
    AppendPreceded(s, t, e, s.clock);
    PayCounts(s, t, req, id, b, e);
  }

  lemma PayEffect(s: State, t: State, req: ReqId, id: nat, pid: Option<string>, seen: InvoiceStatus) returns (b: Attempt, e: Event)
    requires InvoicesFit(s) && AttemptsFit(s) && id < |s.attempts| && seen != Paid
    requires req in s.requests && s.requests[req] == Returned(id, Answered(Success(pid))) && s.attempts[id].status == Pending
    requires s.attempts[id].invoiceId in s.invoices && t == DoSettle(s, req, id, Answered(Success(pid)), seen)
    ensures Closes(s, t, req, id, b) && b.status == Succeeded && b.key == s.attempts[id].key
    ensures Pays(s, t, id, e) && InvoicesFit(t) && InvoicesGrow(s, t)
    ensures t.customers == s.customers && t.passes == s.passes && t.emails == s.emails && t.maxRetries == s.maxRetries
  {
    var a := s.attempts[id];
    assert Owes(s, a.invoiceId, a.amount, a.currency);
    var i := AsPaid(s.invoices[a.invoiceId], seen, s.clock).value;
    b, e := AsSucceeded(a, pid, s.clock), PaidEvent(a.invoiceId, i);
    PayState(s, req, id, pid, seen, i);
    hide DoSettle, FromEvent, Owes, AsPaid, PaidEvent, InvoicesFit, AttemptsFit;
    PayInvoices(s, t, id, seen, i);
    hide Pays, InvoicesGrow;
  }

  lemma PayInvoices(s: State, t: State, id: nat, seen: InvoiceStatus, i: Invoice)
    requires InvoicesFit(s) && id < |s.attempts| && s.attempts[id].invoiceId in s.invoices
    requires var a := s.attempts[id]; Owes(s, a.invoiceId, a.amount, a.currency)
    requires AsPaid(s.invoices[s.attempts[id].invoiceId], seen, s.clock) == Ok(i) && i.paidAt.Some?
    requires t.invoices == s.invoices[s.attempts[id].invoiceId := i] && t.customers == s.customers
    requires t.outbox == s.outbox + [FromEvent(PaidEvent(s.attempts[id].invoiceId, i), s.clock)]
    ensures Pays(s, t, id, PaidEvent(s.attempts[id].invoiceId, i)) && InvoicesFit(t) && InvoicesGrow(s, t)
  {
    hide FromEvent, Total, ValidLines;
  }

  lemma PayState(s: State, req: ReqId, id: nat, pid: Option<string>, seen: InvoiceStatus, i: Invoice)
    requires id < |s.attempts| && s.attempts[id].invoiceId in s.invoices
    requires AsPaid(s.invoices[s.attempts[id].invoiceId], seen, s.clock) == Ok(i) && i.paidAt.Some?
    ensures var a := s.attempts[id];
            DoSettle(s, req, id, Answered(Success(pid)), seen) == s.(
              requests := s.requests - {req}, attempts := s.attempts[id := AsSucceeded(a, pid, s.clock)],
              invoices := s.invoices[a.invoiceId := i],
              outbox := s.outbox + [FromEvent(PaidEvent(a.invoiceId, i), s.clock)])
  {
    hide AsPaid, PaidEvent, FromEvent, AsSucceeded;
  }

  lemma PayKeeps(s: State, t: State, req: ReqId, id: nat, pid: Option<string>, seen: InvoiceStatus)
    requires Inv(s) && id < |s.attempts| && seen != Paid
    requires req in s.requests && s.requests[req] == Returned(id, Answered(Success(pid)))
    requires s.attempts[id].invoiceId in s.invoices && t == DoSettle(s, req, id, Answered(Success(pid)), seen)
    ensures Inv(t) && Grows(s, t)
  {
    SuccessSucceeds(pid);
    hide *;
    Parts(s);
    ReturnedFits(s, req, id, Answered(Success(pid)));
    var b, e := PayEffect(s, t, req, id, pid, seen);
    PaysRow(s, t, id, e);
    ClosesTables(s, t, req, id, b);
    SameTables(s, t);
    AppendRow(s, t, e, s.clock);
    ClosesAttempts(s, t, req, id, b);
    ClosesRequests(s, t, req, id, b);
    ClosesCharged(s, t, req, id, b);
    SendsFrame(s, t);
    PayOutbox(s, t, req, id, b, e);
    EmailsFrame(s, t);
    Assemble(s, t);
  }

  lemma SuccessSucceeds(pid: Option<string>)
    ensures Succeeds(Answered(Success(pid)))
  {
  }

  lemma PaysRow(s: State, t: State, id: nat, e: Event)
    requires id < |s.attempts| && Pays(s, t, id, e)
    ensures t.outbox == s.outbox + [FromEvent(e, s.clock)]
  {
  }

  lemma ClosesTables(s: State, t: State, req: ReqId, id: nat, b: Attempt)
    requires Closes(s, t, req, id, b)
    ensures t.sends == s.sends && t.charges == s.charges
  {
  }

  /** What the last block does, by outcome. */
  lemma SettleKeeps(s: State, req: ReqId, id: nat, o: Outcome, seen: InvoiceStatus)
    requires Inv(s) && id < |s.attempts| && s.attempts[id].invoiceId in s.invoices
    requires req in s.requests && s.requests[req] == Returned(id, o)
    ensures Inv(DoSettle(s, req, id, o, seen)) && Grows(s, DoSettle(s, req, id, o, seen))
  {
    var t := DoSettle(s, req, id, o, seen);
    SettleShape(s, req, id, o, seen);
    hide Inv, Grows;
    if o.Answered? && o.body.Success? && seen != Paid {
      PayKeeps(s, t, req, id, o.body.paymentId, seen);
    } else if t.attempts == s.attempts {
      hide DoSettle;
      DropRequest(s, t, req);
    } else {
      hide DoSettle;
      FailKeeps(s, t, req, id, o, t.attempts[id]);
    }
  }

  lemma SettleShape(s: State, req: ReqId, id: nat, o: Outcome, seen: InvoiceStatus)
    requires id < |s.attempts| && s.attempts[id].invoiceId in s.invoices
    ensures var t := DoSettle(s, req, id, o, seen);
            || (o.Answered? && o.body.Success? && seen != Paid)
            || t == s.(requests := s.requests - {req})
            || (exists b: Attempt :: b.status == Failed && SamePair(s.attempts[id], b) && b.amount == s.attempts[id].amount
                  && b.currency == s.attempts[id].currency
                  && t == s.(attempts := s.attempts[id := b], requests := s.requests - {req}))
  {
  }

  lemma DropRequest(s: State, t: State, req: ReqId)
    requires Inv(s) && t == s.(requests := s.requests - {req})
    ensures Inv(t) && Grows(s, t)
  {
    hide *;
    SameTables(s, t);
    QuietKeeps(s, t);
  }

  // ---- dispatcher passes ----------------------------------------------------------------------

  lemma ReadEmails(s: State, pass: PassId, limit: nat, items: seq<nat>)
    requires EmailsFit(s) && pass !in s.passes && IsBatch(s.outbox, limit, items)
    ensures var t := DoRead(s, pass, limit, items); EmailsFit(t) && t == s.(passes := t.passes)
  {
    var t := DoRead(s, pass, limit, items);
    BatchUnprocessed(s.outbox, limit, items);
    EmailsKept(s, t);
    hide EventOf, SentFor, EmailFits, IsBatch;
    forall p | p in t.passes
      ensures PassFits(t, t.passes[p]) && PassSent(t, t.passes[p])
    {
      if p != pass {
        assert PassFits(s, s.passes[p]) && PassSent(s, s.passes[p]);
        PassStays(s, t, s.passes[p]);
      }
    }
  }

  /** The parts of EmailsFit that do not look at passes. */
  lemma EmailsKept(s: State, t: State)
    requires EmailsFit(s) && t == s.(passes := t.passes)
    ensures forall i | 0 <= i < |t.emails| :: EmailFits(t, t.emails[i])
    ensures forall j | 0 <= j < |t.outbox| && t.outbox[j].processedAt.Some? :: SentFor(t, t.outbox[j])
  {
    SameTables(s, t);
    forall i | 0 <= i < |t.emails|
      ensures EmailFits(t, t.emails[i])
    {
      EmailStays(s, t, s.emails[i]);
    }
    forall j | 0 <= j < |t.outbox| && t.outbox[j].processedAt.Some?
      ensures SentFor(t, t.outbox[j])
    {
      SentStays(s, t, s.outbox[j]);
    }
  }

  lemma PassStays(s: State, t: State, p: OpenPass)
    requires PassFits(s, p) && PassSent(s, p) && OutboxGrows(s, t) && s.emails <= t.emails
    ensures PassFits(t, p) && PassSent(t, p)
  {
    hide EventOf, SentFor;
    forall k | 0 <= k < |p.settled| && p.settled[k].processedAt.Some?
      ensures SentFor(t, p.read[k])
    {
      assert SentFor(s, p.read[k]);
      SentStays(s, t, p.read[k]);
    }
  }

  /** Steps that leave everything but passes and emails alone. */
  lemma DispatchOnly(s: State, t: State)
    requires Inv(s) && t == s.(passes := t.passes, emails := t.emails) && s.emails <= t.emails && EmailsFit(t)
    ensures Inv(t) && Grows(s, t)
  {
    hide *;
    Parts(s);
    SameTables(s, t);
    AttemptsFrame(s, t);
    RequestsFrame(s, t);
    SendsFrame(s, t);
    OutboxFrame(s, t);
    Assemble(s, t);
  }

  lemma ReadKeeps(s: State, pass: PassId, limit: nat, items: seq<nat>)
    requires Inv(s) && pass !in s.passes && IsBatch(s.outbox, limit, items)
    ensures Inv(DoRead(s, pass, limit, items)) && Grows(s, DoRead(s, pass, limit, items))
  {
    hide *;
    Parts(s);
    ReadEmails(s, pass, limit, items);
    DispatchOnly(s, DoRead(s, pass, limit, items));
  }

  /** Accepting an email that describes a row. */
  lemma AcceptFits(s: State, t: State, e: Event, to: string)
    requires (forall i, j | 0 <= i < j < |s.emails| :: s.emails[i].key != s.emails[j].key)
    requires t.emails == Accept(s.emails, EmailOf(e, to))
    ensures s.emails <= t.emails && SentKey(t.emails, EmailKey(EventType(e), e.invoiceId))
    ensures forall i, j | 0 <= i < j < |t.emails| :: t.emails[i].key != t.emails[j].key
    ensures forall i | 0 <= i < |t.emails| :: i < |s.emails| || t.emails[i] == EmailOf(e, to)
  {
    var m := EmailOf(e, to);
    if !SentKey(s.emails, m.key) {
      assert t.emails[|s.emails|].key == m.key;
    }
  }

  predicate Accepts(s: State, t: State, entry: Entry) {
    && EventOf(entry).Ok? && EventOf(entry).value.customerId in s.customers
    && t.emails == Accept(s.emails, EmailOf(EventOf(entry).value, s.customers[EventOf(entry).value.customerId]))
  }

  lemma DeliverShape(s: State, pass: PassId, accepted: bool, ok: bool)
    requires pass in s.passes && |s.passes[pass].settled| < |s.passes[pass].read| && (ok ==> accepted)
    ensures var t := DoDeliver(s, pass, accepted, ok); var p := s.passes[pass]; var entry := p.read[|p.settled|];
            && t == s.(passes := s.passes[pass := t.passes[pass]], emails := t.emails)
            && (exists x: Entry :: t.passes[pass] == p.(settled := p.settled + [x])
                  && (x.processedAt.Some? && entry.processedAt.None? ==> Accepts(s, t, entry)))
            && (t.emails == s.emails || Accepts(s, t, entry))
  {
    hide FromEntry, Accept;
  }

  /** The emails after a delivery still each describe a row. */
  lemma DeliverEmails(s: State, pass: PassId, accepted: bool, ok: bool)
    requires EmailsFit(s) && pass in s.passes && |s.passes[pass].settled| < |s.passes[pass].read| && (ok ==> accepted)
    ensures var t := DoDeliver(s, pass, accepted, ok);
            && s.emails <= t.emails
            && (forall i, j | 0 <= i < j < |t.emails| :: t.emails[i].key != t.emails[j].key)
            && (forall i | 0 <= i < |t.emails| :: EmailFits(t, t.emails[i]))
  {
    var t, p := DoDeliver(s, pass, accepted, ok), s.passes[pass];
    var entry := p.read[|p.settled|];
    DeliverShape(s, pass, accepted, ok);
    SameTables(s, t);
    assert PassFits(s, p);
    hide DoDeliver, FromEntry, Accept, SentFor;
    if t.emails != s.emails {
      var e := EventOf(entry).value;
      AcceptFits(s, t, e, s.customers[e.customerId]);
      assert EventOf(s.outbox[p.items[|p.settled|]]) == EventOf(entry);
      assert EmailFits(t, EmailOf(e, s.customers[e.customerId]));
    }
    forall i | 0 <= i < |t.emails|
      ensures EmailFits(t, t.emails[i])
    {
      if i < |s.emails| { EmailStays(s, t, s.emails[i]); }
    }
  }

  lemma SentNow(s: State, t: State, entry: Entry)
    requires EmailsFit(s) && t.customers == s.customers && Accepts(s, t, entry)
    ensures SentFor(t, entry)
  {
    hide FromEntry, Accept, EmailFits;
    var e := EventOf(entry).value;
    AcceptFits(s, t, e, s.customers[e.customerId]);
    DecodedClass(entry.eventType, entry.payload);
  }

  /** A pass that has settled one more entry still only has sent ones settled as processed. */
  lemma DeliveredSent(s: State, t: State, p: OpenPass, q: OpenPass, x: Entry)
    requires EmailsFit(s) && t.customers == s.customers
    requires PassFits(t, p) && PassSent(t, p) && |p.settled| < |p.read| && q == p.(settled := p.settled + [x])
    requires x.processedAt.Some? && p.read[|p.settled|].processedAt.None? ==> Accepts(s, t, p.read[|p.settled|])
    ensures PassFits(t, q) && PassSent(t, q)
  {
    if x.processedAt.Some? {
      SentNow(s, t, p.read[|p.settled|]);
    }
    hide SentFor, EventOf, Accepts;
    forall k | 0 <= k < |p.settled| && q.settled[k].processedAt.Some?
      ensures SentFor(t, q.read[k])
    {
      assert q.settled[k] == p.settled[k];
    }
  }

  lemma DeliverPasses(s: State, pass: PassId, accepted: bool, ok: bool)
    requires EmailsFit(s) && pass in s.passes && |s.passes[pass].settled| < |s.passes[pass].read| && (ok ==> accepted)
    requires s.emails <= DoDeliver(s, pass, accepted, ok).emails
    ensures var t := DoDeliver(s, pass, accepted, ok);
            forall p | p in t.passes :: PassFits(t, t.passes[p]) && PassSent(t, t.passes[p])
  {
    var t, p := DoDeliver(s, pass, accepted, ok), s.passes[pass];
    var entry := p.read[|p.settled|];
    DeliverShape(s, pass, accepted, ok);
    SameTables(s, t);
    assert PassFits(s, p) && PassSent(s, p);
    PassStays(s, t, p);
    hide DoDeliver, FromEntry, Accept, EmailFits, SentFor;
    var x :| t.passes[pass] == p.(settled := p.settled + [x])
          && (x.processedAt.Some? && entry.processedAt.None? ==> Accepts(s, t, entry));
    DeliveredSent(s, t, p, t.passes[pass], x);
    forall x | x in t.passes && x != pass
      ensures PassFits(t, t.passes[x]) && PassSent(t, t.passes[x])
    {
      assert PassFits(s, s.passes[x]) && PassSent(s, s.passes[x]);
      PassStays(s, t, s.passes[x]);
    }
  }

  lemma DeliverKeeps(s: State, pass: PassId, accepted: bool, ok: bool)
    requires Inv(s) && pass in s.passes && |s.passes[pass].settled| < |s.passes[pass].read| && (ok ==> accepted)
    ensures Inv(DoDeliver(s, pass, accepted, ok)) && Grows(s, DoDeliver(s, pass, accepted, ok))
  {
    var t := DoDeliver(s, pass, accepted, ok);
    hide *;
    Parts(s);
    DeliverShape(s, pass, accepted, ok);
    DeliverEmails(s, pass, accepted, ok);
    DeliverPasses(s, pass, accepted, ok);
    DeliverRows(s, t);
    DispatchOnly(s, t);
  }

  lemma DeliverRows(s: State, t: State)
    requires EmailsFit(s) && t == s.(passes := t.passes, emails := t.emails) && s.emails <= t.emails
    requires forall i, j | 0 <= i < j < |t.emails| :: t.emails[i].key != t.emails[j].key
    requires forall i | 0 <= i < |t.emails| :: EmailFits(t, t.emails[i])
    requires forall p | p in t.passes :: PassFits(t, t.passes[p]) && PassSent(t, t.passes[p])
    ensures EmailsFit(t)
  {
    hide EmailFits, PassFits, PassSent, EventOf;
    forall j | 0 <= j < |t.outbox| && t.outbox[j].processedAt.Some?
      ensures SentFor(t, t.outbox[j])
    {
      SentStays(s, t, s.outbox[j]);
    }
  }

  // ---- committing a pass --------------------------------------------------------------------------

  /** Writing a pass back keeps events, never takes `processed_at` away, and adds it only where the pass did. */
  lemma {:induction false} WrittenKeeps(outbox: seq<Entry>, p: OpenPass, k: nat)
    requires k <= |p.settled| == |p.read| == |p.items|
    requires forall i | 0 <= i < |p.items| :: p.items[i] < |outbox| && p.read[i].processedAt == None
    ensures var w := Written(outbox, p, k);
            forall j | 0 <= j < |outbox| ::
              && NextEntry(outbox[j], w[j])
              && (w[j].processedAt.Some? && outbox[j].processedAt.None? ==>
                    exists i :: 0 <= i < k && p.items[i] == j && p.settled[i].processedAt.Some?)
  {
    if k > 0 {
      WrittenKeeps(outbox, p, k - 1);
      var prev, w := Written(outbox, p, k - 1), Written(outbox, p, k);
      forall j | 0 <= j < |outbox| && w[j].processedAt.Some? && outbox[j].processedAt.None?
        ensures exists i :: 0 <= i < k && p.items[i] == j && p.settled[i].processedAt.Some?
      {
        if prev[j].processedAt.None? {
          assert p.items[k - 1] == j && p.settled[k - 1].processedAt.Some?;
        }
      }
    }
  }

  lemma CommitEffect(s: State, pass: PassId)
    requires EmailsFit(s) && pass in s.passes && |s.passes[pass].settled| == |s.passes[pass].read|
    requires forall i | 0 <= i < |s.passes[pass].items| :: s.passes[pass].items[i] < |s.outbox|
    requires |s.passes[pass].read| == |s.passes[pass].items|
    ensures var t := DoCommit(s, pass, s.passes[pass]);
            && OutboxGrows(s, t) && |t.outbox| == |s.outbox|
            && t == s.(outbox := t.outbox, passes := s.passes - {pass})
            && forall j | 0 <= j < |t.outbox| && t.outbox[j].processedAt.Some? :: SentFor(t, t.outbox[j])
  {
    var p, t := s.passes[pass], DoCommit(s, pass, s.passes[pass]);
    assert PassFits(s, p) && PassSent(s, p);
    WrittenKeeps(s.outbox, p, |p.items|);
    hide FromEntry, Written;
    forall j | 0 <= j < |t.outbox| && t.outbox[j].processedAt.Some?
      ensures SentFor(t, t.outbox[j])
    {
      CommitSent(s, t, p, j);
    }
  }

  lemma CommitSent(s: State, t: State, p: OpenPass, j: nat)
    requires PassFits(s, p) && PassSent(s, p) && j < |s.outbox| == |t.outbox| && t.emails == s.emails
    requires NextEntry(s.outbox[j], t.outbox[j])
    requires s.outbox[j].processedAt.Some? ==> SentFor(s, s.outbox[j])
    requires s.outbox[j].processedAt.None? ==>
               exists i :: 0 <= i < |p.items| == |p.settled| == |p.read| && p.items[i] == j && p.settled[i].processedAt.Some?
    ensures SentFor(t, t.outbox[j])
  {
    hide FromEntry;
    if s.outbox[j].processedAt.None? {
      var i :| 0 <= i < |p.items| && p.items[i] == j && p.settled[i].processedAt.Some?;
      assert SentFor(s, p.read[i]);
    }
  }

  lemma CommitEmails(s: State, t: State)
    requires EmailsFit(s) && OutboxGrows(s, t) && t == s.(outbox := t.outbox, passes := t.passes)
    requires forall p | p in t.passes :: p in s.passes && t.passes[p] == s.passes[p]
    requires forall j | 0 <= j < |t.outbox| && t.outbox[j].processedAt.Some? :: SentFor(t, t.outbox[j])
    ensures EmailsFit(t)
  {
    SameTables(s, t);
    hide SentFor, EventOf;
    forall i | 0 <= i < |t.emails|
      ensures EmailFits(t, t.emails[i])
    {
      EmailStays(s, t, s.emails[i]);
    }
    forall p | p in t.passes
      ensures PassFits(t, t.passes[p]) && PassSent(t, t.passes[p])
    {
      assert PassFits(s, s.passes[p]) && PassSent(s, s.passes[p]);
      PassStays(s, t, s.passes[p]);
    }
  }

  lemma CommitKeeps(s: State, pass: PassId)
    requires Inv(s) && pass in s.passes && |s.passes[pass].settled| == |s.passes[pass].read|
    requires forall i | 0 <= i < |s.passes[pass].items| :: s.passes[pass].items[i] < |s.outbox|
    requires |s.passes[pass].read| == |s.passes[pass].items|
    ensures Inv(DoCommit(s, pass, s.passes[pass])) && Grows(s, DoCommit(s, pass, s.passes[pass]))
  {
    var t := DoCommit(s, pass, s.passes[pass]);
    hide *;
    Parts(s);
    CommitEffect(s, pass);
    SameTables(s, t);
    CommitEmails(s, t);
    AttemptsFrame(s, t);
    RequestsFrame(s, t);
    SendsFrame(s, t);
    OutboxFrame(s, t);
    Assemble(s, t);
  }

  // ---- every step ------------------------------------------------------------------------------------

  lemma SendStepKeeps(s: State, req: ReqId, x: Response, charged: bool)
    requires Inv(s) && Enabled(s, SendOnce(req, x, charged))
    ensures Inv(Do(s, SendOnce(req, x, charged))) && Grows(s, Do(s, SendOnce(req, x, charged)))
  {
    SendIsDoSendOnce(s, req, x, charged);
    var id, got := s.requests[req].id, s.requests[req].got;
    var t := DoSendOnce(s, req, id, got, x, charged);
    hide *;
    Parts(s);
    SendEffect(s, req, id, got, x, charged);
    SendKeeps(s, t, req, id, got, t.requests[req], charged);
  }

  lemma SendIsDoSendOnce(s: State, req: ReqId, x: Response, charged: bool)
    requires Enabled(s, SendOnce(req, x, charged))
    ensures req in s.requests && s.requests[req].Calling? && s.requests[req].id < |s.attempts|
    ensures s.requests[req] == Calling(s.requests[req].id, s.requests[req].got)
    ensures Succeeds(Classify(x)) ==> s.attempts[s.requests[req].id].key in s.charges || charged
    ensures Do(s, SendOnce(req, x, charged)) == DoSendOnce(s, req, s.requests[req].id, s.requests[req].got, x, charged)
  {
    hide Classify, Succeeds, DoSendOnce;
  }

  lemma CustomerStepKeeps(s: State, c: Uuid, email: string)
    requires Inv(s) && c !in s.customers
    ensures var t := s.(customers := s.customers[c := email]); Inv(t) && Grows(s, t)
  {
    hide Inv, Grows;
    QuietKeeps(s, s.(customers := s.customers[c := email]));
  }

  predicate OfInvoice(a: Action) { a.CreateCustomer? || a.CreateInvoice? || a.AddLine? || a.Issue? || a.Tick? }

  predicate OfPass(a: Action) { a.ReadBatch? || a.Deliver? || a.CommitBatch? || a.CrashPass? }

  lemma InvoiceStepKeeps(s: State, a: Action)
    requires Inv(s) && Enabled(s, a) && OfInvoice(a)
    ensures Inv(Do(s, a)) && Grows(s, Do(s, a))
  {
    hide Inv, Grows;
    match a
    case CreateCustomer(c, email) => CustomerStepKeeps(s, c, email);
    case CreateInvoice(i, c, currency) => CreateInvoiceKeeps(s, i, c, currency);
    case AddLine(i, l) => AddLineKeeps(s, i, l);
    case Issue(i) => IssueKeeps(s, i);
    case Tick(d) => QuietKeeps(s, Do(s, a));
  }

  lemma PassStepKeeps(s: State, a: Action)
    requires Inv(s) && Enabled(s, a) && OfPass(a)
    ensures Inv(Do(s, a)) && Grows(s, Do(s, a))
  {
    hide Inv, Grows;
    match a
    case ReadBatch(pass, limit, items) => ReadKeeps(s, pass, limit, items);
    case Deliver(pass, accepted, ok) => DeliverKeeps(s, pass, accepted, ok);
    case CommitBatch(pass) => CommitKeeps(s, pass);
    case CrashPass(pass) => QuietKeeps(s, Do(s, a));
  }

  lemma RequestStepKeeps(s: State, a: Action)
    requires Inv(s) && Enabled(s, a) && !OfInvoice(a) && !OfPass(a) && !a.SendOnce?
    ensures Inv(Do(s, a)) && Grows(s, Do(s, a))
  {
    hide Inv, Grows;
    match a
    case Lookup(req, i, key) => LookupKeeps(s, req, i, key);
    case Insert(req) => InsertKeeps(s, req, s.requests[req].attempt);
    case Settle(req, seen) => SettleKeeps(s, req, s.requests[req].id, s.requests[req].outcome, seen);
    case CrashRequest(req) => QuietKeeps(s, Do(s, a));
    case LateCharge(j) => LateKeeps(s, Do(s, a), j);
  }

  lemma StepKeeps(s: State, a: Action)
    requires Inv(s) && Enabled(s, a)
    ensures Inv(Do(s, a)) && Grows(s, Do(s, a))
  {
    hide Inv, Grows, Do, Enabled;
    if OfInvoice(a) {
      InvoiceStepKeeps(s, a);
    } else if OfPass(a) {
      PassStepKeeps(s, a);
    } else if a.SendOnce? {
      SendStepKeeps(s, a.req, a.response, a.charged);
    } else {
      RequestStepKeeps(s, a);
    }
  }

  lemma InitInv(s: State)
    requires Init(s)
    ensures Inv(s)
  {
    assert forall id, key :: SendCount(s, id, key) == 0;
    assert forall id :: IssuedRows(s, id) == 0 && PaidRows(s, id) == 0 && SucceededAttempts(s, id) == 0;
  }

  lemma {:induction false} InvHolds(r: Run)
    requires Reached(r)
    ensures Inv(Final(r))
  {
    if r.Start? {
      InitInv(r.init);
    } else {
      InvHolds(r.prefix);
      StepKeeps(Final(r.prefix), r.a);
    }
  }
}

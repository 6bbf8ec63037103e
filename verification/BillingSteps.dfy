/** Every action of the billing system keeps the invariant. */
module BillingSteps {
  import opened Prelude
  import opened Codec
  import opened Events
  import opened HalfUp
  import opened InvoiceModel
  import opened InvoiceOutbox
  import opened PaymentClient
  import opened Billing
  import opened BillingInvariant

  // ---- drafting --------------------------------------------------------------------------

  lemma SameTables(s: State, t: State)
    ensures s.invoices == t.invoices ==> InvoicesGrow(s, t) && SameStatuses(s, t)
    ensures s.attempts == t.attempts ==> AttemptsGrow(s, t) && SameSuccesses(s, t)
    ensures s.outbox == t.outbox ==> OutboxGrows(s, t) && NoneProcessed(s, t)
    ensures s.customers == t.customers ==> CustomersGrow(s, t)
    ensures s.attempts == t.attempts && s.charges == t.charges && SuccessesCharged(s) ==> SuccessesCharged(t)
    ensures s.invoices == t.invoices && s.customers == t.customers && InvoicesFit(s) ==> InvoicesFit(t)
  {
  }

  lemma Parts(s: State)
    requires Inv(s)
    ensures InvoicesFit(s) && AttemptsFit(s) && RequestsFit(s) && SendsFit(s) && OutboxFits(s) && EmailsFit(s)
    ensures SuccessesCharged(s) && PassesFit(s)
  {
  }

  lemma Assemble(s: State, t: State)
    requires InvoicesFit(t) && AttemptsFit(t) && RequestsFit(t) && SendsFit(t) && OutboxFits(t) && EmailsFit(t)
    requires CustomersGrow(s, t) && InvoicesGrow(s, t) && AttemptsGrow(s, t) && OutboxGrows(s, t)
    requires s.maxRetries == t.maxRetries && s.sends <= t.sends && s.emails <= t.emails
    ensures Inv(t) && Grows(s, t)
  {
    hide InvoicesFit, AttemptsFit, RequestsFit, SendsFit, OutboxFits, EmailsFit;
    hide CustomersGrow, InvoicesGrow, AttemptsGrow, OutboxGrows;
  }

  lemma NothingHappens(s: State)
    requires Inv(s)
    ensures Inv(s) && Grows(s, s)
  {
    hide *;
    Parts(s);
    SameTables(s, s);
    Assemble(s, s);
  }

  /** Steps that change invoices only, and no status. */
  lemma InvoicesOnly(s: State, t: State)
    requires Inv(s) && t == s.(invoices := t.invoices)
    requires InvoicesFit(t) && InvoicesGrow(s, t) && SameStatuses(s, t)
    ensures Inv(t) && Grows(s, t)
  {
    hide *;
    Parts(s);
    SameTables(s, t);
    AttemptsFrame(s, t);
    RequestsFrame(s, t);
    SendsFrame(s, t);
    OutboxFrame(s, t);
    EmailsFrame(s, t);
    Assemble(s, t);
  }

  lemma AddLineInvoices(s: State, id: Uuid, l: Line)
    requires InvoicesFit(s) && id in s.invoices
    ensures var t := DoAddLine(s, id, l);
            InvoicesFit(t) && InvoicesGrow(s, t) && SameStatuses(s, t) && t == s.(invoices := t.invoices)
  {
    hide Total, Upper;
  }

  lemma AddLineKeeps(s: State, id: Uuid, l: Line)
    requires Inv(s) && id in s.invoices
    ensures Inv(DoAddLine(s, id, l)) && Grows(s, DoAddLine(s, id, l))
  {
    hide *;
    Parts(s);
    AddLineInvoices(s, id, l);
    InvoicesOnly(s, DoAddLine(s, id, l));
  }

  lemma CreateInvoiceKeeps(s: State, id: Uuid, c: Uuid, currency: string)
    requires Inv(s) && id !in s.invoices && c in s.customers
    ensures var t := s.(invoices := s.invoices[id := NewInvoice(c, currency)]); Inv(t) && Grows(s, t)
  {
    var t := s.(invoices := s.invoices[id := NewInvoice(c, currency)]);
    var i := NewInvoice(c, currency);
    assert i.status == Draft && i.lines == [] && i.issuedAt == None && i.paidAt == None && i.customerId == c;
    hide *;
    Parts(s);
    FreshInvoice(s, t, id, i);
    InvoicesOnly(s, t);
  }

  lemma FreshInvoice(s: State, t: State, id: Uuid, i: Invoice)
    requires InvoicesFit(s) && id !in s.invoices && i.customerId in s.customers
    requires i.status == Draft && i.lines == [] && i.issuedAt == None && i.paidAt == None
    requires t == s.(invoices := s.invoices[id := i])
    ensures InvoicesFit(t) && InvoicesGrow(s, t) && SameStatuses(s, t)
  {
  }

  /** Steps that touch neither invoices, attempts, rows, sends nor emails. */
  lemma QuietKeeps(s: State, t: State)
    requires Inv(s) && CustomersGrow(s, t)
    requires t == s.(customers := t.customers, requests := t.requests, passes := t.passes, clock := t.clock)
    requires forall r | r in t.requests :: r in s.requests && t.requests[r] == s.requests[r]
    requires forall p | p in t.passes :: p in s.passes && t.passes[p] == s.passes[p]
    ensures Inv(t) && Grows(s, t)
  {
    var u := t.(requests := s.requests, passes := s.passes);
    hide *;
    Parts(s);
    SameTables(s, t);
    SameTables(s, u);
    MoreCustomers(s, t);
    AttemptsFrame(s, t);
    RequestsFrame(s, u);
    SubRequests(u, t);
    SendsFrame(s, t);
    OutboxFrame(s, t);
    EmailsFrame(s, u);
    SubPasses(u, t);
    Assemble(s, t);
  }

  lemma MoreCustomers(s: State, t: State)
    requires InvoicesFit(s) && CustomersGrow(s, t) && s.invoices == t.invoices
    ensures InvoicesFit(t)
    ensures forall u: State | u.customers == t.customers :: CustomersGrow(s, u)
  {
  }

  lemma SubRequests(u: State, t: State)
    requires RequestsFit(u) && u.invoices == t.invoices && u.attempts == t.attempts && u.maxRetries == t.maxRetries
    requires u.sends == t.sends && u.charges == t.charges
    requires forall r | r in t.requests :: r in u.requests && t.requests[r] == u.requests[r]
    ensures RequestsFit(t)
  {
    forall r | r in t.requests
      ensures RequestFits(t, t.requests[r])
    {
      assert RequestFits(u, u.requests[r]);
    }
  }

  lemma SubPasses(u: State, t: State)
    requires EmailsFit(u) && u.outbox == t.outbox && u.emails == t.emails && u.customers == t.customers
    requires forall p | p in t.passes :: p in u.passes && t.passes[p] == u.passes[p]
    ensures EmailsFit(t)
  {
    forall i | 0 <= i < |t.emails|
      ensures EmailFits(t, t.emails[i])
    {
      EmailStays(u, t, u.emails[i]);
    }
    forall j | 0 <= j < |t.outbox| && t.outbox[j].processedAt.Some?
      ensures SentFor(t, t.outbox[j])
    {
      assert SentFor(u, u.outbox[j]);
    }
    forall p | p in t.passes
      ensures PassFits(t, t.passes[p])
      ensures PassSent(t, t.passes[p])
    {
      assert PassFits(u, u.passes[p]) && PassSent(u, u.passes[p]);
    }
  }

  // ---- issuing ----------------------------------------------------------------------------

  /** Appending one row. */
  lemma AppendRow(s: State, t: State, e: Event, now: int)
    requires t.outbox == s.outbox + [FromEvent(e, now)]
    ensures OutboxGrows(s, t) && NoneProcessed(s, t) && EventOf(t.outbox[|s.outbox|]) == Ok(e)
    ensures forall id :: IssuedRows(t, id) == IssuedRows(s, id) + (if e.InvoiceIssued? && e.invoiceId == id then 1 else 0)
    ensures forall id :: PaidRows(t, id) == PaidRows(s, id) + (if e.InvoicePaid? && e.invoiceId == id then 1 else 0)
  {
    PayloadRoundTrip(e);
    hide FromEntry, ToPayload;
    forall id
      ensures IssuedRows(t, id) == IssuedRows(s, id) + (if e.InvoiceIssued? && e.invoiceId == id then 1 else 0)
      ensures PaidRows(t, id) == PaidRows(s, id) + (if e.InvoicePaid? && e.invoiceId == id then 1 else 0)
    {
      CountAppend(s.outbox, FromEvent(e, now), IsEventFor(ISSUED, id));
      CountAppend(s.outbox, FromEvent(e, now), IsEventFor(PAID, id));
    }
  }

  lemma OldPreceded(s: State, t: State, j: nat)
    requires j < |s.outbox| && s.outbox <= t.outbox && Preceded(s.outbox, j)
    ensures Preceded(t.outbox, j)
  {
    hide FromEntry;
    forall id | IsEventFor(PAID, id)(t.outbox[j])
      ensures exists i :: 0 <= i < j && IsEventFor(ISSUED, id)(t.outbox[i])
    {
      assert IsEventFor(PAID, id)(s.outbox[j]);
      var i :| 0 <= i < j && IsEventFor(ISSUED, id)(s.outbox[i]);
      assert IsEventFor(ISSUED, id)(t.outbox[i]);
    }
  }

  lemma AppendPreceded(s: State, t: State, e: Event, now: int)
    requires AllPreceded(s.outbox) && t.outbox == s.outbox + [FromEvent(e, now)]
    requires e.InvoicePaid? ==> IssuedRows(s, e.invoiceId) >= 1
    ensures AllPreceded(t.outbox)
  {
    var n := |s.outbox|;
    forall j | 0 <= j < n
      ensures Preceded(t.outbox, j)
    {
      OldPreceded(s, t, j);
    }
    PayloadRoundTrip(e);
    hide FromEntry, ToPayload;
    forall id | IsEventFor(PAID, id)(t.outbox[n])
      ensures exists i :: 0 <= i < n && IsEventFor(ISSUED, id)(t.outbox[i])
    {
      var i := CountWitness(s.outbox, IsEventFor(ISSUED, id));
      assert IsEventFor(ISSUED, id)(t.outbox[i]);
    }
  }

  lemma RowsFit(s: State, t: State, e: Event, now: int)
    requires RowsDescribe(s) && InvoicesGrow(s, t) && t.outbox == s.outbox + [FromEvent(e, now)] && EventFits(t, e)
    ensures RowsDescribe(t)
  {
    PayloadRoundTrip(e);
    hide FromEntry, ToPayload, InvoicesGrow, EventFits;
    forall j | 0 <= j < |s.outbox|
      ensures EventOf(t.outbox[j]).Ok? && EventFits(t, EventOf(t.outbox[j]).value)
    {
      assert t.outbox[j] == s.outbox[j];
      EventStays(s, t, EventOf(s.outbox[j]).value);
    }
  }

  lemma IssueEffect(s: State, id: Uuid) returns (e: Event)
    requires InvoicesFit(s) && id in s.invoices
    ensures var t := DoIssue(s, id);
            t == s ||
            (&& InvoicesFit(t) && InvoicesGrow(s, t) && Issues(s, t, id, e)
             && t == s.(invoices := t.invoices, outbox := s.outbox + [FromEvent(e, s.clock)]))
  {
    hide FromEvent, Total, ValidLines;
    var r := AsIssued(s.invoices[id], s.clock);
    if r.Ok? {
      e := IssuedEvent(id, r.value);
      assert EventFits(DoIssue(s, id), e);
    } else {
      e := InvoicePaid(id, id, 0, 0, "");
    }
  }

  /** One draft becomes issued and its event is appended. */
  predicate Issues(s: State, t: State, id: Uuid, e: Event) {
    && id in s.invoices && s.invoices[id].status == Draft
    && t.invoices.Keys == s.invoices.Keys && t.invoices[id].status == Issued
    && (forall i | i in s.invoices && i != id :: t.invoices[i] == s.invoices[i])
    && e.InvoiceIssued? && e.invoiceId == id && EventFits(t, e)
    && t.attempts == s.attempts && t.outbox == s.outbox + [FromEvent(e, s.clock)]
  }

  lemma IssueCounts(s: State, t: State, id: Uuid, e: Event)
    requires CountsAgree(s) && Issues(s, t, id, e)
    ensures CountsAgree(t)
  {
    SameTables(s, t);
    hide EventOf, EventFits, FromEvent, IssuedRows, PaidRows, SucceededAttempts, CountIf, IsEventFor, IsSuccessFor;
    AppendRow(s, t, e, s.clock);
    forall i
      ensures IssuedRows(t, i) == if i in t.invoices && t.invoices[i].status != Draft then 1 else 0
      ensures PaidRows(t, i) == SucceededAttempts(t, i)
    {
      assert SucceededAttempts(t, i) == SucceededAttempts(s, i);
    }
  }

  lemma IssueOutbox(s: State, t: State, id: Uuid, e: Event)
    requires OutboxFits(s) && Issues(s, t, id, e) && InvoicesGrow(s, t)
    ensures OutboxFits(t)
  {
    hide RowsDescribe, AllPreceded, CountsAgree, EventFits, FromEvent, InvoicesGrow;
    RowsFit(s, t, e, s.clock);
    AppendPreceded(s, t, e, s.clock);
    IssueCounts(s, t, id, e);
  }

  lemma IssueKeeps(s: State, id: Uuid)
    requires Inv(s) && id in s.invoices
    ensures Inv(DoIssue(s, id)) && Grows(s, DoIssue(s, id))
  {
    var t := DoIssue(s, id);
    hide *;
    Parts(s);
    var e := IssueEffect(s, id);
    if t == s {
      NothingHappens(s);
    } else {
      SameTables(s, t);
      AppendRow(s, t, e, s.clock);
      AttemptsFrame(s, t);
      RequestsFrame(s, t);
      SendsFrame(s, t);
      EmailsFrame(s, t);
      IssueOutbox(s, t, id, e);
      Assemble(s, t);
    }
  }

  // ---- payment requests ---------------------------------------------------------------------

  lemma FindAttemptExact(attempts: seq<Attempt>, id: Uuid, key: string)
    ensures match FindAttempt(attempts, id, key)
            case Some(n) => n < |attempts| && attempts[n].invoiceId == id && attempts[n].key == key
            case None => forall a | 0 <= a < |attempts| :: !(attempts[a].invoiceId == id && attempts[a].key == key)
  {
    var p := (a: Attempt) => a.invoiceId == id && a.key == key;
    var k := FindLast(attempts, p);
    assert k.None? ==> forall a | 0 <= a < |attempts| :: !p(attempts[a]);
  }

  /** Steps that change requests only. */
  lemma RequestsOnly(s: State, t: State)
    requires Inv(s) && t == s.(requests := t.requests) && RequestsFit(t)
    ensures Inv(t) && Grows(s, t)
  {
    hide *;
    Parts(s);
    SameTables(s, t);
    AttemptsFrame(s, t);
    SendsFrame(s, t);
    OutboxFrame(s, t);
    EmailsFrame(s, t);
    Assemble(s, t);
  }

  lemma LookupRequests(s: State, t: State, req: ReqId, a: Attempt)
    requires RequestsFit(s) && a.status == Pending && Owes(s, a.invoiceId, a.amount, a.currency)
    requires req !in s.requests && t == s.(requests := s.requests[req := Starting(a)])
    ensures RequestsFit(t)
  {
    SameOwes(s, t);
    SameSends(s, t);
    hide Owes, SendCount;
    forall r | r in t.requests && r != req
      ensures RequestFits(t, t.requests[r])
    {
      assert RequestFits(s, s.requests[r]);
    }
  }

  lemma SameSends(s: State, t: State)
    requires s.sends == t.sends
    ensures forall id, key :: SendCount(t, id, key) == SendCount(s, id, key)
  {
  }

  lemma SameOwes(s: State, t: State)
    requires s.invoices == t.invoices
    ensures forall id, amount, currency :: Owes(t, id, amount, currency) == Owes(s, id, amount, currency)
  {
  }

  lemma LookupKeeps(s: State, req: ReqId, id: Uuid, key: string)
    requires Inv(s) && req !in s.requests
    ensures Inv(DoLookup(s, req, id, key)) && Grows(s, DoLookup(s, req, id, key))
  {
    var t := DoLookup(s, req, id, key);
    hide InvoicesFit, AttemptsFit, RequestsFit, SendsFit, OutboxFits, EmailsFit;
    if t != s {
      LookupRequests(s, t, req, NewAttempt(id, s.invoices[id], key).value);
    }
    RequestsOnly(s, t);
  }

  /** A pair without an attempt has never been sent. */
  lemma NoSendsYet(s: State, a: Attempt)
    requires SendsFit(s) && forall b | 0 <= b < |s.attempts| :: !SamePair(s.attempts[b], a)
    ensures SendCount(s, a.invoiceId, a.key) == 0
  {
    hide Owes, ChargeFits, MaxSends;
    forall j | 0 <= j < |s.sends|
      ensures !(s.sends[j].invoiceId == a.invoiceId && s.sends[j].key == a.key)
    {
      assert HasAttempt(s, s.sends[j].invoiceId, s.sends[j].key);
    }
    CountZero(s.sends, (r: Request) => r.invoiceId == a.invoiceId && r.key == a.key);
  }

  lemma InsertRequests(s: State, t: State, req: ReqId, a: Attempt)
    requires RequestsFit(s) && SendsFit(s) && a.status == Pending && req in s.requests && s.requests[req].Starting?
    requires forall b | 0 <= b < |s.attempts| :: !SamePair(s.attempts[b], a)
    requires t == s.(attempts := s.attempts + [a], requests := s.requests[req := Calling(|s.attempts|, [])])
    ensures RequestsFit(t)
  {
    hide Owes, SendCount, SendsFit, CountIf, Succeeds;
    NoSendsYet(s, a);
    SameSends(s, t);
    SameOwes(s, t);
    forall r | r in t.requests
      ensures RequestFits(t, t.requests[r])
    {
      if r != req { assert RequestFits(s, s.requests[r]); }
    }
    forall q | q in t.requests && q != req && !t.requests[q].Starting?
      ensures t.requests[q].id != |s.attempts|
    {
      assert RequestFits(s, s.requests[q]);
    }
  }

  lemma AppendAttempt(s: State, t: State, a: Attempt)
    requires AttemptsFit(s) && SuccessesCharged(s)
    requires a.status == Pending && Owes(s, a.invoiceId, a.amount, a.currency)
    requires forall b | 0 <= b < |s.attempts| :: !SamePair(s.attempts[b], a)
    requires t.attempts == s.attempts + [a] && t.invoices == s.invoices && t.charges == s.charges
    ensures AttemptsFit(t) && AttemptsGrow(s, t) && SameSuccesses(s, t) && SuccessesCharged(t)
  {
    SameOwes(s, t);
    hide Owes;
    forall id
      ensures SucceededAttempts(t, id) == SucceededAttempts(s, id)
    {
      CountAppend(s.attempts, a, IsSuccessFor(id));
    }
  }

  lemma InsertEffect(s: State, req: ReqId, a: Attempt)
    ensures var t := DoInsert(s, req, a);
            || t == s.(requests := s.requests - {req})
            || (&& t == s.(attempts := s.attempts + [a], requests := s.requests[req := Calling(|s.attempts|, [])])
                && forall b | 0 <= b < |s.attempts| :: !SamePair(s.attempts[b], a))
  {
    FindAttemptExact(s.attempts, a.invoiceId, a.key);
  }

  lemma StartingOwes(s: State, req: ReqId, a: Attempt)
    requires RequestsFit(s) && req in s.requests && s.requests[req] == Starting(a)
    ensures a.status == Pending && Owes(s, a.invoiceId, a.amount, a.currency)
  {
    assert RequestFits(s, s.requests[req]);
  }

  lemma InsertKeeps(s: State, req: ReqId, a: Attempt)
    requires Inv(s) && req in s.requests && s.requests[req] == Starting(a)
    ensures Inv(DoInsert(s, req, a)) && Grows(s, DoInsert(s, req, a))
  {
    var t := DoInsert(s, req, a);
    hide *;
    Parts(s);
    InsertEffect(s, req, a);
    StartingOwes(s, req, a);
    SameTables(s, t);
    if t == s.(requests := s.requests - {req}) {
      QuietKeeps(s, t);
    } else {
      AppendAttempt(s, t, a);
      InsertRequests(s, t, req, a);
      SendsFrame(s, t);
      OutboxFrame(s, t);
      EmailsFrame(s, t);
      Assemble(s, t);
    }
  }

  // ---- one request to the provider --------------------------------------------------------------

  lemma SendCounts(s: State, t: State, r: Request)
    requires t.sends == s.sends + [r]
    ensures forall id, key :: SendCount(t, id, key)
              == SendCount(s, id, key) + (if id == r.invoiceId && key == r.key then 1 else 0)
  {
    forall id, key
      ensures SendCount(t, id, key) == SendCount(s, id, key) + (if id == r.invoiceId && key == r.key then 1 else 0)
    {
      CountAppend(s.sends, r, (x: Request) => x.invoiceId == id && x.key == key);
    }
  }

  /** The call for attempt `id` goes on with one more response, or is over. */
  predicate NextPc(s: State, t: State, id: nat, got: seq<Response>, pc: Pc)
    requires id < |s.attempts|
  {
    match pc
    case Starting(_) => false
    case Calling(n, more) => n == id && |more| == |got| + 1 && GoesOn(s.maxRetries, more)
    case Returned(n, o) => n == id && (Succeeds(o) ==> s.attempts[id].key in t.charges)
  }

  lemma SendRequests(s: State, t: State, req: ReqId, id: nat, got: seq<Response>, pc: Pc)
    requires RequestsFit(s) && AttemptsFit(s) && req in s.requests && s.requests[req] == Calling(id, got) && id < |s.attempts|
    requires t == s.(sends := s.sends + [RequestOf(s.attempts[id])], charges := t.charges, requests := s.requests[req := pc])
    requires s.charges.Keys <= t.charges.Keys && NextPc(s, t, id, got, pc)
    ensures RequestsFit(t)
  {
    SendCounts(s, t, RequestOf(s.attempts[id]));
    SameOwes(s, t);
    assert RequestFits(s, s.requests[req]);
    hide Owes, SendCount, GoesOn;
    forall q | q in t.requests
      ensures RequestFits(t, t.requests[q])
    {
      if q != req {
        assert RequestFits(s, s.requests[q]);
        if t.requests[q].Calling? { assert t.requests[q].id != id; }
      }
    }
  }

  lemma ChargesGrow(s: State, t: State)
    requires SuccessesCharged(s) && s.attempts == t.attempts && s.charges.Keys <= t.charges.Keys
    ensures SuccessesCharged(t)
  {
  }

  lemma SendSends(s: State, t: State, id: nat, r: Request, hit: bool)
    requires SendsFit(s) && AttemptsFit(s) && id < |s.attempts| && r == RequestOf(s.attempts[id])
    requires SendCount(s, r.invoiceId, r.key) < MaxSends(s.maxRetries)
    requires t == s.(sends := s.sends + [r], charges := Charged(s.charges, r, hit), requests := t.requests)
    ensures SendsFit(t) && s.sends <= t.sends
  {
    hide Owes, SendCount, SuccessesCharged, CountIf, AttemptsFit, MaxSends;
    SendCounts(s, t, r);
    assert SuccessesCharged(t) by { ChargesGrow(s, t); }
    forall j | 0 <= j < |t.sends|
      ensures Owes(t, t.sends[j].invoiceId, t.sends[j].amount, t.sends[j].currency)
      ensures HasAttempt(t, t.sends[j].invoiceId, t.sends[j].key)
    {
      SendFits(s, t, id, r, j);
    }
    hide HasAttempt;
    forall key | key in t.charges
      ensures ChargeFits(t, key)
    {
      ChargeOfSend(s, t, r, |s.sends|, hit, key);
    }
  }

  lemma SendFits(s: State, t: State, id: nat, r: Request, j: nat)
    requires SendsFit(s) && AttemptsFit(s) && id < |s.attempts| && r == RequestOf(s.attempts[id])
    requires t == s.(sends := s.sends + [r], charges := t.charges, requests := t.requests) && j < |t.sends|
    ensures Owes(t, t.sends[j].invoiceId, t.sends[j].amount, t.sends[j].currency)
    ensures HasAttempt(t, t.sends[j].invoiceId, t.sends[j].key)
  {
    SameOwes(s, t);
    hide Owes, SendCount, SuccessesCharged, CountIf;
    if j < |s.sends| {
      assert HasAttempt(s, s.sends[j].invoiceId, s.sends[j].key);
    } else {
      assert t.sends[j] == r && t.attempts[id].key == r.key;
    }
  }

  /** A charge is one that send `n` or an earlier charged send asked for. */
  lemma ChargeOfSend(s: State, t: State, r: Request, n: nat, hit: bool, key: string)
    requires SendsFit(s) && key in t.charges && s.sends <= t.sends && n < |t.sends| && t.sends[n] == r
    requires t.charges == Charged(s.charges, r, hit)
    ensures ChargeFits(t, key)
  {
    hide Owes, SendCount, SuccessesCharged, CountIf, HasAttempt;
    if key in s.charges {
      assert ChargeFits(s, key);
      var j :| 0 <= j < |s.sends| && s.sends[j].key == key
           && s.charges[key] == Charge(s.sends[j].invoiceId, s.sends[j].amount, s.sends[j].currency);
      assert t.sends[j] == s.sends[j];
    }
  }

  lemma SendKeeps(s: State, t: State, req: ReqId, id: nat, got: seq<Response>, pc: Pc, hit: bool)
    requires Inv(s) && req in s.requests && s.requests[req] == Calling(id, got) && id < |s.attempts|
    requires var r := RequestOf(s.attempts[id]);
             t == s.(sends := s.sends + [r], charges := Charged(s.charges, r, hit), requests := s.requests[req := pc])
    requires s.charges.Keys <= t.charges.Keys && NextPc(s, t, id, got, pc)
    ensures Inv(t) && Grows(s, t)
  {
    hide *;
    var r := RequestOf(s.attempts[id]);
    Parts(s);
    SendsLeft(s, req, id, got);
    SameTables(s, t);
    AttemptsFrame(s, t);
    SendRequests(s, t, req, id, got, pc);
    SendSends(s, t, id, r, hit);
    OutboxFrame(s, t);
    EmailsFrame(s, t);
    Assemble(s, t);
  }

  lemma SendEffect(s: State, req: ReqId, id: nat, got: seq<Response>, x: Response, charged: bool)
    requires RequestsFit(s) && req in s.requests && s.requests[req] == Calling(id, got) && id < |s.attempts|
    requires Succeeds(Classify(x)) ==> s.attempts[id].key in s.charges || charged
    ensures var t := DoSendOnce(s, req, id, got, x, charged); var r := RequestOf(s.attempts[id]);
            && req in t.requests
            && t == s.(sends := s.sends + [r], charges := Charged(s.charges, r, charged),
                       requests := s.requests[req := t.requests[req]])
            && s.charges.Keys <= t.charges.Keys && NextPc(s, t, id, got, t.requests[req])
  {
    assert RequestFits(s, s.requests[req]);
    OneMore(s.maxRetries, got, x);
    hide Classify, Stops, GoesOn, IsExchange, RequestsFit;
  }

  lemma SendsLeft(s: State, req: ReqId, id: nat, got: seq<Response>)
    requires RequestsFit(s) && req in s.requests && s.requests[req] == Calling(id, got)
    ensures id < |s.attempts|
    ensures SendCount(s, RequestOf(s.attempts[id]).invoiceId, RequestOf(s.attempts[id]).key) < MaxSends(s.maxRetries)
  {
    assert RequestFits(s, s.requests[req]);
  }

  // ---- a charge made later -----------------------------------------------------------------------

  lemma LateRequests(s: State, t: State)
    requires RequestsFit(s) && t == s.(charges := t.charges) && s.charges.Keys <= t.charges.Keys
    ensures RequestsFit(t)
  {
    SameSends(s, t);
    SameOwes(s, t);
    hide Owes, SendCount, GoesOn;
    forall q | q in t.requests
      ensures RequestFits(t, t.requests[q])
    {
      assert RequestFits(s, s.requests[q]);
    }
  }

  lemma LateSends(s: State, t: State, j: nat)
    requires SendsFit(s) && j < |s.sends| && t == s.(charges := Charged(s.charges, s.sends[j], true))
    ensures SendsFit(t) && s.charges.Keys <= t.charges.Keys
  {
    ChargesGrow(s, t);
    hide Owes, SendCount, HasAttempt, SuccessesCharged, SendsFit;
    forall key | key in t.charges
      ensures ChargeFits(t, key)
    {
      ChargeOfSend(s, t, s.sends[j], j, true, key);
    }
    hide ChargeFits;
    SameSendsFit(s, t);
  }

  lemma SameSendsFit(s: State, t: State)
    requires SendsFit(s) && t == s.(charges := t.charges) && SuccessesCharged(t)
    requires forall key | key in t.charges :: ChargeFits(t, key)
    ensures SendsFit(t)
  {
    SameSends(s, t);
    SameOwes(s, t);
    assert forall id, key :: HasAttempt(t, id, key) == HasAttempt(s, id, key);
    hide Owes, SendCount, HasAttempt, SuccessesCharged, ChargeFits;
  }

  lemma LateKeeps(s: State, t: State, j: nat)
    requires Inv(s) && j < |s.sends| && t == s.(charges := Charged(s.charges, s.sends[j], true))
    ensures Inv(t) && Grows(s, t)
  {
    hide *;
    Parts(s);
    SameTables(s, t);
    LateSends(s, t, j);
    LateRequests(s, t);
    AttemptsFrame(s, t);
    OutboxFrame(s, t);
    EmailsFrame(s, t);
    Assemble(s, t);
  }
}

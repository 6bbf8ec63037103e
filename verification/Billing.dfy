/**
 * The billing service of the test run as a step system: invoice commands, the
 * phases of overlapping `collect_payment` requests, overlapping dispatcher
 * passes, an external payment provider and an external email provider.
 *
 * Every `async with session.begin()` block is atomic, with two exceptions that
 * are split on purpose: the first block of `collect_payment` looks up and flushes
 * in separate steps, and a dispatcher pass reads, delivers and commits in
 * separate steps.  Every HTTP request to the payment provider is a step of its
 * own, and so is a charge that the provider makes later.  Crashes may happen
 * between any two steps.
 */
module Billing {
  import opened Prelude
  import opened Codec
  import opened Events
  import opened HalfUp
  import opened InvoiceModel
  import opened InvoiceOutbox
  import opened PaymentClient

  type ReqId = nat
  type PassId = nat

  /** Where a `collect_payment` request is. */
  datatype Pc =
    | Starting(attempt: Attempt)                  // lookup found nothing, attempt built, not flushed
    | Calling(id: nat, got: seq<Response>)        // attempt committed, the responses so far
    | Returned(id: nat, outcome: Outcome)         // provider call over

  /** An open dispatcher transaction: the entries it read and those it has settled in memory. */
  datatype OpenPass = OpenPass(items: seq<nat>, read: seq<Entry>, settled: seq<Entry>)

  datatype Charge = Charge(invoiceId: Uuid, amount: int, currency: string)

  datatype Email = Email(key: string, recipient: string, eventType: string, invoiceId: Uuid, total: int, currency: string)

  datatype State = State(
    maxRetries: int,
    clock: int,
    customers: map<Uuid, string>,
    invoices: map<Uuid, Invoice>,
    attempts: seq<Attempt>,          // the position stands for the attempt's UUID
    outbox: seq<Entry>,              // likewise
    requests: map<ReqId, Pc>,
    passes: map<PassId, OpenPass>,
    sends: seq<Request>,             // HTTP requests that left for the payment provider
    charges: map<string, Charge>,    // the provider charges once per idempotency key
    emails: seq<Email>)              // the email provider sends once per idempotency key

  /** `charged`: did the provider act on this request, whatever came back? */
  datatype Action =
    | CreateCustomer(customer: Uuid, email: string)
    | CreateInvoice(invoice: Uuid, owner: Uuid, currency: string)
    | AddLine(invoice: Uuid, line: Line)
    | Issue(invoice: Uuid)
    | Lookup(req: ReqId, invoice: Uuid, key: string)
    | Insert(req: ReqId)
    | SendOnce(req: ReqId, response: Response, charged: bool)
    | LateCharge(j: nat)                          // the provider acts on send j after all
    | Settle(req: ReqId, seen: InvoiceStatus)
    | CrashRequest(req: ReqId)
    | ReadBatch(pass: PassId, limit: nat, items: seq<nat>)
    | Deliver(pass: PassId, accepted: bool, ok: bool)
    | CommitBatch(pass: PassId)
    | CrashPass(pass: PassId)
    | Tick(d: nat)

  // ---- payment requests --------------------------------------------------------------

  function FindAttempt(attempts: seq<Attempt>, invoice: Uuid, key: string): Option<nat> {
    FindLast(attempts, (a: Attempt) => a.invoiceId == invoice && a.key == key)
  }

  /** A request that returned or raised is no longer there. */
  function DoLookup(s: State, req: ReqId, invoice: Uuid, key: string): State {
    if invoice !in s.invoices || FindAttempt(s.attempts, invoice, key).Some? then s
    else match NewAttempt(invoice, s.invoices[invoice], key)
      case Ok(a) => s.(requests := s.requests[req := Starting(a)])
      case Err(_) => s
  }

  /** The flush meets the unique constraint on (invoice, key). */
  function DoInsert(s: State, req: ReqId, a: Attempt): State {
    if FindAttempt(s.attempts, a.invoiceId, a.key).Some? then s.(requests := s.requests - {req})
    else s.(attempts := s.attempts + [a], requests := s.requests[req := Calling(|s.attempts|, [])])
  }

  function RequestOf(a: Attempt): Request { Request(a.invoiceId, a.key, a.amount, a.currency) }

  function Charged(charges: map<string, Charge>, r: Request, hit: bool): map<string, Charge> {
    if hit && r.key !in charges then charges[r.key := Charge(r.invoiceId, r.amount, r.currency)] else charges
  }

  /** One request of the retried call; the call is over when the retry loop stops. */
  function DoSendOnce(s: State, req: ReqId, id: nat, got: seq<Response>, x: Response, charged: bool): State
    requires id < |s.attempts|
  {
    var r := RequestOf(s.attempts[id]);
    s.(sends := s.sends + [r],
       charges := Charged(s.charges, r, charged),
       requests := s.requests[req := if Stops(s.maxRetries, |got| + 1, x) then Returned(id, Classify(x))
                                     else Calling(id, got + [x])])
  }

  function PaidEvent(id: Uuid, i: Invoice): Event
    requires i.paidAt.Some?
  {
    InvoicePaid(id, i.customerId, i.paidAt.value, Total(i.lines), i.currency)
  }

  function IssuedEvent(id: Uuid, i: Invoice): Event
    requires i.issuedAt.Some?
  {
    InvoiceIssued(id, i.customerId, i.issuedAt.value, Total(i.lines), i.currency)
  }

  /** The last block of a request.  Raising in it rolls the whole block back. */
  function DoSettle(s: State, req: ReqId, id: nat, outcome: Outcome, seen: InvoiceStatus): State
    requires id < |s.attempts| && s.attempts[id].invoiceId in s.invoices
  {
    var done := s.(requests := s.requests - {req});
    var a := s.attempts[id];
    match outcome
    case ProviderError(m) => done.(attempts := s.attempts[id := AsFailed(a, m, s.clock)])
    case Answered(Declined(m)) =>
      var message := if m.Some? && m.value != "" then m.value else "payment failed";
      done.(attempts := s.attempts[id := AsFailed(a, message, s.clock)])
    case Answered(Success(pid)) =>
      (match AsPaid(s.invoices[a.invoiceId], seen, s.clock)
       case Ok(i) =>
         done.(attempts := s.attempts[id := AsSucceeded(a, pid, s.clock)],
               invoices := s.invoices[a.invoiceId := i],
               outbox := s.outbox + [FromEvent(PaidEvent(a.invoiceId, i), s.clock)])
       case Err(_) => done)
    case _ => done
  }

  // ---- dispatcher passes ----------------------------------------------------------------

  function EmailOf(e: Event, recipient: string): Email {
    Email(EmailKey(EventType(e), e.invoiceId), recipient, EventType(e), e.invoiceId, e.total, e.currency)
  }

  predicate SentKey(emails: seq<Email>, key: string) {
    exists i | 0 <= i < |emails| :: emails[i].key == key
  }

  /** The provider drops a repeated key. */
  function Accept(emails: seq<Email>, m: Email): seq<Email> {
    if SentKey(emails, m.key) then emails else emails + [m]
  }

  function EventOf(e: Entry): Result<Event, DecodeError> { FromEntry(e.eventType, e.payload) }

  /** The one handler for an event: it looks the customer up, then sends the email; `ok`: it returns. */
  function HandlerRaises(s: State, entry: Entry, ok: bool): Option<string> {
    var event := EventOf(entry);
    if event.Ok? && event.value.customerId !in s.customers then Some("customer not found")
    else if !ok then Some("handler failed")
    else None
  }

  /** Decode, run the handler, settle the entry in memory.  `accepted`: the provider took the email. */
  function DoDeliver(s: State, pass: PassId, accepted: bool, ok: bool): State
    requires pass in s.passes && |s.passes[pass].settled| < |s.passes[pass].read|
  {
    var p := s.passes[pass];
    var entry := p.read[|p.settled|];
    var event := EventOf(entry);
    var settled := Settled(entry, Attempted(entry, HandlerRaises(s, entry, ok)), s.clock);
    s.(emails := if accepted && event.Ok? && event.value.customerId in s.customers
                 then Accept(s.emails, EmailOf(event.value, s.customers[event.value.customerId])) else s.emails,
       passes := s.passes[pass := p.(settled := p.settled + [settled])])
  }

  /** The UPDATE writes only the columns the session changed, over whatever is there now. */
  function Merge(current: Entry, before: Entry, after: Entry): Entry {
    current.(processedAt := if after.processedAt != before.processedAt then after.processedAt else current.processedAt,
             error := if after.error != before.error then after.error else current.error,
             attempts := if after.attempts != before.attempts then after.attempts else current.attempts)
  }

  function Written(outbox: seq<Entry>, p: OpenPass, k: nat): (r: seq<Entry>)
    requires k <= |p.settled| == |p.read| == |p.items|
    requires forall i | 0 <= i < |p.items| :: p.items[i] < |outbox|
    ensures |r| == |outbox|
  {
    if k == 0 then outbox
    else
      var prev := Written(outbox, p, k - 1);
      prev[p.items[k - 1] := Merge(prev[p.items[k - 1]], p.read[k - 1], p.settled[k - 1])]
  }

  function DoCommit(s: State, pass: PassId, p: OpenPass): State
    requires |p.settled| == |p.read| == |p.items| && forall i | 0 <= i < |p.items| :: p.items[i] < |s.outbox|
  {
    s.(outbox := Written(s.outbox, p, |p.items|), passes := s.passes - {pass})
  }

  // ---- steps ----------------------------------------------------------------------------

  predicate Enabled(s: State, a: Action) {
    match a
    case CreateCustomer(c, _) => c !in s.customers
    case CreateInvoice(i, c, _) => i !in s.invoices && c in s.customers
    case AddLine(i, _) => i in s.invoices
    case Issue(i) => i in s.invoices
    case Lookup(req, _, _) => req !in s.requests
    case Insert(req) => req in s.requests && s.requests[req].Starting?
    case SendOnce(req, x, charged) =>
      && req in s.requests && s.requests[req].Calling? && s.requests[req].id < |s.attempts|
      // the provider reports success only for a key it has charged
      && (Succeeds(Classify(x)) ==> s.attempts[s.requests[req].id].key in s.charges || charged)
    case LateCharge(j) => j < |s.sends|
    case Settle(req, seen) =>
      && req in s.requests && s.requests[req].Returned? && s.requests[req].id < |s.attempts|
      && s.attempts[s.requests[req].id].invoiceId in s.invoices
      // `seen` is the committed status, or the ISSUED this session read in its first block
      && (seen == s.invoices[s.attempts[s.requests[req].id].invoiceId].status || seen == Issued)
    case CrashRequest(req) => req in s.requests
    case ReadBatch(pass, limit, items) => pass !in s.passes && IsBatch(s.outbox, limit, items)
    case Deliver(pass, accepted, ok) =>
      && pass in s.passes && |s.passes[pass].settled| < |s.passes[pass].read|
      && (ok ==> accepted)
    case CommitBatch(pass) =>
      && pass in s.passes && |s.passes[pass].settled| == |s.passes[pass].read| == |s.passes[pass].items|
      && forall i | 0 <= i < |s.passes[pass].items| :: s.passes[pass].items[i] < |s.outbox|
    case CrashPass(pass) => pass in s.passes
    case Tick(_) => true
  }

  function DoIssue(s: State, id: Uuid): State
    requires id in s.invoices
  {
    match AsIssued(s.invoices[id], s.clock)
    case Ok(i) => s.(invoices := s.invoices[id := i], outbox := s.outbox + [FromEvent(IssuedEvent(id, i), s.clock)])
    case Err(_) => s
  }

  function DoAddLine(s: State, id: Uuid, l: Line): State
    requires id in s.invoices
  {
    match WithLine(s.invoices[id], l)
    case Ok(i) => s.(invoices := s.invoices[id := i])
    case Err(_) => s
  }

  function DoRead(s: State, pass: PassId, limit: nat, items: seq<nat>): State
    requires IsBatch(s.outbox, limit, items)
  {
    InRange(s.outbox, limit, items);
    s.(passes := s.passes[pass := OpenPass(items, seq(|items|, i requires 0 <= i < |items| => s.outbox[items[i]]), [])])
  }

  function Do(s: State, a: Action): State
    requires Enabled(s, a)
  {
    match a
    case CreateCustomer(c, email) => s.(customers := s.customers[c := email])
    case CreateInvoice(i, c, currency) => s.(invoices := s.invoices[i := NewInvoice(c, currency)])
    case AddLine(i, l) => DoAddLine(s, i, l)
    case Issue(i) => DoIssue(s, i)
    case Lookup(req, i, key) => DoLookup(s, req, i, key)
    case Insert(req) => DoInsert(s, req, s.requests[req].attempt)
    case SendOnce(req, x, charged) => DoSendOnce(s, req, s.requests[req].id, s.requests[req].got, x, charged)
    case LateCharge(j) => s.(charges := Charged(s.charges, s.sends[j], true))
    case Settle(req, seen) => DoSettle(s, req, s.requests[req].id, s.requests[req].outcome, seen)
    case CrashRequest(req) => s.(requests := s.requests - {req})
    case ReadBatch(pass, limit, items) => DoRead(s, pass, limit, items)
    case Deliver(pass, accepted, ok) => DoDeliver(s, pass, accepted, ok)
    case CommitBatch(pass) => DoCommit(s, pass, s.passes[pass])
    case CrashPass(pass) => s.(passes := s.passes - {pass})
    case Tick(d) => s.(clock := s.clock + d)
  }

  // ---- runs -------------------------------------------------------------------------------

  datatype Run = Start(init: State) | Then(prefix: Run, a: Action)

  predicate IsRun(r: Run)
    decreases r, 0
  {
    r.Then? ==> IsRun(r.prefix) && Enabled(Final(r.prefix), r.a)
  }

  function Final(r: Run): State
    requires IsRun(r)
    decreases r, 1
  {
    if r.Start? then r.init else Do(Final(r.prefix), r.a)
  }

  predicate Init(s: State) {
    && s.customers == map[] && s.invoices == map[] && s.attempts == [] && s.outbox == []
    && s.requests == map[] && s.passes == map[] && s.sends == [] && s.charges == map[] && s.emails == []
  }

  predicate Reached(r: Run)
  {
    IsRun(r) && (if r.Start? then Init(r.init) else Reached(r.prefix))
  }
}

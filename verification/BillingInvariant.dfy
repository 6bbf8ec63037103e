/** What every step of the billing system keeps. */
module BillingInvariant {
  import opened Prelude
  import opened Codec
  import opened Events
  import opened HalfUp
  import opened InvoiceModel
  import opened InvoiceOutbox
  import opened PaymentClient
  import opened Billing

  // ---- an invoice over time -----------------------------------------------------------

  function Rank(status: InvoiceStatus): nat { match status case Draft => 0 case Issued => 1 case Paid => 2 }

  /** `j` is what `i` may have become in one step: one status at a time, and frozen once issued. */
  predicate NextInvoice(i: Invoice, j: Invoice) {
    && i.customerId == j.customerId && i.currency == j.currency
    && Rank(i.status) <= Rank(j.status) <= Rank(i.status) + 1
    && (i.status != Draft ==> i.lines == j.lines && i.issuedAt == j.issuedAt)
    && (i.status == Draft == j.status ==> i.lines <= j.lines)
  }

  predicate InvoiceFits(i: Invoice) {
    && ValidLines(i.lines)
    && (i.status == Draft <==> i.issuedAt == None)
    && (i.status == Paid <==> i.paidAt.Some?)
    && (i.status != Draft ==> i.lines != [])
  }

  predicate InvoicesFit(s: State) {
    forall i | i in s.invoices :: InvoiceFits(s.invoices[i]) && s.invoices[i].customerId in s.customers
  }

  /** The invoice is issued and owes exactly this. */
  predicate Owes(s: State, id: Uuid, amount: int, currency: string) {
    && id in s.invoices && s.invoices[id].status != Draft
    && s.invoices[id].currency == currency && amount == Total(s.invoices[id].lines)
  }

  // ---- attempts and requests ------------------------------------------------------------

  predicate SamePair(a: Attempt, b: Attempt) { a.invoiceId == b.invoiceId && a.key == b.key }

  predicate AttemptsFit(s: State) {
    && (forall a | 0 <= a < |s.attempts| ::
          Owes(s, s.attempts[a].invoiceId, s.attempts[a].amount, s.attempts[a].currency))
    && (forall a, b | 0 <= a < b < |s.attempts| :: !SamePair(s.attempts[a], s.attempts[b]))
  }

  function SendCount(s: State, id: Uuid, key: string): nat {
    CountIf(s.sends, (r: Request) => r.invoiceId == id && r.key == key)
  }

  predicate RequestFits(s: State, pc: Pc) {
    match pc
    case Starting(a) => a.status == Pending && Owes(s, a.invoiceId, a.amount, a.currency)
    case Calling(id, got) =>
      && id < |s.attempts| && s.attempts[id].status == Pending && GoesOn(s.maxRetries, got)
      && SendCount(s, s.attempts[id].invoiceId, s.attempts[id].key) == |got|
    case Returned(id, outcome) =>
      && id < |s.attempts| && s.attempts[id].status == Pending
      && (Succeeds(outcome) ==> s.attempts[id].key in s.charges)
  }

  predicate RequestsFit(s: State) {
    && (forall r | r in s.requests :: RequestFits(s, s.requests[r]))
    && (forall q, r | q in s.requests && r in s.requests && q != r && !s.requests[q].Starting? && !s.requests[r].Starting? ::
          s.requests[q].id != s.requests[r].id)
  }

  // ---- the payment provider ----------------------------------------------------------------

  ghost predicate HasAttempt(s: State, id: Uuid, key: string) {
    exists a :: 0 <= a < |s.attempts| && s.attempts[a].invoiceId == id && s.attempts[a].key == key
  }

  ghost predicate ChargeFits(s: State, key: string)
    requires key in s.charges
  {
    exists j :: 0 <= j < |s.sends| && s.sends[j].key == key
             && s.charges[key] == Charge(s.sends[j].invoiceId, s.sends[j].amount, s.sends[j].currency)
  }

  ghost predicate SendsFit(s: State) {
    && (forall j | 0 <= j < |s.sends| ::
          && Owes(s, s.sends[j].invoiceId, s.sends[j].amount, s.sends[j].currency)
          && HasAttempt(s, s.sends[j].invoiceId, s.sends[j].key))
    && (forall id, key :: SendCount(s, id, key) <= MaxSends(s.maxRetries))
    && (forall key | key in s.charges :: ChargeFits(s, key))
    && SuccessesCharged(s)
  }

  predicate SuccessesCharged(s: State) {
    forall a | 0 <= a < |s.attempts| && s.attempts[a].status == Succeeded :: s.attempts[a].key in s.charges
  }

  // ---- the outbox ----------------------------------------------------------------------------

  function IsEventFor(eventType: string, id: Uuid): Entry -> bool {
    (e: Entry) => e.eventType == eventType && EventOf(e).Ok? && EventOf(e).value.invoiceId == id
  }

  function IssuedRows(s: State, id: Uuid): nat { CountIf(s.outbox, IsEventFor(ISSUED, id)) }

  function PaidRows(s: State, id: Uuid): nat { CountIf(s.outbox, IsEventFor(PAID, id)) }

  function IsSuccessFor(id: Uuid): Attempt -> bool {
    (a: Attempt) => a.status == Succeeded && a.invoiceId == id
  }

  function SucceededAttempts(s: State, id: Uuid): nat { CountIf(s.attempts, IsSuccessFor(id)) }

  predicate EventFits(s: State, e: Event) {
    && Owes(s, e.invoiceId, e.total, e.currency)
    && e.customerId == s.invoices[e.invoiceId].customerId
    && (e.InvoiceIssued? ==> Some(e.issuedAt) == s.invoices[e.invoiceId].issuedAt)
    && (e.InvoicePaid? ==> s.invoices[e.invoiceId].status == Paid)
  }

  /** An InvoicePaid row comes after the InvoiceIssued row of its invoice. */
  ghost predicate Preceded(outbox: seq<Entry>, j: nat)
    requires j < |outbox|
  {
    forall id :: IsEventFor(PAID, id)(outbox[j]) ==>
      exists i :: 0 <= i < j && IsEventFor(ISSUED, id)(outbox[i])
  }

  predicate RowsDescribe(s: State) {
    forall j | 0 <= j < |s.outbox| :: EventOf(s.outbox[j]).Ok? && EventFits(s, EventOf(s.outbox[j]).value)
  }

  ghost predicate AllPreceded(outbox: seq<Entry>) {
    forall j | 0 <= j < |outbox| :: Preceded(outbox, j)
  }

  /** One InvoiceIssued row per issued invoice, one InvoicePaid row per succeeded attempt, and PAID means some succeeded. */
  ghost predicate CountsAgree(s: State) {
    && (forall id :: IssuedRows(s, id) == if id in s.invoices && s.invoices[id].status != Draft then 1 else 0)
    && (forall id :: PaidRows(s, id) == SucceededAttempts(s, id))
    && (forall id | id in s.invoices :: s.invoices[id].status == Paid <==> SucceededAttempts(s, id) >= 1)
  }

  ghost predicate OutboxFits(s: State) {
    RowsDescribe(s) && AllPreceded(s.outbox) && CountsAgree(s)
  }

  // ---- emails and open passes -------------------------------------------------------------------

  predicate SentFor(s: State, e: Entry) {
    EventOf(e).Ok? && SentKey(s.emails, EmailKey(e.eventType, EventOf(e).value.invoiceId))
  }

  ghost predicate EmailFits(s: State, m: Email) {
    exists j :: 0 <= j < |s.outbox| && EventOf(s.outbox[j]).Ok?
      && var e := EventOf(s.outbox[j]).value;
         e.customerId in s.customers && m == EmailOf(e, s.customers[e.customerId])
  }

  predicate PassFits(s: State, p: OpenPass) {
    && |p.settled| <= |p.read| == |p.items|
    && forall k | 0 <= k < |p.items| ::
         && p.items[k] < |s.outbox|
         && p.read[k].eventType == s.outbox[p.items[k]].eventType
         && p.read[k].payload == s.outbox[p.items[k]].payload
         && p.read[k].processedAt == None
  }

  /** Whatever a pass has marked processed in memory has been sent. */
  predicate PassSent(s: State, p: OpenPass)
    requires |p.settled| <= |p.read|
  {
    forall k | 0 <= k < |p.settled| && p.settled[k].processedAt.Some? :: SentFor(s, p.read[k])
  }

  predicate PassesFit(s: State) {
    forall p | p in s.passes :: PassFits(s, s.passes[p])
  }

  ghost predicate EmailsFit(s: State) {
    && (forall i, j | 0 <= i < j < |s.emails| :: s.emails[i].key != s.emails[j].key)
    && (forall i | 0 <= i < |s.emails| :: EmailFits(s, s.emails[i]))
    && (forall j | 0 <= j < |s.outbox| && s.outbox[j].processedAt.Some? :: SentFor(s, s.outbox[j]))
    && PassesFit(s)
    && (forall p | p in s.passes :: PassSent(s, s.passes[p]))
  }

  ghost predicate Inv(s: State) {
    InvoicesFit(s) && AttemptsFit(s) && RequestsFit(s) && SendsFit(s) && OutboxFits(s) && EmailsFit(s)
  }

  // ---- how the tables grow ----------------------------------------------------------------------

  predicate CustomersGrow(s: State, t: State) {
    forall c | c in s.customers :: c in t.customers && t.customers[c] == s.customers[c]
  }

  predicate InvoicesGrow(s: State, t: State) {
    forall i | i in s.invoices :: i in t.invoices && NextInvoice(s.invoices[i], t.invoices[i])
  }

  /** The identity of an attempt never changes, and one that has left PENDING never changes at all. */
  predicate NextAttempt(a: Attempt, b: Attempt) {
    && SamePair(a, b) && a.amount == b.amount && a.currency == b.currency
    && (a.status != Pending ==> a == b)
  }

  predicate AttemptsGrow(s: State, t: State) {
    && |s.attempts| <= |t.attempts|
    && forall a | 0 <= a < |s.attempts| :: NextAttempt(s.attempts[a], t.attempts[a])
  }

  predicate NextEntry(a: Entry, b: Entry) {
    && a.eventType == b.eventType && a.payload == b.payload && a.createdAt == b.createdAt
    && (a.processedAt.Some? ==> b.processedAt.Some?)
  }

  predicate OutboxGrows(s: State, t: State) {
    && |s.outbox| <= |t.outbox|
    && forall j | 0 <= j < |s.outbox| :: NextEntry(s.outbox[j], t.outbox[j])
  }

  predicate Grows(s: State, t: State) {
    && CustomersGrow(s, t) && InvoicesGrow(s, t) && AttemptsGrow(s, t) && OutboxGrows(s, t)
    && s.maxRetries == t.maxRetries && s.sends <= t.sends && s.emails <= t.emails
  }

  predicate NoneProcessed(s: State, t: State) {
    forall j | 0 <= j < |t.outbox| && t.outbox[j].processedAt.Some? :: j < |s.outbox| && s.outbox[j].processedAt.Some?
  }

  ghost predicate SameSuccesses(s: State, t: State) {
    forall id :: SucceededAttempts(t, id) == SucceededAttempts(s, id)
  }

  predicate SameStatuses(s: State, t: State) {
    forall id | id in t.invoices ::
      if id in s.invoices then t.invoices[id].status == s.invoices[id].status else t.invoices[id].status == Draft
  }

  // ---- frames: what untouched tables keep -----------------------------------------------------------

  lemma AttemptsFrame(s: State, t: State)
    requires AttemptsFit(s) && s.attempts == t.attempts && InvoicesGrow(s, t)
    ensures AttemptsFit(t)
  {
  }

  lemma RequestsFrame(s: State, t: State)
    requires RequestsFit(s) && InvoicesGrow(s, t)
    requires s.attempts == t.attempts && s.requests == t.requests && s.sends == t.sends && s.charges == t.charges
    requires s.maxRetries == t.maxRetries
    ensures RequestsFit(t)
  {
    forall r | r in t.requests
      ensures RequestFits(t, t.requests[r])
    {
      assert RequestFits(s, s.requests[r]);
    }
  }

  lemma SendsFrame(s: State, t: State)
    requires SendsFit(s) && InvoicesGrow(s, t) && AttemptsGrow(s, t)
    requires s.sends == t.sends && s.charges == t.charges && s.maxRetries == t.maxRetries
    requires SuccessesCharged(t)
    ensures SendsFit(t)
  {
    forall j | 0 <= j < |t.sends|
      ensures HasAttempt(t, t.sends[j].invoiceId, t.sends[j].key)
    {
      assert HasAttempt(s, s.sends[j].invoiceId, s.sends[j].key);
      var a :| 0 <= a < |s.attempts| && s.attempts[a].invoiceId == s.sends[j].invoiceId && s.attempts[a].key == s.sends[j].key;
      assert NextAttempt(s.attempts[a], t.attempts[a]);
    }
    forall id, key
      ensures SendCount(t, id, key) <= MaxSends(t.maxRetries)
    {
      assert SendCount(t, id, key) == SendCount(s, id, key);
    }
    forall key | key in t.charges
      ensures ChargeFits(t, key)
    {
      assert ChargeFits(s, key);
    }
  }

  lemma PassesFrame(s: State, t: State)
    requires PassesFit(s) && s.passes == t.passes && OutboxGrows(s, t)
    ensures PassesFit(t)
  {
    forall p | p in t.passes
      ensures PassFits(t, t.passes[p])
    {
      assert PassFits(s, s.passes[p]);
    }
  }

  lemma SentStays(s: State, t: State, e: Entry)
    requires SentFor(s, e) && s.emails <= t.emails
    ensures SentFor(t, e)
  {
    var key := EmailKey(e.eventType, EventOf(e).value.invoiceId);
    var i :| 0 <= i < |s.emails| && s.emails[i].key == key;
    assert t.emails[i].key == key;
  }

  lemma EmailStays(s: State, t: State, m: Email)
    requires EmailFits(s, m) && OutboxGrows(s, t) && CustomersGrow(s, t)
    ensures EmailFits(t, m)
  {
    var j :| 0 <= j < |s.outbox| && EventOf(s.outbox[j]).Ok?
      && var e := EventOf(s.outbox[j]).value; e.customerId in s.customers && m == EmailOf(e, s.customers[e.customerId]);
    assert NextEntry(s.outbox[j], t.outbox[j]);
    assert EventOf(t.outbox[j]) == EventOf(s.outbox[j]);
  }

  /** Rows may only be appended unprocessed. */
  lemma EmailsFrame(s: State, t: State)
    requires EmailsFit(s) && s.emails == t.emails && s.passes == t.passes
    requires OutboxGrows(s, t) && CustomersGrow(s, t) && NoneProcessed(s, t)
    ensures EmailsFit(t)
  {
    PassesFrame(s, t);
    forall i | 0 <= i < |t.emails|
      ensures EmailFits(t, t.emails[i])
    {
      EmailStays(s, t, s.emails[i]);
    }
    forall j | 0 <= j < |t.outbox| && t.outbox[j].processedAt.Some?
      ensures SentFor(t, t.outbox[j])
    {
      assert NextEntry(s.outbox[j], t.outbox[j]);
      assert SentFor(s, s.outbox[j]);
    }
    forall p | p in t.passes
      ensures PassSent(t, t.passes[p])
    {
      assert PassSent(s, s.passes[p]);
    }
  }

  lemma EventStays(s: State, t: State, e: Event)
    requires EventFits(s, e) && InvoicesGrow(s, t)
    ensures EventFits(t, e)
  {
  }

  lemma NoRowsForStrangers(s: State, id: Uuid)
    requires OutboxFits(s) && id !in s.invoices
    ensures SucceededAttempts(s, id) == 0
  {
    forall j | 0 <= j < |s.outbox|
      ensures !IsEventFor(PAID, id)(s.outbox[j])
    {
      assert EventFits(s, EventOf(s.outbox[j]).value);
    }
    CountZero(s.outbox, IsEventFor(PAID, id));
    assert PaidRows(s, id) == SucceededAttempts(s, id);
  }

  /** The outbox keeps its events, and the invoices and attempts keep the counts. */
  lemma OutboxFrame(s: State, t: State)
    requires OutboxFits(s) && InvoicesGrow(s, t) && OutboxGrows(s, t) && |s.outbox| == |t.outbox|
    requires SameSuccesses(s, t) && SameStatuses(s, t)
    ensures OutboxFits(t)
  {
    forall j | 0 <= j < |t.outbox|
      ensures EventOf(t.outbox[j]) == EventOf(s.outbox[j])
      ensures EventOf(t.outbox[j]).Ok? && EventFits(t, EventOf(t.outbox[j]).value)
    {
      assert NextEntry(s.outbox[j], t.outbox[j]);
      EventStays(s, t, EventOf(s.outbox[j]).value);
    }
    PrecededStays(s.outbox, t.outbox);
    forall id
      ensures IssuedRows(t, id) == IssuedRows(s, id) && PaidRows(t, id) == PaidRows(s, id)
    {
      CountSame(s.outbox, t.outbox, IsEventFor(ISSUED, id));
      CountSame(s.outbox, t.outbox, IsEventFor(PAID, id));
    }
    forall id | id in t.invoices
      ensures t.invoices[id].status == Paid <==> SucceededAttempts(t, id) >= 1
    {
      if id !in s.invoices { NoRowsForStrangers(s, id); }
    }
  }

  lemma PrecededStays(a: seq<Entry>, b: seq<Entry>)
    requires |a| == |b| && AllPreceded(a) && forall j | 0 <= j < |a| :: NextEntry(a[j], b[j])
    ensures AllPreceded(b)
  {
    forall j | 0 <= j < |b|
      ensures Preceded(b, j)
    {
      assert NextEntry(a[j], b[j]);
      assert Preceded(a, j);
      forall id | IsEventFor(PAID, id)(b[j])
        ensures exists i :: 0 <= i < j && IsEventFor(ISSUED, id)(b[i])
      {
        assert IsEventFor(PAID, id)(a[j]);
        var i :| 0 <= i < j && IsEventFor(ISSUED, id)(a[i]);
        assert NextEntry(a[i], b[i]);
        assert IsEventFor(ISSUED, id)(b[i]);
      }
    }
  }
}

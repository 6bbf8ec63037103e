/**
 * The control run's service (`control/app/services.py`): one session per request,
 * committing as it goes, and no check for PAID when an outcome is stored.
 */
module ControlService {
  import opened Prelude
  import opened Codec
  import opened HalfUp
  import opened InvoiceModel

  datatype ControlInvoice = ControlInvoice(
    customerId: Uuid,
    status: InvoiceStatus,
    issuedAt: Option<int>,
    paidAt: Option<int>,
    lines: seq<FracLine>)

  /** PENDING stands for the control service's PROCESSING. */
  datatype ControlAttempt = ControlAttempt(
    invoiceId: Uuid,
    key: string,
    status: AttemptStatus,
    amount: int,
    paymentId: Option<string>,
    errorCode: Option<string>,
    errorMessage: Option<string>)

  datatype ControlEvent =
    | InvoiceIssued(invoiceId: Uuid, customerId: Uuid, total: int)
    | InvoicePaid(invoiceId: Uuid, attempt: nat, total: int)

  datatype Db = Db(
    customers: set<Uuid>,
    invoices: map<Uuid, ControlInvoice>,
    attempts: seq<ControlAttempt>,
    events: seq<ControlEvent>)

  datatype AppError =
    | CustomerNotFound
    | InvoiceNotFound
    | InvoiceNotDraft
    | EmptyInvoice
    | InvoiceAlreadyPaid
    | InvoiceNotIssued
    | InvalidLine
    | EmailProviderError(message: string)
    | PaymentProviderError(message: string)
    | Unexpected

  /** What the payment client gives: ExternalProviderError, any other exception, or a result. */
  datatype Answer =
    | Unavailable(message: string)
    | Broke
    | Gave(status: AttemptStatus, paymentId: Option<string>, errorCode: Option<string>, errorMessage: Option<string>)

  // ---- operations -------------------------------------------------------------------------

  /** A repeated primary key is an IntegrityError nobody catches. */
  function Created(db: Db, id: Uuid, customer: Uuid): Result<Db, AppError> {
    if customer !in db.customers then Err(CustomerNotFound)
    else if id in db.invoices then Err(Unexpected)
    else Ok(db.(invoices := db.invoices[id := ControlInvoice(customer, Draft, None, None, [])]))
  }

  /** What `add_invoice_line` looks at; the request schema refuses the line before anything is loaded. */
  function LineRefused(db: Db, id: Uuid, l: FracLine): Option<AppError> {
    if !ValidFracLine(l) then Some(AppError.InvalidLine)
    else if id !in db.invoices then Some(InvoiceNotFound)
    else if db.invoices[id].status != Draft then Some(AppError.InvoiceNotDraft)
    else None
  }

  /** The commit inserts the line's own row and looks at nothing. */
  function LineStored(db: Db, id: Uuid, l: FracLine): Db
    requires id in db.invoices
  {
    db.(invoices := db.invoices[id := db.invoices[id].(lines := db.invoices[id].lines + [l])])
  }

  function LineAdded(db: Db, id: Uuid, l: FracLine): Result<Db, AppError> {
    if LineRefused(db, id, l).Some? then Err(LineRefused(db, id, l).value) else Ok(LineStored(db, id, l))
  }

  function TotalOf(db: Db, id: Uuid): int
    requires id in db.invoices
  {
    CalculateTotals(db.invoices[id].lines).total
  }

  /** What `issue_invoice` looks at before it sends the email. */
  function IssueRefused(db: Db, id: Uuid): Option<AppError> {
    if id !in db.invoices then Some(InvoiceNotFound)
    else if db.invoices[id].status != Draft then Some(AppError.InvoiceNotDraft)
    else if db.invoices[id].lines == [] then Some(AppError.EmptyInvoice)
    else None
  }

  /** The commit writes status and time over whatever they are by now; `total` is that of the lines loaded. */
  function IssueStored(db: Db, id: Uuid, total: int, now: int): Db
    requires id in db.invoices
  {
    db.(invoices := db.invoices[id := db.invoices[id].(status := Issued, issuedAt := Some(now))],
        events := db.events + [InvoiceIssued(id, db.invoices[id].customerId, total)])
  }

  /** Both together; the email goes out in between, and `failure` is what its provider raises. */
  function AfterIssue(db: Db, id: Uuid, failure: Option<string>, now: int): Result<Db, AppError> {
    if IssueRefused(db, id).Some? then Err(IssueRefused(db, id).value)
    else if failure.Some? then Err(EmailProviderError(failure.value))
    else Ok(IssueStored(db, id, TotalOf(db, id), now))
  }

  function FindAttempt(attempts: seq<ControlAttempt>, id: Uuid, key: string): (k: Option<nat>)
    ensures k.Some? ==> k.value < |attempts| && attempts[k.value].invoiceId == id && attempts[k.value].key == key
    ensures k.None? ==> forall j | 0 <= j < |attempts| :: !(attempts[j].invoiceId == id && attempts[j].key == key)
  {
    FindLast(attempts, (a: ControlAttempt) => a.invoiceId == id && a.key == key)
  }

  datatype Begun = Refused(e: AppError) | Replayed(attempt: nat) | Ready(built: ControlAttempt)

  /** What a request does before its first commit. */
  function Begin(db: Db, id: Uuid, key: string): (b: Begun)
    ensures b.Ready? ==> id in db.invoices && db.invoices[id].status == Issued && FindAttempt(db.attempts, id, key).None?
  {
    if id !in db.invoices then Refused(InvoiceNotFound)
    else if FindAttempt(db.attempts, id, key).Some? then Replayed(FindAttempt(db.attempts, id, key).value)
    else if db.invoices[id].status == Paid then Refused(InvoiceAlreadyPaid)
    else if db.invoices[id].status != Issued then Refused(InvoiceNotIssued)
    else Ready(ControlAttempt(id, key, Pending, TotalOf(db, id), None, None, None))
  }

  /** The first commit; it meets the unique constraint if the pair has an attempt by now. */
  function Inserted(db: Db, a: ControlAttempt): Db {
    if FindAttempt(db.attempts, a.invoiceId, a.key).Some? then db else db.(attempts := db.attempts + [a])
  }

  function Answered(a: ControlAttempt, answer: Answer): ControlAttempt {
    match answer
    case Unavailable(m) => a.(status := Failed, errorCode := Some("payment_provider_error"), errorMessage := Some(m))
    case Broke => a
    case Gave(status, paymentId, code, message) =>
      a.(status := status, paymentId := paymentId, errorCode := code, errorMessage := message)
  }

  predicate Pays(answer: Answer) { answer.Gave? && answer.status == Succeeded }

  /** From the provider's answer to the final commit. */
  function Finish(db: Db, a: nat, answer: Answer, now: int): Db
    requires a < |db.attempts| && db.attempts[a].invoiceId in db.invoices
  {
    var id := db.attempts[a].invoiceId;
    var closed := db.(attempts := db.attempts[a := Answered(db.attempts[a], answer)]);
    if Pays(answer) then
      closed.(invoices := db.invoices[id := db.invoices[id].(status := Paid, paidAt := Some(now))],
              events := db.events + [InvoicePaid(id, a, db.attempts[a].amount)])
    else closed
  }

  /** A whole request that nothing overlaps. */
  function Collected(db: Db, id: Uuid, key: string, answer: Answer, now: int): Db {
    var b := Begin(db, id, key);
    if b.Ready? then Finish(db.(attempts := db.attempts + [b.built]), |db.attempts|, answer, now) else db
  }

  // ---- paid once -----------------------------------------------------------------------------

  function IsSuccessFor(id: Uuid): ControlAttempt -> bool {
    (a: ControlAttempt) => a.status == Succeeded && a.invoiceId == id
  }

  function Successes(db: Db, id: Uuid): nat { CountIf(db.attempts, IsSuccessFor(id)) }

  function IsPaidFor(id: Uuid): ControlEvent -> bool { (e: ControlEvent) => e.InvoicePaid? && e.invoiceId == id }

  function PaidEvents(db: Db, id: Uuid): nat { CountIf(db.events, IsPaidFor(id)) }

  function IsIssuedFor(id: Uuid): ControlEvent -> bool { (e: ControlEvent) => e.InvoiceIssued? && e.invoiceId == id }

  function IssuedEvents(db: Db, id: Uuid): nat { CountIf(db.events, IsIssuedFor(id)) }

  /** One success and one event for a paid invoice, none for any other. */
  predicate PaidOnce(db: Db, id: Uuid) {
    var n := if id in db.invoices && db.invoices[id].status == Paid then 1 else 0;
    Successes(db, id) == n && PaidEvents(db, id) == n
  }

  lemma FinishCounts(db: Db, a: nat, answer: Answer, now: int, id: Uuid)
    requires a < |db.attempts| && db.attempts[a].invoiceId in db.invoices && db.attempts[a].status == Pending
    ensures var t := Finish(db, a, answer, now);
            var hit := if Pays(answer) && db.attempts[a].invoiceId == id then 1 else 0;
            && Successes(t, id) == Successes(db, id) + hit && PaidEvents(t, id) == PaidEvents(db, id) + hit
            && IssuedEvents(t, id) == IssuedEvents(db, id)
  {
    var paid := InvoicePaid(db.attempts[a].invoiceId, a, db.attempts[a].amount);
    CountUpdate(db.attempts, a, Answered(db.attempts[a], answer), IsSuccessFor(id));
    CountAppend(db.events, paid, IsPaidFor(id));
    CountAppend(db.events, paid, IsIssuedFor(id));
  }
}

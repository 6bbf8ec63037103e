/** `app/models/invoice.py` of the test run: the invoice and payment-attempt aggregate. */
module InvoiceModel {
  import opened Prelude
  import opened Codec
  import opened HalfUp

  datatype InvoiceStatus = Draft | Issued | Paid

  datatype AttemptStatus = Pending | Succeeded | Failed

  datatype Invoice = Invoice(
    customerId: Uuid,
    currency: string,
    status: InvoiceStatus,
    issuedAt: Option<int>,
    paidAt: Option<int>,
    lines: seq<Line>)

  datatype Attempt = Attempt(
    invoiceId: Uuid,
    key: string,
    status: AttemptStatus,
    amount: int,
    currency: string,
    providerPaymentId: Option<string>,
    errorMessage: Option<string>,
    completedAt: Option<int>)

  datatype ModelError = InvoiceNotDraft | EmptyInvoice | AlreadyPaid | PaymentNotAllowed | InvalidLine

  function NewInvoice(customerId: Uuid, currency: string): Invoice {
    Invoice(customerId, Upper(currency), Draft, None, None, [])
  }

  function WithLine(i: Invoice, l: Line): Result<Invoice, ModelError> {
    if i.status != Draft then Err(InvoiceNotDraft)
    else if !ValidLine(l) then Err(InvalidLine)
    else Ok(i.(lines := i.lines + [l]))
  }

  function AsIssued(i: Invoice, now: int): Result<Invoice, ModelError> {
    if i.status != Draft then Err(InvoiceNotDraft)
    else if i.lines == [] then Err(EmptyInvoice)
    else Ok(i.(status := Issued, issuedAt := Some(now)))
  }

  /** `start_payment_attempt`, with the checks of `ensure_payment_can_be_collected`. */
  function NewAttempt(id: Uuid, i: Invoice, key: string): Result<Attempt, ModelError> {
    if i.status == Paid then Err(AlreadyPaid)
    else if i.status != Issued then Err(PaymentNotAllowed)
    else Ok(Attempt(id, key, Pending, Total(i.lines), i.currency, None, None, None))
  }

  /** `mark_paid` looks only for PAID; `seen` is the status it looks at. */
  function AsPaid(i: Invoice, seen: InvoiceStatus, now: int): Result<Invoice, ModelError> {
    if seen == Paid then Err(AlreadyPaid) else Ok(i.(status := Paid, paidAt := Some(now)))
  }

  // `succeed` and `fail` check nothing.
  function AsSucceeded(a: Attempt, paymentId: Option<string>, now: int): Attempt {
    a.(status := Succeeded, providerPaymentId := paymentId, errorMessage := None, completedAt := Some(now))
  }

  function AsFailed(a: Attempt, message: string, now: int): Attempt {
    a.(status := Failed, errorMessage := Some(message), completedAt := Some(now))
  }

  class PaymentAttempt {
    const invoiceId: Uuid
    const key: string
    const amount: int
    const currency: string
    var status: AttemptStatus
    var providerPaymentId: Option<string>
    var errorMessage: Option<string>
    var completedAt: Option<int>

    function View(): Attempt
      reads this
    {
      Attempt(invoiceId, key, status, amount, currency, providerPaymentId, errorMessage, completedAt)
    }

    constructor Load(a: Attempt)
      ensures View() == a
    {
      invoiceId, key, amount, currency := a.invoiceId, a.key, a.amount, a.currency;
      status, providerPaymentId := a.status, a.providerPaymentId;
      errorMessage, completedAt := a.errorMessage, a.completedAt;
    }

    method Succeed(paymentId: Option<string>, now: int)
      modifies this
      ensures View() == AsSucceeded(old(View()), paymentId, now)
      ensures status == Succeeded && providerPaymentId == paymentId && errorMessage == None && completedAt == Some(now)
    {
      status, providerPaymentId, errorMessage, completedAt := Succeeded, paymentId, None, Some(now);
    }

    method Fail(message: string, now: int)
      modifies this
      ensures View() == AsFailed(old(View()), message, now)
      ensures status == Failed && errorMessage == Some(message) && completedAt == Some(now) && unchanged(`providerPaymentId)
    {
      status, errorMessage, completedAt := Failed, Some(message), Some(now);
    }
  }

  class InvoiceEntity {
    const id: Uuid
    const customerId: Uuid
    const currency: string
    var status: InvoiceStatus
    var issuedAt: Option<int>
    var paidAt: Option<int>
    var lines: seq<Line>
    var paymentAttempts: seq<PaymentAttempt>

    function View(): Invoice
      reads this
    {
      Invoice(customerId, currency, status, issuedAt, paidAt, lines)
    }

    constructor New(id: Uuid, customerId: Uuid, currency: string)
      ensures this.id == id && View() == NewInvoice(customerId, currency) && paymentAttempts == []
      ensures status == Draft && lines == [] && issuedAt == None && paidAt == None && this.customerId == customerId
      ensures |this.currency| == |currency| && forall k | 0 <= k < |currency| ::
                this.currency[k] == if 'a' <= currency[k] <= 'z' then (currency[k] as int - 32) as char else currency[k]
    {
      this.id, this.customerId, this.currency := id, customerId, Upper(currency);
      status, issuedAt, paidAt, lines, paymentAttempts := Draft, None, None, [], [];
    }

    constructor Load(id: Uuid, i: Invoice, attempts: seq<PaymentAttempt>)
      ensures this.id == id && View() == i && paymentAttempts == attempts
    {
      this.id, customerId, currency := id, i.customerId, i.currency;
      status, issuedAt, paidAt, lines, paymentAttempts := i.status, i.issuedAt, i.paidAt, i.lines, attempts;
    }

    /** A raised exception is returned; the object is then unchanged. */
    method AddLine(l: Line) returns (e: Option<ModelError>)
      modifies this
      ensures match WithLine(old(View()), l)
              case Ok(i) => e == None && View() == i
              case Err(x) => e == Some(x) && View() == old(View())
      ensures old(status) != Draft ==> e == Some(InvoiceNotDraft) && unchanged(this)
      ensures old(status) == Draft && !ValidLine(l) ==> e == Some(InvalidLine) && unchanged(this)
      ensures old(status) == Draft && ValidLine(l) ==> e == None && lines == old(lines) + [l]
      ensures unchanged(`status, `issuedAt, `paidAt, `paymentAttempts)
    {
      if status != Draft {
        return Some(InvoiceNotDraft);
      }
      if l.quantity <= 0 || l.unitPrice < 0 || l.taxRate < 0 || l.taxRate > RATE_ONE {
        return Some(InvalidLine);
      }
      lines := lines + [l];
      e := None;
    }

    method Issue(now: int) returns (e: Option<ModelError>)
      modifies this
      ensures match AsIssued(old(View()), now)
              case Ok(i) => e == None && View() == i
              case Err(x) => e == Some(x) && View() == old(View())
      ensures old(status) != Draft ==> e == Some(InvoiceNotDraft) && unchanged(this)
      ensures old(status) == Draft && lines == [] ==> e == Some(EmptyInvoice) && unchanged(this)
      ensures old(status) == Draft && lines != [] ==> e == None && status == Issued && issuedAt == Some(now)
      ensures unchanged(`lines, `paidAt, `paymentAttempts)
    {
      if status != Draft {
        return Some(InvoiceNotDraft);
      }
      if lines == [] {
        return Some(EmptyInvoice);
      }
      status, issuedAt := Issued, Some(now);
      e := None;
    }

    method StartPaymentAttempt(key: string) returns (r: Result<PaymentAttempt, ModelError>)
      modifies this`paymentAttempts
      ensures match NewAttempt(id, View(), key)
              case Ok(a) =>
                && r.Ok? && fresh(r.value) && r.value.View() == a
                && paymentAttempts == old(paymentAttempts) + [r.value]
              case Err(x) => r == Err(x) && paymentAttempts == old(paymentAttempts)
      ensures status == Paid ==> r == Err(AlreadyPaid)
      ensures status == Draft ==> r == Err(PaymentNotAllowed)
      ensures status == Issued ==>
                && r.Ok?
                && var a := r.value;
                   && a.invoiceId == id && a.key == key && a.amount == Total(lines) && a.currency == currency
                   && a.status == Pending && a.providerPaymentId == None && a.errorMessage == None && a.completedAt == None
    {
      if status == Paid {
        return Err(AlreadyPaid);
      }
      if status != Issued {
        return Err(PaymentNotAllowed);
      }
      var a := new PaymentAttempt.Load(Attempt(id, key, Pending, Total(lines), currency, None, None, None));
      paymentAttempts := paymentAttempts + [a];
      r := Ok(a);
    }

    method MarkPaid(now: int) returns (e: Option<ModelError>)
      modifies this
      ensures match AsPaid(old(View()), old(status), now)
              case Ok(i) => e == None && View() == i
              case Err(x) => e == Some(x) && View() == old(View())
      ensures old(status) == Paid ==> e == Some(AlreadyPaid) && unchanged(this)
      ensures old(status) != Paid ==> e == None && status == Paid && paidAt == Some(now)
      ensures unchanged(`lines, `issuedAt, `paymentAttempts)
    {
      if status == Paid {
        return Some(AlreadyPaid);
      }
      status, paidAt := Paid, Some(now);
      e := None;
    }
  }
}

/** `control/app/services.py`: each request as a method, with anything happening while it waits. */
module ControlRequests {
  import opened Prelude
  import opened Codec
  import opened HalfUp
  import opened InvoiceModel
  import opened ControlService
  import opened ControlSystem

  function RequestNo(a: Action): Option<ReqId> {
    match a
    case Create(_, _) => None
    case LoadLine(r, _, _) => Some(r)
    case CommitLine(r) => Some(r)
    case LoadIssue(r, _) => Some(r)
    case CommitIssue(r, _, _) => Some(r)
    case Load(r, _, _) => Some(r)
    case Insert(r) => Some(r)
    case Store(r, _, _) => Some(r)
    case Crash(r) => Some(r)
  }

  /** `run` continues `start` and has reached `s`. */
  ghost predicate At(start: Run, run: Run, s: State) {
    Reached(start) && Reached(run) && Extends(run, start) && Final(run) == s
  }

  lemma Advance(start: Run, run: Run, s: State, a: Action)
    requires At(start, run, s) && Enabled(s, a)
    ensures At(start, Then(run, a), Do(s, a))
  {
    hide Do, Enabled;
  }

  lemma AtInv(start: Run, run: Run, s: State)
    requires At(start, run, s)
    ensures Inv(s)
  {
    InvHolds(run);
  }

  /** A request's position and the attempt it works on are the same in both states. */
  predicate SameForRequest(req: ReqId, s: State, t: State) {
    && req in s.requests && req in t.requests && s.requests[req] == t.requests[req]
    && |s.db.attempts| <= |t.db.attempts| && s.db.invoices.Keys <= t.db.invoices.Keys
    && (s.requests[req].Processing? ==>
          && s.requests[req].id < |s.db.attempts|
          && s.db.attempts[s.requests[req].id] == t.db.attempts[s.requests[req].id])
  }

  lemma SameTrans(req: ReqId, s: State, t: State, u: State)
    requires SameForRequest(req, s, t) && SameForRequest(req, t, u)
    ensures SameForRequest(req, s, u)
  {
  }

  lemma SameKeeps(req: ReqId, s: State, t: State)
    requires SameForRequest(req, s, t)
    ensures req in s.requests && req in t.requests && t.requests[req] == s.requests[req]
    ensures |s.db.attempts| <= |t.db.attempts| && s.db.invoices.Keys <= t.db.invoices.Keys
    ensures s.requests[req].Processing? ==>
              s.requests[req].id < |s.db.attempts| && t.db.attempts[s.requests[req].id] == s.db.attempts[s.requests[req].id]
  {
  }

  lemma SameNow(req: ReqId, s: State)
    requires req in s.requests && (s.requests[req].Processing? ==> s.requests[req].id < |s.db.attempts|)
    ensures SameForRequest(req, s, s)
  {
  }

  /** What a step leaves alone, whoever takes it. */
  lemma OthersLeft(s: State, a: Action)
    requires Enabled(s, a)
    ensures var t := Do(s, a);
            && |s.db.attempts| <= |t.db.attempts| && s.db.invoices.Keys <= t.db.invoices.Keys
            && (forall k | 0 <= k < |s.db.attempts| && !(a.Store? && s.requests[a.req].id == k) ::
                  t.db.attempts[k] == s.db.attempts[k])
  {
    hide CalculateTotals, FindAttempt, Begin, LineRefused, IssueRefused;
  }

  lemma RequestsLeft(req: ReqId, s: State, a: Action)
    requires Enabled(s, a) && RequestNo(a) != Some(req) && req in s.requests
    ensures req in Do(s, a).requests && Do(s, a).requests[req] == s.requests[req]
  {
    hide CalculateTotals, FindAttempt, Begin, LineRefused, IssueRefused, Finish, Created, LineStored, IssueStored;
  }

  /** Nobody else touches the attempt a request is working on. */
  lemma OthersKeepOwnAttempt(req: ReqId, s: State, a: Action)
    requires Inv(s) && Enabled(s, a) && RequestNo(a) != Some(req) && req in s.requests
    ensures SameForRequest(req, s, Do(s, a))
  {
    assert RequestFits(s, s.requests[req]);
    assert a.Store? ==> a.req in s.requests && s.requests[a.req].Processing?;
    hide Do, Enabled, TablesFit, AllCountsFit, TotalOf, Within, Opened;
    OthersLeft(s, a);
    RequestsLeft(req, s, a);
  }

  /** A request with a committed attempt can store its outcome. */
  lemma StoreEnabled(s: State, req: ReqId, answer: Answer, now: int)
    requires Inv(s) && req in s.requests && s.requests[req].Processing?
    ensures Enabled(s, Store(req, answer, now))
  {
    assert RequestFits(s, s.requests[req]);
    assert Opened(s.db, s.db.attempts[s.requests[req].id].invoiceId);
    hide TotalOf, AllCountsFit;
  }

  /** What a payment request meets first, told by the tables. */
  predicate Begins(db: Db, id: Uuid, key: string, b: Begun) {
    if id !in db.invoices then b == Refused(InvoiceNotFound)
    else if exists k | 0 <= k < |db.attempts| :: db.attempts[k].invoiceId == id && db.attempts[k].key == key then
      && b.Replayed? && b.attempt < |db.attempts|
      && db.attempts[b.attempt].invoiceId == id && db.attempts[b.attempt].key == key
    else match db.invoices[id].status
      case Paid => b == Refused(InvoiceAlreadyPaid)
      case Draft => b == Refused(InvoiceNotIssued)
      case Issued =>
        b == Ready(ControlAttempt(id, key, Pending, CalculateTotals(db.invoices[id].lines).total, None, None, None))
  }

  lemma BeginTells(db: Db, id: Uuid, key: string)
    ensures Begins(db, id, key, Begin(db, id, key))
  {
    hide CalculateTotals;
    var k := FindAttempt(db.attempts, id, key);
    assert k.None? ==> !exists j | 0 <= j < |db.attempts| :: db.attempts[j].invoiceId == id && db.attempts[j].key == key;
  }

  /** What the answer leaves in the attempt, field by field. */
  predicate AnswerStored(x: ControlAttempt, y: ControlAttempt, answer: Answer) {
    && y.invoiceId == x.invoiceId && y.key == x.key && y.amount == x.amount
    && match answer
       case Unavailable(m) =>
         && y.status == Failed && y.errorCode == Some("payment_provider_error") && y.errorMessage == Some(m)
         && y.paymentId == x.paymentId
       case Broke => y == x
       case Gave(status, paymentId, code, message) =>
         y.status == status && y.paymentId == paymentId && y.errorCode == code && y.errorMessage == message
  }

  lemma AnswersStore(x: ControlAttempt, answer: Answer)
    ensures AnswerStored(x, Answered(x, answer), answer)
  {
  }

  lemma LineRefusals(db: Db, id: Uuid, l: FracLine)
    ensures !ValidFracLine(l) ==> LineRefused(db, id, l) == Some(AppError.InvalidLine)
    ensures ValidFracLine(l) && id !in db.invoices ==> LineRefused(db, id, l) == Some(InvoiceNotFound)
    ensures ValidFracLine(l) && id in db.invoices ==>
              LineRefused(db, id, l) == if db.invoices[id].status == Draft then None else Some(AppError.InvoiceNotDraft)
  {
  }

  lemma IssueRefusals(db: Db, id: Uuid)
    ensures id !in db.invoices ==> IssueRefused(db, id) == Some(InvoiceNotFound)
    ensures id in db.invoices && db.invoices[id].status != Draft ==> IssueRefused(db, id) == Some(AppError.InvoiceNotDraft)
    ensures id in db.invoices && db.invoices[id].status == Draft ==>
              IssueRefused(db, id) == if db.invoices[id].lines == [] then Some(AppError.EmptyInvoice) else None
  {
  }

  class InvoiceCollectionService {
    var state: State

    constructor (s: State)
      ensures state == s
    {
      state := s;
    }

    method CreateInvoice(id: Uuid, customer: Uuid) returns (e: Option<AppError>)
      modifies this
      ensures state == Do(old(state), Create(id, customer))
      ensures match Created(old(state).db, id, customer)
              case Ok(d) => e == None && state.db == d
              case Err(x) => e == Some(x) && state == old(state)
      ensures customer !in old(state).db.customers ==> e == Some(CustomerNotFound) && state == old(state)
      ensures customer in old(state).db.customers && id !in old(state).db.invoices ==>
                && e == None && state.requests == old(state).requests
                && state.db == old(state).db.(invoices :=
                     old(state).db.invoices[id := ControlInvoice(customer, Draft, None, None, [])])
    {
      var db := state.db;
      if customer !in db.customers {
        return Some(CustomerNotFound);
      }
      if id in db.invoices {
        return Some(Unexpected);
      }
      state := state.(db := db.(invoices := db.invoices[id := ControlInvoice(customer, Draft, None, None, [])]));
      e := None;
    }

    /** Whatever the rest of the system does in between; impossible actions are skipped. */
    method Interfere(req: ReqId, others: seq<Action>, ghost start: Run, ghost run: Run) returns (ghost after: Run)
      requires At(start, run, state) && req in state.requests
      modifies this
      ensures At(start, after, state) && SameForRequest(req, old(state), state)
    {
      after := run;
      hide *;
      AtInv(start, run, state);
      OwnInRange(state, req);
      SameNow(req, state);
      for i := 0 to |others|
        invariant At(start, after, state) && SameForRequest(req, old(state), state)
      {
        var a := others[i];
        if Enabled(state, a) && RequestNo(a) != Some(req) {
          AtInv(start, after, state);
          SameKeeps(req, old(state), state);
          OthersKeepOwnAttempt(req, state, a);
          SameTrans(req, old(state), state, Do(state, a));
          Advance(start, after, state, a);
          state := Do(state, a);
          after := Then(after, a);
        }
      }
    }

    /** `add_invoice_line` up to its commit. */
    method CheckLine(req: ReqId, id: Uuid, l: FracLine) returns (e: Option<AppError>)
      requires req !in state.requests
      modifies this
      ensures e == LineRefused(old(state).db, id, l) && state == Do(old(state), LoadLine(req, id, l))
      ensures state == if e.Some? then old(state) else old(state).(requests := old(state).requests[req := Adding(id, l)])
    {
      var db := state.db;
      if l.quantity <= 0 || l.unitPrice < 0 || l.taxRate < 0 || l.taxRate > RATE_ONE {
        return Some(AppError.InvalidLine);
      }
      if id !in db.invoices {
        return Some(InvoiceNotFound);
      }
      if db.invoices[id].status != Draft {
        return Some(AppError.InvoiceNotDraft);
      }
      state := state.(requests := state.requests[req := Adding(id, l)]);
      e := None;
    }

    /** Its commit. */
    method CommitTheLine(req: ReqId, id: Uuid, l: FracLine)
      requires req in state.requests && state.requests[req] == Adding(id, l) && id in state.db.invoices
      modifies this
      ensures state == Do(old(state), CommitLine(req)) && req !in state.requests
      ensures id in state.db.invoices && state.db.invoices[id].lines == old(state).db.invoices[id].lines + [l]
      ensures state.db.invoices[id].status == old(state).db.invoices[id].status
    {
      var db := state.db;
      var invoice := db.invoices[id];
      invoice := invoice.(lines := invoice.lines + [l]);
      state := State(db.(invoices := db.invoices[id := invoice]), state.requests - {req});
    }

    /** `issue_invoice` up to the email. */
    method CheckIssue(req: ReqId, id: Uuid) returns (e: Option<AppError>)
      requires req !in state.requests
      modifies this
      ensures e == IssueRefused(old(state).db, id) && state == Do(old(state), LoadIssue(req, id))
      ensures e.Some? ==> state == old(state)
      ensures e.None? ==>
                && id in old(state).db.invoices
                && state == old(state).(requests := old(state).requests[req := Issuing(id, TotalOf(old(state).db, id))])
    {
      var db := state.db;
      if id !in db.invoices {
        return Some(InvoiceNotFound);
      }
      var invoice := db.invoices[id];
      if invoice.status != Draft {
        return Some(AppError.InvoiceNotDraft);
      }
      if invoice.lines == [] {
        return Some(AppError.EmptyInvoice);
      }
      var totals := CalculateTotals(invoice.lines);
      state := state.(requests := state.requests[req := Issuing(id, totals.total)]);
      e := None;
    }

    /** From the email provider's answer to the commit. */
    method CommitTheIssue(req: ReqId, id: Uuid, total: int, failure: Option<string>, now: int) returns (e: Option<AppError>)
      requires req in state.requests && state.requests[req] == Issuing(id, total) && id in state.db.invoices
      modifies this
      ensures state == Do(old(state), CommitIssue(req, failure, now)) && req !in state.requests
      ensures failure.Some? ==> e == Some(EmailProviderError(failure.value)) && state.db == old(state).db
      ensures failure.None? ==>
                && e == None && id in state.db.invoices
                && state.db.invoices[id] == old(state).db.invoices[id].(status := Issued, issuedAt := Some(now))
                && state.db.events == old(state).db.events + [InvoiceIssued(id, old(state).db.invoices[id].customerId, total)]
    {
      var db, open := state.db, state.requests - {req};
      if failure.Some? {
        state := state.(requests := open);
        return Some(EmailProviderError(failure.value));
      }
      var invoice := db.invoices[id];
      invoice := invoice.(status := Issued, issuedAt := Some(now));
      state := State(db.(invoices := db.invoices[id := invoice],
                         events := db.events + [InvoiceIssued(id, invoice.customerId, total)]), open);
      e := None;
    }

    /**
     * A whole `add_invoice_line`: refused with nothing changed, or the line becomes the
     * last of the invoice, whatever has become of the invoice since it was loaded.
     */
    method AddInvoiceLine(req: ReqId, id: Uuid, l: FracLine, others: seq<Action>, ghost start: Run)
      returns (e: Option<AppError>, ghost run: Run)
      requires Reached(start) && Final(start) == state && req !in state.requests
      modifies this
      ensures At(start, run, state) && req !in state.requests && e == LineRefused(old(state).db, id, l)
      ensures !ValidFracLine(l) ==> e == Some(AppError.InvalidLine)
      ensures ValidFracLine(l) && id !in old(state).db.invoices ==> e == Some(InvoiceNotFound)
      ensures ValidFracLine(l) && id in old(state).db.invoices ==>
                e == if old(state).db.invoices[id].status == Draft then None else Some(AppError.InvoiceNotDraft)
      ensures e.Some? ==> state == old(state)
      ensures e.None? ==>
                && run.Then? && run.a == CommitLine(req)
                && id in state.db.invoices && state.db.invoices[id].lines != []
                && state.db.invoices[id].lines[|state.db.invoices[id].lines| - 1] == l
    {
      run := start;
      LineRefusals(state.db, id, l);
      hide *;
      StartAt(start);
      LoadLineEnabled(state, req, id, l);
      e := CheckLine(req, id, l);
      Advance(start, run, old(state), LoadLine(req, id, l));
      run := Then(run, LoadLine(req, id, l));
      if e.Some? {
        return;
      }
      LineLoaded(old(state).db, id, l);
      label loaded:
      run := Interfere(req, others, start, run);
      SameKeeps(req, old@loaded(state), state);
      CommitLineEnabled(state, req);
      label commit:
      CommitTheLine(req, id, l);
      Advance(start, run, old@commit(state), CommitLine(req));
      run := Then(run, CommitLine(req));
    }

    /**
     * A whole `issue_invoice`: refused with nothing changed, failed with the email, or
     * the invoice is ISSUED, whatever it was by then, and the total that was loaded is announced.
     */
    method IssueInvoice(req: ReqId, id: Uuid, failure: Option<string>, now: int, others: seq<Action>, ghost start: Run)
      returns (e: Option<AppError>, ghost run: Run)
      requires Reached(start) && Final(start) == state && req !in state.requests
      modifies this
      ensures At(start, run, state) && req !in state.requests
      ensures IssueRefused(old(state).db, id).Some? ==> e == IssueRefused(old(state).db, id) && state == old(state)
      ensures id !in old(state).db.invoices ==> e == Some(InvoiceNotFound) && state == old(state)
      ensures id in old(state).db.invoices ==>
                var was := old(state).db.invoices[id];
                && (was.status != Draft ==> e == Some(AppError.InvoiceNotDraft) && state == old(state))
                && (was.status == Draft && was.lines == [] ==> e == Some(AppError.EmptyInvoice) && state == old(state))
                && (was.status == Draft && was.lines != [] ==>
                      && e == (if failure.Some? then Some(EmailProviderError(failure.value)) else None)
                      && IssueRefused(old(state).db, id).None?)
      ensures IssueRefused(old(state).db, id).None? ==>
                && run.Then? && run.a == CommitIssue(req, failure, now)
                && id in old(state).db.invoices && id in state.db.invoices
                && if failure.Some? then e == Some(EmailProviderError(failure.value))
                   else
                     && e == None && state.db.invoices[id].status == Issued && state.db.invoices[id].issuedAt == Some(now)
                     && state.db.events != []
                     && var announced := state.db.events[|state.db.events| - 1];
                        announced.InvoiceIssued? && announced.invoiceId == id && announced.total == TotalOf(old(state).db, id)
    {
      run := start;
      IssueRefusals(state.db, id);
      hide *;
      StartAt(start);
      LoadIssueEnabled(state, req, id);
      e := CheckIssue(req, id);
      Advance(start, run, old(state), LoadIssue(req, id));
      run := Then(run, LoadIssue(req, id));
      if e.Some? {
        return;
      }
      var total := state.requests[req].total;
      label loaded:
      run := Interfere(req, others, start, run);
      SameKeeps(req, old@loaded(state), state);
      CommitIssueEnabled(state, req, failure, now);
      label commit:
      e := CommitTheIssue(req, id, total, failure, now);
      Advance(start, run, old@commit(state), CommitIssue(req, failure, now));
      run := Then(run, CommitIssue(req, failure, now));
    }

    /** Everything before the first commit. */
    method LoadAndCheck(req: ReqId, id: Uuid, key: string) returns (b: Begun)
      requires req !in state.requests
      modifies this
      ensures b == Begin(old(state).db, id, key) && state == Do(old(state), Load(req, id, key))
      ensures Begins(old(state).db, id, key, b)
      ensures !b.Ready? ==> state == old(state)
      ensures b.Ready? ==> state == old(state).(requests := old(state).requests[req := Loaded(b.built)])
    {
      BeginTells(state.db, id, key);
      var db := state.db;
      if id !in db.invoices {
        return Refused(InvoiceNotFound);
      }
      var existing := FindAttempt(db.attempts, id, key);
      if existing.Some? {
        return Replayed(existing.value);
      }
      if db.invoices[id].status == Paid {
        return Refused(InvoiceAlreadyPaid);
      }
      if db.invoices[id].status != Issued {
        return Refused(InvoiceNotIssued);
      }
      var totals := CalculateTotals(db.invoices[id].lines);
      b := Ready(ControlAttempt(id, key, Pending, totals.total, None, None, None));
      state := state.(requests := state.requests[req := Loaded(b.built)]);
    }

    /** The first commit; on an IntegrityError the stored attempt is looked up instead. */
    method CommitAttempt(req: ReqId) returns (a: nat, clash: bool)
      requires req in state.requests && state.requests[req].Loaded?
      modifies this
      ensures state == Do(old(state), Insert(req))
      ensures var x := old(state).requests[req].attempt;
              && clash == FindAttempt(old(state).db.attempts, x.invoiceId, x.key).Some?
              && (clash ==>
                    && Some(a) == FindAttempt(old(state).db.attempts, x.invoiceId, x.key)
                    && req !in state.requests && state.db == old(state).db)
              && (!clash ==>
                    && a == |old(state).db.attempts| && req in state.requests && state.requests[req] == Processing(a)
                    && state.db.attempts == old(state).db.attempts + [x])
    {
      var x := state.requests[req].attempt;
      var found := FindAttempt(state.db.attempts, x.invoiceId, x.key);
      if found.Some? {
        state := state.(requests := state.requests - {req});
        return found.value, true;
      }
      a, clash := |state.db.attempts|, false;
      state := State(state.db.(attempts := state.db.attempts + [x]), state.requests[req := Processing(a)]);
    }

    /** From the provider's answer to the final commit. */
    method StoreOutcome(req: ReqId, a: nat, answer: Answer, now: int) returns (r: Result<nat, AppError>)
      requires Enabled(state, Store(req, answer, now)) && state.requests[req].id == a
      modifies this
      ensures state == Do(old(state), Store(req, answer, now)) && req !in state.requests
      ensures state.db.attempts == old(state).db.attempts[a := Answered(old(state).db.attempts[a], answer)]
      ensures r == match answer
                   case Unavailable(m) => Err(PaymentProviderError(m))
                   case Broke => Err(Unexpected)
                   case Gave(_, _, _, _) => Ok(a)
      ensures AnswerStored(old(state).db.attempts[a], state.db.attempts[a], answer)
      ensures !(answer.Gave? && answer.status == Succeeded) ==>
                state.db.invoices == old(state).db.invoices && state.db.events == old(state).db.events
      ensures answer.Gave? && answer.status == Succeeded ==>
                var was := old(state).db; var x := was.attempts[a];
                && state.db.invoices == was.invoices[x.invoiceId :=
                     was.invoices[x.invoiceId].(status := Paid, paidAt := Some(now))]
                && state.db.events == was.events + [InvoicePaid(x.invoiceId, a, x.amount)]
    {
      var db, open := state.db, state.requests - {req};
      var attempt := db.attempts[a];
      if answer.Broke? {
        state := State(db, open);
        assert db.attempts[a := attempt] == db.attempts;
        return Err(Unexpected);
      }
      if answer.Unavailable? {
        attempt := attempt.(status := Failed, errorCode := Some("payment_provider_error"),
                            errorMessage := Some(answer.message));
        state := State(db.(attempts := db.attempts[a := attempt]), open);
        return Err(PaymentProviderError(answer.message));
      }
      attempt := attempt.(status := answer.status, paymentId := answer.paymentId,
                          errorCode := answer.errorCode, errorMessage := answer.errorMessage);
      db := db.(attempts := db.attempts[a := attempt]);
      if answer.status == Succeeded {
        var invoice := db.invoices[attempt.invoiceId];
        db := db.(invoices := db.invoices[attempt.invoiceId := invoice.(status := Paid, paidAt := Some(now))],
                  events := db.events + [InvoicePaid(attempt.invoiceId, a, attempt.amount)]);
      }
      state := State(db, open);
      r := Ok(a);
    }

    /**
     * A whole `collect_payment` request, overlapping with anything else.  A known key
     * and a key that another request commits first are answered with the stored
     * attempt; otherwise one attempt, `created`, is added and ends as the answer says.
     */
    method CollectPayment(req: ReqId, id: Uuid, key: string, answer: Answer, now: int,
                          others: nat -> seq<Action>, ghost start: Run)
      returns (r: Result<nat, AppError>, ghost created: Option<nat>, ghost run: Run)
      requires Reached(start) && Final(start) == state && req !in state.requests
      modifies this
      ensures At(start, run, state) && req !in state.requests
      ensures Begins(old(state).db, id, key, Begin(old(state).db, id, key))
      ensures match Begin(old(state).db, id, key)
              case Refused(e) => r == Err(e) && state == old(state) && created == None
              case Replayed(k) => r == Ok(k) && state == old(state) && created == None
              case Ready(x) =>
                match created
                case None =>
                  && r.Ok? && |old(state).db.attempts| <= |state.db.attempts|
                  && Some(r.value) == FindAttempt(state.db.attempts, id, key)
                case Some(a) =>
                  && |old(state).db.attempts| <= a < |state.db.attempts| && state.db.attempts[a] == Answered(x, answer)
                  && AnswerStored(x, state.db.attempts[a], answer)
                  && r == match answer
                          case Unavailable(m) => Err(PaymentProviderError(m))
                          case Broke => Err(Unexpected)
                          case Gave(_, _, _, _) => Ok(a)
    {
      created, run := None, start;
      hide *;
      StartAt(start);
      LoadEnabled(state, req, id, key);
      var b := LoadAndCheck(req, id, key);
      Advance(start, run, old(state), Load(req, id, key));
      run := Then(run, Load(req, id, key));
      if b.Refused? {
        r := Err(b.e);
        return;
      }
      if b.Replayed? {
        r := Ok(b.attempt);
        return;
      }
      ReadyPair(old(state).db, id, key);
      AnswersStore(b.built, answer);
      label loaded:
      run := Interfere(req, others(0), start, run);
      SameKeeps(req, old@loaded(state), state);
      InsertEnabled(state, req);
      label commit:
      var a, clash := CommitAttempt(req);
      Advance(start, run, old@commit(state), Insert(req));
      run := Then(run, Insert(req));
      if clash {
        r := Ok(a);
        return;
      }
      created := Some(a);
      label call:
      run := Interfere(req, others(1), start, run);
      SameKeeps(req, old@call(state), state);
      AtInv(start, run, state);
      StoreEnabled(state, req, answer, now);
      label store:
      r := StoreOutcome(req, a, answer, now);
      Advance(start, run, old@store(state), Store(req, answer, now));
      run := Then(run, Store(req, answer, now));
    }
  }

  lemma OwnInRange(s: State, req: ReqId)
    requires Inv(s) && req in s.requests
    ensures s.requests[req].Processing? ==> s.requests[req].id < |s.db.attempts|
  {
    assert RequestFits(s, s.requests[req]);
  }

  lemma StartAt(start: Run)
    requires Reached(start)
    ensures At(start, start, Final(start))
  {
  }

  lemma LoadLineEnabled(s: State, req: ReqId, id: Uuid, l: FracLine)
    requires req !in s.requests
    ensures Enabled(s, LoadLine(req, id, l))
  {
  }

  lemma LineLoaded(db: Db, id: Uuid, l: FracLine)
    requires LineRefused(db, id, l).None?
    ensures id in db.invoices
  {
  }

  lemma CommitLineEnabled(s: State, req: ReqId)
    requires req in s.requests && s.requests[req].Adding? && s.requests[req].invoice in s.db.invoices
    ensures Enabled(s, CommitLine(req))
  {
  }

  lemma LoadIssueEnabled(s: State, req: ReqId, id: Uuid)
    requires req !in s.requests
    ensures Enabled(s, LoadIssue(req, id))
  {
  }

  lemma CommitIssueEnabled(s: State, req: ReqId, failure: Option<string>, now: int)
    requires req in s.requests && s.requests[req].Issuing? && s.requests[req].invoice in s.db.invoices
    ensures Enabled(s, CommitIssue(req, failure, now))
  {
  }

  lemma LoadEnabled(s: State, req: ReqId, id: Uuid, key: string)
    requires req !in s.requests
    ensures Enabled(s, Load(req, id, key))
  {
  }

  lemma InsertEnabled(s: State, req: ReqId)
    requires req in s.requests && s.requests[req].Loaded?
    ensures Enabled(s, Insert(req))
  {
  }

  lemma ReadyPair(db: Db, id: Uuid, key: string)
    requires Begin(db, id, key).Ready?
    ensures Begin(db, id, key).built.invoiceId == id && Begin(db, id, key).built.key == key
  {
  }
}

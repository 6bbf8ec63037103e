/** `services/billing.py` of the test run: the transaction blocks as methods, and one whole `collect_payment`. */
module BillingService {
  import opened Prelude
  import opened Codec
  import opened Events
  import opened HalfUp
  import opened InvoiceModel
  import opened InvoiceOutbox
  import opened PaymentClient
  import opened Billing
  import opened BillingInvariant
  import opened BillingSteps
  import opened BillingSettling
  import opened BillingShapes
  import opened BillingTheorems

  datatype ServiceError = NotFound | Refused(e: ModelError) | DuplicateKey | Provider(o: Outcome)

  /** The request an action belongs to. */
  function RequestNo(a: Action): Option<ReqId> {
    match a
    case Lookup(r, _, _) => Some(r)
    case Insert(r) => Some(r)
    case SendOnce(r, _, _) => Some(r)
    case Settle(r, _) => Some(r)
    case CrashRequest(r) => Some(r)
    case _ => None
  }

  /** `run` continues `start` and has reached `s`. */
  ghost predicate At(start: Run, run: Run, s: State) {
    Reached(start) && Reached(run) && Extends(run, start) && Final(run) == s && Inv(s)
  }

  lemma AtInv(start: Run, run: Run, s: State)
    requires At(start, run, s)
    ensures Inv(s)
  {
  }

  lemma AtRun(start: Run, run: Run, s: State)
    requires At(start, run, s)
    ensures Reached(run) && IsRun(run) && Final(run) == s
  {
    hide Inv;
  }

  lemma Advance(start: Run, run: Run, s: State, a: Action)
    requires At(start, run, s) && Enabled(s, a)
    ensures At(start, Then(run, a), Do(s, a))
  {
    hide Inv, Grows;
    StepKeeps(s, a);
  }

  /** The attempt a request is working on. */
  function OwnAttempt(s: State, req: ReqId): Option<nat> {
    if req in s.requests && !s.requests[req].Starting? then Some(s.requests[req].id) else None
  }

  predicate StartingFor(s: State, req: ReqId, id: Uuid, key: string) {
    && req in s.requests && s.requests[req].Starting?
    && s.requests[req].attempt.invoiceId == id && s.requests[req].attempt.key == key
  }

  /** How the last block leaves the attempt; `paid`: the invoice is PAID already. */
  function StatusAfter(o: Outcome, paid: bool): AttemptStatus {
    if o.ProviderError? then Failed
    else if !o.Answered? || o.body.Malformed? then Pending
    else if o.body.Declined? then Failed
    else if paid then Pending
    else Succeeded
  }

  /** The invoice status the last block sees. */
  function Seen(s: State, id: nat, cached: bool): InvoiceStatus
    requires id < |s.attempts| && s.attempts[id].invoiceId in s.invoices
  {
    if cached then Issued else s.invoices[s.attempts[id].invoiceId].status
  }

  /** A request's position and its attempt are the same in both states. */
  predicate SameForRequest(req: ReqId, s: State, t: State) {
    && (req in s.requests <==> req in t.requests)
    && (req in s.requests ==> s.requests[req] == t.requests[req])
    && |s.attempts| <= |t.attempts|
    && (match OwnAttempt(s, req) case Some(id) => id < |s.attempts| && s.attempts[id] == t.attempts[id] case None => true)
    && s.invoices.Keys <= t.invoices.Keys && s.maxRetries == t.maxRetries
  }

  /** Which attempts and requests an action can change. */
  lemma Touches(s: State, a: Action)
    requires Enabled(s, a)
    ensures var t := Do(s, a);
            forall q | RequestNo(a) != Some(q) ::
              (q in s.requests <==> q in t.requests) && (q in s.requests ==> s.requests[q] == t.requests[q])
    ensures var t := Do(s, a);
            forall id | 0 <= id < |s.attempts| && !(a.Settle? && s.requests[a.req].id == id) ::
              id < |t.attempts| && s.attempts[id] == t.attempts[id]
  {
    StepMoves(s, a);
    hide Do, Classify, Stops;
  }

  lemma SameKeeps(req: ReqId, s: State, t: State)
    requires SameForRequest(req, s, t) && req in s.requests
    ensures req in t.requests && t.requests[req] == s.requests[req] && |s.attempts| <= |t.attempts|
    ensures s.maxRetries == t.maxRetries
    ensures var pc := s.requests[req]; !pc.Starting? ==> pc.id < |s.attempts| && t.attempts[pc.id] == s.attempts[pc.id]
  {
  }

  lemma StartAt(start: Run)
    requires Reached(start)
    ensures At(start, start, Final(start))
  {
    InvHolds(start);
    hide Inv;
  }

  lemma LookupEnabled(s: State, req: ReqId, id: Uuid, key: string)
    requires req !in s.requests
    ensures Enabled(s, Lookup(req, id, key))
  {
  }

  lemma InsertEnabled(s: State, req: ReqId)
    requires req in s.requests && s.requests[req].Starting?
    ensures Enabled(s, Insert(req))
  {
  }

  lemma SendEnabled(s: State, req: ReqId, x: Response, charged: bool)
    requires req in s.requests && s.requests[req].Calling? && s.requests[req].id < |s.attempts|
    requires Succeeds(Classify(x)) ==> charged
    ensures Enabled(s, SendOnce(req, x, charged))
  {
    hide Classify, Succeeds;
  }

  lemma SendState(s: State, req: ReqId, x: Response, charged: bool)
    requires req in s.requests && s.requests[req].Calling? && s.requests[req].id < |s.attempts|
    requires Enabled(s, SendOnce(req, x, charged))
    ensures var id, got := s.requests[req].id, s.requests[req].got;
            var r := RequestOf(s.attempts[id]);
            Do(s, SendOnce(req, x, charged)) == s.(
              sends := s.sends + [r],
              charges := Charged(s.charges, r, charged),
              requests := s.requests[req := if Stops(s.maxRetries, |got| + 1, x) then Returned(id, Classify(x))
                                            else Calling(id, got + [x])])
  {
    hide Classify, Stops;
  }

  /** What an open call knows, and what one that is over has been through. */
  predicate Knows(maxRetries: int, pc: Pc, h: seq<Response>) {
    && (pc.Calling? ==> h == pc.got && |h| < MaxSends(maxRetries))
    && (pc.Returned? ==> IsExchange(maxRetries, h) && pc.outcome == Classify(h[|h| - 1]))
  }

  lemma OwnHistory(start: Run, run: Run, s: State, req: ReqId)
    requires At(start, run, s) && req in s.requests && !s.requests[req].Starting?
    ensures IsRun(run) && Knows(s.maxRetries, s.requests[req], ResponsesOf(run, s.requests[req].id))
  {
    hide *;
    AtRun(start, run, s);
    OneExchange(run, s.requests[req].id);
    KnowsFits(s, req, ResponsesOf(run, s.requests[req].id));
  }

  lemma KnowsFits(s: State, req: ReqId, h: seq<Response>)
    requires req in s.requests && !s.requests[req].Starting? && HistoryFits(s, s.requests[req].id, h)
    ensures Knows(s.maxRetries, s.requests[req], h)
  {
    assert Tells(s.maxRetries, s.requests[req], h);
    hide IsExchange, Classify;
  }

  lemma CallingKnows(maxRetries: int, pc: Pc, h: seq<Response>)
    requires Knows(maxRetries, pc, h)
    ensures pc.Calling? ==> h == pc.got && |h| < MaxSends(maxRetries)
    ensures pc.Returned? ==> IsExchange(maxRetries, h) && |h| >= 1 && pc.outcome == Classify(h[|h| - 1])
  {
  }

  /** The responses are the first ones of `oracle`. */
  predicate Gives(oracle: nat -> Response, got: seq<Response>) {
    forall k | 0 <= k < |got| :: got[k] == oracle(k)
  }

  lemma GivesNone(oracle: nat -> Response)
    ensures Gives(oracle, [])
  {
  }

  lemma GivesMore(oracle: nat -> Response, got: seq<Response>)
    requires Gives(oracle, got)
    ensures Gives(oracle, got + [oracle(|got|)])
  {
  }

  /** The provider reports success only for a key it has charged. */
  ghost predicate Honest(oracle: nat -> Response, hits: nat -> bool) {
    forall k :: Succeeds(Classify(oracle(k))) ==> hits(k)
  }

  lemma HonestAt(oracle: nat -> Response, hits: nat -> bool, k: nat)
    requires Honest(oracle, hits)
    ensures Succeeds(Classify(oracle(k))) ==> hits(k)
  {
  }

  /** The first n answers of the provider. */
  function Firsts(oracle: nat -> Response, n: nat): (f: seq<Response>)
    ensures |f| == n
  {
    seq(n, k requires 0 <= k => oracle(k))
  }

  lemma GivesFirsts(oracle: nat -> Response, h: seq<Response>)
    requires Gives(oracle, h)
    ensures h == Firsts(oracle, |h|)
  {
  }

  /**
   * A request of a new attempt `a`, answered last with `last`: the attempt `x` it
   * leaves, and its reply.  A success may come too late, when the invoice is paid.
   */
  predicate Replied(last: Response, r: Result<nat, ServiceError>, a: nat, x: Attempt, cached: bool) {
    match last
    case TransportFailure => SettledBy(x, last) && r == Err(Provider(ProviderError("payment provider request failed")))
    case RequestFailure => SettledBy(x, last) && r == Err(Provider(ProviderError("payment provider request failed")))
    case Http(status, body) =>
      if 200 <= status < 300 then
        match body
        case Success(_) =>
          || (SettledBy(x, last) && r == Ok(a))
          || (x.status == Pending && r == Err(Refused(AlreadyPaid)) && !cached)
        case Declined(_) => SettledBy(x, last) && r == Ok(a)
        case Malformed => x.status == Pending && r == Err(Provider(Answered(Malformed)))
      else if status == 429 then x.status == Pending && r == Err(Provider(RateLimited))
      else if 400 <= status < 500 then x.status == Pending && r == Err(Provider(Rejected))
      else SettledBy(x, last) && r == Err(Provider(ProviderError("payment provider returned an error")))
  }

  /** The provider was sent `sent` requests, one bounded exchange, and the last answer decided attempt and reply. */
  predicate AnsweredBy(s: State, a: nat, oracle: nat -> Response, sent: nat, r: Result<nat, ServiceError>, cached: bool) {
    && a < |s.attempts| && sent >= 1 && IsExchange(s.maxRetries, Firsts(oracle, sent))
    && Replied(oracle(sent - 1), r, a, s.attempts[a], cached)
  }

  lemma AnswersNow(s: State, a: nat, oracle: nat -> Response, sent: nat, r: Result<nat, ServiceError>, cached: bool)
    requires a < |s.attempts| && sent >= 1 && IsExchange(s.maxRetries, Firsts(oracle, sent))
    requires Replied(oracle(sent - 1), r, a, s.attempts[a], cached)
    ensures AnsweredBy(s, a, oracle, sent, r, cached)
  {
  }

  lemma ReplyTells(x: Attempt, last: Response, o: Outcome, paid: bool, y: Attempt, now: int, e: Option<ServiceError>, a: nat, cached: bool)
    requires o == Classify(last) && x.status == Pending && (cached ==> !paid)
    requires Settles(x, o, paid, y, now) && e == SettleError(o, paid)
    ensures Replied(last, if e.Some? then Err(e.value) else Ok(a), a, y, cached)
  {
  }

  /** How a last block leaves its attempt, field by field. */
  predicate Settles(x: Attempt, o: Outcome, paid: bool, y: Attempt, now: int) {
    if o.ProviderError? then y == x.(status := Failed, errorMessage := Some(o.message), completedAt := Some(now))
    else if o.Answered? && o.body.Declined? then
      y == x.(status := Failed, completedAt := Some(now),
              errorMessage := Some(if o.body.message.Some? && o.body.message.value != "" then o.body.message.value else "payment failed"))
    else if o.Answered? && o.body.Success? && !paid then
      y == x.(status := Succeeded, providerPaymentId := o.body.paymentId, errorMessage := None, completedAt := Some(now))
    else y == x
  }

  function SettleError(o: Outcome, paid: bool): Option<ServiceError> {
    if o.Answered? && !o.body.Malformed? then (if o.body.Success? && paid then Some(Refused(AlreadyPaid)) else None)
    else Some(Provider(o))
  }

  lemma SettlesStatus(x: Attempt, o: Outcome, paid: bool, y: Attempt, now: int)
    requires Settles(x, o, paid, y, now)
    ensures SamePair(x, y) && (x.status == Pending ==> y.status == StatusAfter(o, paid))
  {
  }

  lemma SendsMore(run: Run, s: State, req: ReqId, id: nat, x: Response, charged: bool)
    requires IsRun(run) && Final(run) == s && req in s.requests && s.requests[req].Calling? && s.requests[req].id == id
    requires id < |s.attempts| && IsRun(Then(run, Action.SendOnce(req, x, charged)))
    ensures ResponsesOf(Then(run, Action.SendOnce(req, x, charged)), id) == ResponsesOf(run, id) + [x]
  {
    hide Enabled, Do;
  }

  lemma SettleEnabled(s: State, req: ReqId, cached: bool)
    requires req in s.requests && s.requests[req].Returned? && s.requests[req].id < |s.attempts|
    requires s.attempts[s.requests[req].id].invoiceId in s.invoices
    ensures Enabled(s, Settle(req, Seen(s, s.requests[req].id, cached)))
    ensures cached ==> Seen(s, s.requests[req].id, cached) != Paid
  {
  }

  lemma SameTrans(req: ReqId, s: State, t: State, u: State)
    requires SameForRequest(req, s, t) && SameForRequest(req, t, u)
    ensures SameForRequest(req, s, u)
  {
  }

  lemma GrowSizes(s: State, t: State)
    requires Grows(s, t)
    ensures |s.attempts| <= |t.attempts| && s.invoices.Keys <= t.invoices.Keys && s.maxRetries == t.maxRetries
  {
  }

  lemma DistinctRequests(s: State, q: ReqId, r: ReqId)
    requires RequestsFit(s) && q in s.requests && r in s.requests && q != r
    ensures !s.requests[q].Starting? ==> s.requests[q].id < |s.attempts|
    ensures !s.requests[q].Starting? && !s.requests[r].Starting? ==> s.requests[q].id != s.requests[r].id
  {
    assert RequestFits(s, s.requests[q]);
  }

  lemma RequestInRange(s: State, q: ReqId)
    requires RequestsFit(s) && q in s.requests && !s.requests[q].Starting?
    ensures s.requests[q].id < |s.attempts|
  {
    assert RequestFits(s, s.requests[q]);
  }

  /** Nobody else touches the attempt a request is working on. */
  lemma OthersKeepOwnAttempt(req: ReqId, s: State, a: Action)
    requires Inv(s) && Enabled(s, a) && RequestNo(a) != Some(req)
    ensures SameForRequest(req, s, Do(s, a))
  {
    hide Inv, Grows, Do, Enabled, RequestsFit;
    StepKeeps(s, a);
    GrowSizes(s, Do(s, a));
    Parts(s);
    Touches(s, a);
    if req in s.requests && !s.requests[req].Starting? {
      RequestInRange(s, req);
      if a.Settle? {
        SettlesReturned(s, a);
        DistinctRequests(s, req, a.req);
      }
    }
  }

  lemma SettlesReturned(s: State, a: Action)
    requires Enabled(s, a) && a.Settle?
    ensures a.req in s.requests && s.requests[a.req].Returned?
  {
  }

  /** The invoice is PAID now, and the last row is the unprocessed InvoicePaid row that says so. */
  predicate PaymentStored(s: State, t: State, id: nat)
    requires id < |s.attempts|
  {
    var i := s.attempts[id].invoiceId;
    && i in s.invoices
    && t.invoices == s.invoices[i := s.invoices[i].(status := Paid, paidAt := Some(s.clock))]
    && |t.outbox| == |s.outbox| + 1 && t.outbox[..|s.outbox|] == s.outbox
    && var row, invoice := t.outbox[|s.outbox|], s.invoices[i];
       && row.createdAt == s.clock && row.processedAt == None && row.attempts == 0
       && EventOf(row) == Ok(InvoicePaid(i, invoice.customerId, s.clock, Total(invoice.lines), invoice.currency))
  }

  /** The invoice is ISSUED now, and the last row is the unprocessed InvoiceIssued row that says so. */
  predicate IssueStored(s: State, t: State, i: Uuid) {
    && i in s.invoices
    && t.invoices == s.invoices[i := s.invoices[i].(status := Issued, issuedAt := Some(s.clock))]
    && |t.outbox| == |s.outbox| + 1 && t.outbox[..|s.outbox|] == s.outbox
    && var row, invoice := t.outbox[|s.outbox|], s.invoices[i];
       && row.createdAt == s.clock && row.processedAt == None && row.attempts == 0
       && EventOf(row) == Ok(InvoiceIssued(i, invoice.customerId, s.clock, Total(invoice.lines), invoice.currency))
  }

  lemma PaidRow(s: State, t: State, id: nat, i: Invoice)
    requires id < |s.attempts| && s.attempts[id].invoiceId in s.invoices
    requires i == s.invoices[s.attempts[id].invoiceId].(status := Paid, paidAt := Some(s.clock))
    requires t.invoices == s.invoices[s.attempts[id].invoiceId := i]
    requires t.outbox == s.outbox + [FromEvent(PaidEvent(s.attempts[id].invoiceId, i), s.clock)]
    ensures PaymentStored(s, t, id)
  {
    PayloadRoundTrip(PaidEvent(s.attempts[id].invoiceId, i));
    hide FromEntry, ToPayload, Total;
  }

  lemma IssuedRow(s: State, t: State, id: Uuid, i: Invoice)
    requires id in s.invoices && i == s.invoices[id].(status := Issued, issuedAt := Some(s.clock))
    requires t.invoices == s.invoices[id := i]
    requires t.outbox == s.outbox + [FromEvent(IssuedEvent(id, i), s.clock)]
    ensures IssueStored(s, t, id)
  {
    PayloadRoundTrip(IssuedEvent(id, i));
    hide FromEntry, ToPayload, Total;
  }

  function AttemptsOf(attempts: seq<Attempt>, id: Uuid): seq<Attempt> {
    if attempts == [] then []
    else
      var n := |attempts| - 1;
      AttemptsOf(attempts[..n], id) + (if attempts[n].invoiceId == id then [attempts[n]] else [])
  }

  function Views(objects: seq<PaymentAttempt>): seq<Attempt>
    reads objects
  {
    seq(|objects|, k requires 0 <= k < |objects| reads objects => objects[k].View())
  }

  class BillingService {
    var db: State

    constructor (s: State)
      ensures db == s
    {
      db := s;
    }

    /** `InvoiceRepo.get`: the invoice with its lines and all its payment attempts. */
    method LoadInvoice(id: Uuid) returns (invoice: InvoiceEntity)
      requires id in db.invoices
      ensures fresh(invoice) && invoice.id == id && invoice.View() == db.invoices[id]
      ensures fresh(invoice.paymentAttempts) && Views(invoice.paymentAttempts) == AttemptsOf(db.attempts, id)
    {
      var loaded: seq<PaymentAttempt> := [];
      assert db.attempts[..0] == [];
      for k := 0 to |db.attempts|
        invariant fresh(loaded) && Views(loaded) == AttemptsOf(db.attempts[..k], id)
      {
        assert db.attempts[..k + 1][..k] == db.attempts[..k];
        if db.attempts[k].invoiceId == id {
          var a := new PaymentAttempt.Load(db.attempts[k]);
          ghost var before := Views(loaded);
          loaded := loaded + [a];
          assert Views(loaded) == before + [db.attempts[k]];
        }
      }
      assert db.attempts[..|db.attempts|] == db.attempts;
      invoice := new InvoiceEntity.Load(id, db.invoices[id], loaded);
    }

    method AddInvoiceLine(id: Uuid, l: Line) returns (e: Option<ServiceError>)
      modifies this
      ensures id !in old(db).invoices ==> e == Some(NotFound) && db == old(db)
      ensures id in old(db).invoices ==>
                && db == Do(old(db), AddLine(id, l))
                && e == match WithLine(old(db).invoices[id], l) case Ok(_) => None case Err(x) => Some(Refused(x))
      ensures id in old(db).invoices ==>
                var was := old(db).invoices[id];
                if was.status != Draft then e == Some(Refused(InvoiceNotDraft)) && db == old(db)
                else if !ValidLine(l) then e == Some(Refused(InvalidLine)) && db == old(db)
                else e == None && db == old(db).(invoices := old(db).invoices[id := was.(lines := was.lines + [l])])
    {
      if id !in db.invoices {
        return Some(NotFound);
      }
      var invoice := LoadInvoice(id);
      var raised := invoice.AddLine(l);
      if raised.Some? {
        return Some(Refused(raised.value));
      }
      db := db.(invoices := db.invoices[id := invoice.View()]);
      e := None;
    }

    method IssueInvoice(id: Uuid) returns (e: Option<ServiceError>)
      modifies this
      ensures id !in old(db).invoices ==> e == Some(NotFound) && db == old(db)
      ensures id in old(db).invoices ==>
                && db == Do(old(db), Issue(id))
                && e == match AsIssued(old(db).invoices[id], old(db).clock) case Ok(_) => None case Err(x) => Some(Refused(x))
      ensures id in old(db).invoices ==>
                var was := old(db).invoices[id];
                if was.status != Draft then e == Some(Refused(InvoiceNotDraft)) && db == old(db)
                else if was.lines == [] then e == Some(Refused(EmptyInvoice)) && db == old(db)
                else e == None && IssueStored(old(db), db, id)
    {
      hide FromEvent, EventOf, IssueStored, Total;
      if id !in db.invoices {
        return Some(NotFound);
      }
      var invoice := LoadInvoice(id);
      var raised := invoice.Issue(db.clock);
      if raised.Some? {
        return Some(Refused(raised.value));
      }
      var issued := invoice.View();
      db := db.(invoices := db.invoices[id := issued],
                outbox := db.outbox + [FromEvent(IssuedEvent(id, issued), db.clock)]);
      e := None;
      IssuedRow(old(db), db, id, issued);
    }

    /** Lookup by key, then the checks of `start_payment_attempt`. */
    method LookUp(req: ReqId, id: Uuid, key: string) returns (r: Result<Option<nat>, ServiceError>)
      requires req !in db.requests
      modifies this
      ensures db == Do(old(db), Lookup(req, id, key))
      ensures r == if id !in old(db).invoices then Err(NotFound)
                   else if FindAttempt(old(db).attempts, id, key).Some? then Ok(FindAttempt(old(db).attempts, id, key))
                   else match NewAttempt(id, old(db).invoices[id], key) case Ok(_) => Ok(None) case Err(x) => Err(Refused(x))
      ensures id in old(db).invoices && FindAttempt(old(db).attempts, id, key).None? ==>
                match old(db).invoices[id].status
                case Paid => r == Err(Refused(AlreadyPaid))
                case Draft => r == Err(Refused(PaymentNotAllowed))
                case Issued =>
                  && r == Ok(None)
                  && var a := db.requests[req].attempt;
                     && a.amount == Total(old(db).invoices[id].lines) && a.currency == old(db).invoices[id].currency
                     && a.status == Pending && a.providerPaymentId == None && a.errorMessage == None && a.completedAt == None
      ensures r == Ok(None) ==> StartingFor(db, req, id, key)
      ensures r != Ok(None) ==> db == old(db)
      ensures db.attempts == old(db).attempts
    {
      if id !in db.invoices {
        return Err(NotFound);
      }
      var existing := FindAttempt(db.attempts, id, key);
      if existing.Some? {
        return Ok(existing);
      }
      var invoice := LoadInvoice(id);
      var started := invoice.StartPaymentAttempt(key);
      if started.Err? {
        return Err(Refused(started.error));
      }
      db := db.(requests := db.requests[req := Starting(started.value.View())]);
      r := Ok(None);
    }

    /** `add_payment_attempt`: the flush either inserts the row or meets the unique constraint. */
    method Flush(req: ReqId) returns (r: Option<nat>)
      requires req in db.requests && db.requests[req].Starting?
      modifies this
      ensures db == Do(old(db), Insert(req))
      ensures var a := old(db).requests[req].attempt;
              match r
              case None =>
                && FindAttempt(old(db).attempts, a.invoiceId, a.key).Some?
                && req !in db.requests && db.attempts == old(db).attempts
              case Some(id) =>
                && id == |old(db).attempts| && req in db.requests && db.requests[req] == Calling(id, [])
                && db.attempts == old(db).attempts + [a]
    {
      var a := db.requests[req].attempt;
      if FindAttempt(db.attempts, a.invoiceId, a.key).Some? {
        db := db.(requests := db.requests - {req});
        r := None;
      } else {
        r := Some(|db.attempts|);
        db := db.(attempts := db.attempts + [a], requests := db.requests[req := Calling(|db.attempts|, [])]);
      }
    }

    /** One request of the call: exactly one step of the system.  `charged`: the key has been charged once it is over. */
    method SendOnce(req: ReqId, id: nat, x: Response, charged: bool, ghost start: Run, ghost run: Run)
      returns (over: bool, ghost after: Run)
      requires At(start, run, db) && req in db.requests && db.requests[req].Calling? && db.requests[req].id == id < |db.attempts|
      requires Succeeds(Classify(x)) ==> charged
      modifies this
      ensures after == Then(run, Action.SendOnce(req, x, charged)) && At(start, after, db)
      ensures over == Stops(old(db).maxRetries, |old(db).requests[req].got| + 1, x)
      ensures req in db.requests && db.attempts == old(db).attempts && db.maxRetries == old(db).maxRetries
      ensures db.requests[req] == if over then Returned(id, Classify(x)) else Calling(id, old(db).requests[req].got + [x])
      ensures IsRun(run) && IsRun(after) && ResponsesOf(after, id) == ResponsesOf(run, id) + [x]
    {
      hide *;
      AtRun(start, run, db);
      var got := db.requests[req].got;
      var request := RequestOf(db.attempts[id]);
      SendEnabled(db, req, x, charged);
      SendState(db, req, x, charged);
      Advance(start, run, db, Action.SendOnce(req, x, charged));
      after := Then(run, Action.SendOnce(req, x, charged));
      AtRun(start, after, Do(db, Action.SendOnce(req, x, charged)));
      SendsMore(run, db, req, id, x, charged);
      over := Stops(db.maxRetries, |got| + 1, x);
      db := db.(sends := db.sends + [request], charges := Charged(db.charges, request, charged),
                requests := db.requests[req := if over then Returned(id, Classify(x)) else Calling(id, got + [x])]);
    }

    /**
     * The external call: the retry loop, with anything happening before each of its
     * requests.  `oracle(k)` is what request k gives, `hits(k)` says that the key has
     * been charged once it is over.
     */
    method CallProvider(req: ReqId, id: nat, oracle: nat -> Response, hits: nat -> bool, others: nat -> seq<Action>,
                        ghost start: Run, ghost run: Run)
      returns (o: Outcome, sent: nat, ghost after: Run)
      requires At(start, run, db) && req in db.requests && db.requests[req] == Calling(id, []) && id < |db.attempts|
      requires Honest(oracle, hits)
      modifies this
      ensures At(start, after, db)
      ensures req in db.requests && db.requests[req] == Returned(id, o)
      ensures |old(db).attempts| <= |db.attempts| && db.attempts[id] == old(db).attempts[id]
      ensures IsRun(after) && |ResponsesOf(after, id)| == sent >= 1 && IsExchange(db.maxRetries, ResponsesOf(after, id))
      ensures o == Classify(oracle(sent - 1)) && Gives(oracle, ResponsesOf(after, id))
      ensures IsExchange(db.maxRetries, Firsts(oracle, sent))
    {
      hide *;
      after, sent := run, 0;
      GivesNone(oracle);
      while true
        invariant At(start, after, db) && req in db.requests && db.requests[req].Calling? && db.requests[req].id == id
        invariant id < |old(db).attempts| <= |db.attempts| && db.attempts[id] == old(db).attempts[id]
        invariant |db.requests[req].got| == sent && Gives(oracle, db.requests[req].got)
        invariant db.maxRetries == old(db).maxRetries
        decreases MaxSends(old(db).maxRetries) - sent
      {
        label before:
        HasOwnAttempt(db, req, id);
        after := Interfere(req, others(sent), start, after);
        SameKeeps(req, old@before(db), db);
        OwnHistory(start, after, db, req);
        CallingKnows(db.maxRetries, db.requests[req], ResponsesOf(after, id));
        var over: bool;
        HonestAt(oracle, hits, sent);
        GivesMore(oracle, db.requests[req].got);
        over, after := SendOnce(req, id, oracle(sent), hits(sent), start, after);
        OwnHistory(start, after, db, req);
        CallingKnows(db.maxRetries, db.requests[req], ResponsesOf(after, id));
        sent := sent + 1;
        if over {
          GivesFirsts(oracle, ResponsesOf(after, id));
          o := Classify(oracle(sent - 1));
          return;
        }
      }
    }

    /**
     * The last block.  `cached`: the session hands out the invoice object of the
     * first block, which is ISSUED, and not what is committed.  An exception from
     * `mark_paid` discards what the block did.
     */
    method SettleRequest(req: ReqId, id: nat, o: Outcome, cached: bool) returns (e: Option<ServiceError>)
      requires req in db.requests && db.requests[req] == Returned(id, o) && id < |db.attempts|
      requires db.attempts[id].invoiceId in db.invoices
      modifies this
      ensures db == Do(old(db), Settle(req, Seen(old(db), id, cached)))
      ensures e == SettleError(o, Seen(old(db), id, cached) == Paid)
      ensures Settles(old(db).attempts[id], o, Seen(old(db), id, cached) == Paid, db.attempts[id], old(db).clock)
      ensures |db.attempts| == |old(db).attempts| && SamePair(db.attempts[id], old(db).attempts[id])
      ensures req !in db.requests && db.maxRetries == old(db).maxRetries
      ensures o.Answered? && o.body.Success? && Seen(old(db), id, cached) != Paid ==> PaymentStored(old(db), db, id)
      ensures old(db).attempts[id].status == Pending ==>
                db.attempts[id].status == StatusAfter(o, Seen(old(db), id, cached) == Paid)
    {
      var attempt := new PaymentAttempt.Load(db.attempts[id]);
      var open := db.requests - {req};
      if o.ProviderError? {
        attempt.Fail(o.message, db.clock);
        db := db.(attempts := db.attempts[id := attempt.View()], requests := open);
        return Some(Provider(o));
      }
      if !o.Answered? || o.body.Malformed? {
        db := db.(requests := open);
        return Some(Provider(o));
      }
      if o.body.Success? {
        e := StorePayment(req, id, o.body.paymentId, cached);
        return;
      }
      var m := o.body.message;
      attempt.Fail(if m.Some? && m.value != "" then m.value else "payment failed", db.clock);
      db := db.(attempts := db.attempts[id := attempt.View()], requests := open);
      e := None;
    }

    /** The successful outcome. */
    method StorePayment(req: ReqId, id: nat, paymentId: Option<string>, cached: bool) returns (e: Option<ServiceError>)
      requires req in db.requests && db.requests[req] == Returned(id, Answered(Success(paymentId))) && id < |db.attempts|
      requires db.attempts[id].invoiceId in db.invoices
      modifies this
      ensures db == DoSettle(old(db), req, id, Answered(Success(paymentId)), Seen(old(db), id, cached))
      ensures e == if Seen(old(db), id, cached) == Paid then Some(Refused(AlreadyPaid)) else None
      ensures |db.attempts| == |old(db).attempts| && SamePair(db.attempts[id], old(db).attempts[id])
      ensures req !in db.requests && db.maxRetries == old(db).maxRetries
      ensures db.attempts[id] == if Seen(old(db), id, cached) == Paid then old(db).attempts[id]
              else old(db).attempts[id].(status := Succeeded, providerPaymentId := paymentId, errorMessage := None,
                                         completedAt := Some(old(db).clock))
      ensures Seen(old(db), id, cached) != Paid ==> PaymentStored(old(db), db, id)
    {
      hide FromEvent, EventOf, PaymentStored, Total;
      var attempt := new PaymentAttempt.Load(db.attempts[id]);
      var stored := db.invoices[attempt.invoiceId];
      var invoice := new InvoiceEntity.Load(attempt.invoiceId,
                                            if cached then stored.(status := Issued, paidAt := None) else stored,
                                            [attempt]);
      attempt.Succeed(paymentId, db.clock);
      var raised := invoice.MarkPaid(db.clock);
      if raised.Some? {
        db := db.(requests := db.requests - {req});
        return Some(Refused(raised.value));
      }
      // only the columns the block has changed are written
      var written := stored.(status := invoice.status, paidAt := invoice.paidAt);
      db := db.(attempts := db.attempts[id := attempt.View()],
                invoices := db.invoices[attempt.invoiceId := written],
                outbox := db.outbox + [FromEvent(PaidEvent(attempt.invoiceId, invoice.View()), db.clock)],
                requests := db.requests - {req});
      e := None;
      PaidRow(old(db), db, id, written);
    }

    /** Anything the rest of the system does in between; impossible actions are skipped. */
    method Interfere(req: ReqId, others: seq<Action>, ghost start: Run, ghost run: Run) returns (ghost after: Run)
      requires At(start, run, db)
      requires match OwnAttempt(db, req) case Some(id) => id < |db.attempts| case None => true
      modifies this
      ensures At(start, after, db) && SameForRequest(req, old(db), db)
    {
      after := run;
      assert SameForRequest(req, db, db);
      hide At, SameForRequest, Do, Enabled;
      for i := 0 to |others|
        invariant At(start, after, db) && SameForRequest(req, old(db), db)
      {
        var a := others[i];
        if Enabled(db, a) && RequestNo(a) != Some(req) {
          AtInv(start, after, db);
          OthersKeepOwnAttempt(req, db, a);
          SameTrans(req, old(db), db, Do(db, a));
          Advance(start, after, db, a);
          db := Do(db, a);
          after := Then(after, a);
        }
      }
    }

    /**
     * A whole `collect_payment` request, overlapping with anything else: a known key
     * is answered from the stored attempt and nothing happens; an invoice that may not
     * be collected is refused; otherwise the request loses the race for the key or
     * creates one attempt, `created`, which ends as the provider's outcome and the
     * status seen by the last block say.  `run` shows that all of it is a run of the
     * step system.
     */
    method CollectPayment(req: ReqId, id: Uuid, key: string, oracle: nat -> Response, hits: nat -> bool,
                          cached: bool, others: nat -> seq<Action>, ghost start: Run)
      returns (r: Result<nat, ServiceError>, ghost created: Option<nat>, sent: nat, ghost run: Run)
      requires Reached(start) && Final(start) == db && req !in db.requests
      requires Honest(oracle, hits)
      modifies this
      ensures At(start, run, db) && req !in db.requests
      ensures id !in old(db).invoices ==> r == Err(NotFound) && db == old(db)
      ensures id in old(db).invoices && FindAttempt(old(db).attempts, id, key).Some? ==>
                r == Ok(FindAttempt(old(db).attempts, id, key).value) && db == old(db)
      ensures created.Some? ==>
                var a := created.value;
                && |old(db).attempts| <= a < |db.attempts| && db.attempts[a].invoiceId == id && db.attempts[a].key == key
                && match r
                   case Ok(x) => x == a && db.attempts[a].status != Pending
                   case Err(Provider(o)) => db.attempts[a].status == if o.ProviderError? then Failed else Pending
                   case Err(e) => e == Refused(AlreadyPaid) && db.attempts[a].status == Pending && !cached
      ensures created.Some? ==> AnsweredBy(db, created.value, oracle, sent, r, cached)
      ensures id in old(db).invoices && FindAttempt(old(db).attempts, id, key).None? ==>
                match NewAttempt(id, old(db).invoices[id], key)
                case Ok(_) => created.Some? || r == Err(DuplicateKey)
                case Err(x) => r == Err(Refused(x)) && db == old(db)
      ensures id in old(db).invoices && FindAttempt(old(db).attempts, id, key).None? ==>
                && (old(db).invoices[id].status == Paid ==> r == Err(Refused(AlreadyPaid)) && db == old(db))
                && (old(db).invoices[id].status == Draft ==> r == Err(Refused(PaymentNotAllowed)) && db == old(db))
    {
      created, sent, run := None, 0, start;
      hide *;
      StartAt(start);
      LookupEnabled(db, req, id, key);
      var found := LookUp(req, id, key);
      Advance(start, run, old(db), Lookup(req, id, key));
      run := Then(run, Lookup(req, id, key));
      if found.Err? {
        r := Err(found.error);
        return;
      }
      if found.value.Some? {
        r := Ok(found.value.value);
        return;
      }
      r, created, sent, run := FlushAndCollect(req, id, key, oracle, hits, cached, others, start, run);
    }

    /** The rest of a request whose lookup found nothing. */
    method FlushAndCollect(req: ReqId, id: Uuid, key: string, oracle: nat -> Response, hits: nat -> bool,
                           cached: bool, others: nat -> seq<Action>, ghost start: Run, ghost run: Run)
      returns (r: Result<nat, ServiceError>, ghost created: Option<nat>, sent: nat, ghost after: Run)
      requires At(start, run, db) && StartingFor(db, req, id, key)
      requires Honest(oracle, hits)
      modifies this
      ensures At(start, after, db) && req !in db.requests
      ensures created.Some? ==>
                var a := created.value;
                && |old(db).attempts| <= a < |db.attempts| && db.attempts[a].invoiceId == id && db.attempts[a].key == key
                && match r
                   case Ok(x) => x == a && db.attempts[a].status != Pending
                   case Err(Provider(o)) => db.attempts[a].status == if o.ProviderError? then Failed else Pending
                   case Err(e) => e == Refused(AlreadyPaid) && db.attempts[a].status == Pending && !cached
      ensures created.Some? ==> AnsweredBy(db, created.value, oracle, sent, r, cached)
      ensures created.None? ==> r == Err(DuplicateKey)
    {
      hide *;
      assert req in db.requests && db.requests[req].Starting?
        && db.requests[req].attempt.invoiceId == id && db.requests[req].attempt.key == key by { StartsFor(db, req, id, key); }
      NoOwnAttempt(db, req);
      after := Interfere(req, others(0), start, run);
      SameKeeps(req, old(db), db);
      InsertEnabled(db, req);
      label flush:
      var inserted := Flush(req);
      Advance(start, after, old@flush(db), Insert(req));
      after := Then(after, Insert(req));
      if inserted.None? {
        r, created, sent := Err(DuplicateKey), None, 0;
        return;
      }
      var a := inserted.value;
      created := Some(a);
      label settling:
      r, sent, after := CallAndSettle(req, a, oracle, hits, cached, others, start, after);
      SamePairGives(db.attempts[a], old@settling(db).attempts[a]);
    }

    method CallAndSettle(req: ReqId, a: nat, oracle: nat -> Response, hits: nat -> bool,
                         cached: bool, others: nat -> seq<Action>, ghost start: Run, ghost run: Run)
      returns (r: Result<nat, ServiceError>, sent: nat, ghost after: Run)
      requires At(start, run, db) && req in db.requests && db.requests[req] == Calling(a, []) && a < |db.attempts|
      requires Honest(oracle, hits)
      modifies this
      ensures At(start, after, db) && req !in db.requests
      ensures a < |db.attempts| && SamePair(db.attempts[a], old(db).attempts[a])
      ensures match r
              case Ok(x) => x == a && db.attempts[a].status != Pending
              case Err(Provider(o)) => db.attempts[a].status == if o.ProviderError? then Failed else Pending
              case Err(e) => e == Refused(AlreadyPaid) && db.attempts[a].status == Pending && !cached
      ensures AnsweredBy(db, a, oracle, sent, r, cached)
    {
      hide *;
      var o: Outcome;
      o, sent, after := CallProvider(req, a, oracle, hits, (k: nat) => others(k + 1), start, run);
      HasOwnAttempt(db, req, a);
      label returned:
      after := Interfere(req, others(sent + 1), start, after);
      SameKeeps(req, old@returned(db), db);
      OwnFits(start, after, db, req, a, o);
      SettleEnabled(db, req, cached);
      label settle:
      var e := SettleRequest(req, a, o, cached);
      ghost var seen := Seen(old@settle(db), a, cached);
      Advance(start, after, old@settle(db), Settle(req, seen));
      after := Then(after, Settle(req, seen));
      r := if e.Some? then Err(e.value) else Ok(a);
      ReplyTells(old@settle(db).attempts[a], oracle(sent - 1), o, seen == Paid, db.attempts[a], old@settle(db).clock, e, a, cached);
      RepliedStatus(oracle(sent - 1), r, a, db.attempts[a], cached);
      AnswersNow(db, a, oracle, sent, r, cached);
      SettlesStatus(old@settle(db).attempts[a], o, seen == Paid, db.attempts[a], old@settle(db).clock);
    }
  }

  lemma RepliedStatus(last: Response, r: Result<nat, ServiceError>, a: nat, x: Attempt, cached: bool)
    requires Replied(last, r, a, x, cached)
    ensures match r
            case Ok(y) => y == a && x.status != Pending
            case Err(Provider(o)) => x.status == if o.ProviderError? then Failed else Pending
            case Err(e) => e == Refused(AlreadyPaid) && x.status == Pending && !cached
  {
  }

  lemma SamePairGives(a: Attempt, b: Attempt)
    requires SamePair(a, b)
    ensures a.invoiceId == b.invoiceId && a.key == b.key
  {
  }

  lemma StartsFor(s: State, req: ReqId, id: Uuid, key: string)
    requires StartingFor(s, req, id, key)
    ensures req in s.requests && s.requests[req].Starting?
    ensures s.requests[req].attempt.invoiceId == id && s.requests[req].attempt.key == key
  {
  }

  lemma NoOwnAttempt(s: State, req: ReqId)
    requires req in s.requests && s.requests[req].Starting?
    ensures OwnAttempt(s, req) == None
  {
  }

  lemma HasOwnAttempt(s: State, req: ReqId, a: nat)
    requires req in s.requests && !s.requests[req].Starting? && s.requests[req].id == a
    ensures OwnAttempt(s, req) == Some(a)
  {
  }

  lemma OwnFits(start: Run, run: Run, s: State, req: ReqId, a: nat, o: Outcome)
    requires At(start, run, s) && req in s.requests && s.requests[req] == Returned(a, o)
    ensures a < |s.attempts| && s.attempts[a].status == Pending && s.attempts[a].invoiceId in s.invoices
  {
    Parts(s);
    hide Inv, InvoicesFit, SendsFit, OutboxFits, EmailsFit;
    ReturnedFits(s, req, a, o);
    assert Owes(s, s.attempts[a].invoiceId, s.attempts[a].amount, s.attempts[a].currency);
  }
}

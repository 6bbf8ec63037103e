/** What each action of the billing system can change, without saying how. */
module BillingShapes {
  import opened Prelude
  import opened Codec
  import opened Events
  import opened InvoiceModel
  import opened InvoiceOutbox
  import opened PaymentClient
  import opened Billing
  import opened BillingInvariant

  /** A step of some `collect_payment` request, or of the payment provider. */
  predicate OfRequest(a: Action) {
    a.Lookup? || a.Insert? || a.SendOnce? || a.LateCharge? || a.Settle? || a.CrashRequest?
  }

  /** Everything payments are made of is the same in both states. */
  predicate SamePayments(s: State, t: State) {
    t.requests == s.requests && t.attempts == s.attempts && t.charges == s.charges
  }

  lemma DraftShape(s: State, a: Action)
    requires Enabled(s, a) && (a.AddLine? || a.Issue?)
    ensures SamePayments(s, Do(s, a)) && Do(s, a).invoices.Keys == s.invoices.Keys
    ensures forall i | i in s.invoices && i != a.invoice :: Do(s, a).invoices[i] == s.invoices[i]
    ensures var i := a.invoice; Do(s, a).invoices[i] == s.invoices[i] || s.invoices[i].status == Draft
    ensures Do(s, a).invoices[a.invoice].status != Paid || Do(s, a).invoices[a.invoice] == s.invoices[a.invoice]
  {
    hide FromEntry, IssuedEvent;
  }

  lemma PassShape(s: State, a: Action)
    requires Enabled(s, a) && (a.ReadBatch? || a.Deliver? || a.CommitBatch? || a.CrashPass?)
    ensures SamePayments(s, Do(s, a)) && Do(s, a).invoices == s.invoices
  {
    hide FromEntry, IsBatch, Written;
    if a.ReadBatch? { InRange(s.outbox, a.limit, a.items); }
  }

  /** Nobody but requests touches requests, attempts and charges. */
  lemma OthersKeepRequests(s: State, a: Action)
    requires Enabled(s, a) && !OfRequest(a)
    ensures SamePayments(s, Do(s, a))
    ensures !(a.AddLine? || a.Issue? || a.CreateInvoice?) ==> Do(s, a).invoices == s.invoices
  {
    if a.AddLine? || a.Issue? {
      DraftShape(s, a);
    } else if a.ReadBatch? || a.Deliver? || a.CommitBatch? || a.CrashPass? {
      PassShape(s, a);
    }
    hide DoIssue, DoAddLine, DoRead, DoDeliver, DoCommit, IsBatch;
  }

  // ---- requests ----------------------------------------------------------------------------

  predicate LookupMoves(s: State, t: State, req: ReqId, i: Uuid) {
    && t.attempts == s.attempts && t.invoices == s.invoices && t.charges == s.charges
    && (|| t.requests == s.requests
        || (req in t.requests && t.requests == s.requests[req := t.requests[req]] && t.requests[req].Starting?
            && t.requests[req].attempt.invoiceId == i && t.requests[req].attempt.status == Pending
            && i in s.invoices && s.invoices[i].status == Issued))
  }

  predicate InsertMoves(s: State, t: State, req: ReqId)
    requires req in s.requests && s.requests[req].Starting?
  {
    && t.invoices == s.invoices && t.charges == s.charges
    && (|| (t.attempts == s.attempts && t.requests == s.requests - {req})
        || (t.attempts == s.attempts + [s.requests[req].attempt] && t.requests == s.requests[req := Calling(|s.attempts|, [])]))
  }

  /** At most one new charge, for what request `x` asks. */
  predicate ChargesFor(s: State, t: State, x: Request) {
    || t.charges == s.charges
    || (x.key !in s.charges && t.charges == s.charges[x.key := Charge(x.invoiceId, x.amount, x.currency)])
  }

  predicate SendMoves(s: State, t: State, req: ReqId, x: Response)
    requires req in s.requests && s.requests[req].Calling? && s.requests[req].id < |s.attempts|
  {
    var id, got := s.requests[req].id, s.requests[req].got;
    && t.attempts == s.attempts && t.invoices == s.invoices && ChargesFor(s, t, RequestOf(s.attempts[id]))
    && req in t.requests && t.requests == s.requests[req := t.requests[req]]
    && t.requests[req] == (if Stops(s.maxRetries, |got| + 1, x) then Returned(id, Classify(x)) else Calling(id, got + [x]))
    && (Succeeds(Classify(x)) ==> s.attempts[id].key in t.charges)
  }

  predicate LateMoves(s: State, t: State, j: nat)
    requires j < |s.sends|
  {
    t.requests == s.requests && t.attempts == s.attempts && t.invoices == s.invoices && ChargesFor(s, t, s.sends[j])
  }

  predicate SettleMoves(s: State, t: State, req: ReqId)
    requires req in s.requests && s.requests[req].Returned? && s.requests[req].id < |s.attempts|
    requires s.attempts[s.requests[req].id].invoiceId in s.invoices
  {
    var id := s.requests[req].id;
    var i := s.attempts[id].invoiceId;
    && t.charges == s.charges && t.requests == s.requests - {req}
    && |t.attempts| == |s.attempts| && t.attempts == s.attempts[id := t.attempts[id]] && SamePair(s.attempts[id], t.attempts[id])
    && (t.attempts[id] != s.attempts[id] && t.attempts[id].status == Succeeded ==> Succeeds(s.requests[req].outcome))
    && (|| t.invoices == s.invoices
        || (i in t.invoices && t.invoices == s.invoices[i := t.invoices[i]] && t.invoices[i].status == Paid))
  }

  lemma LookupShape(s: State, req: ReqId, i: Uuid, key: string)
    requires req !in s.requests
    ensures LookupMoves(s, DoLookup(s, req, i, key), req, i)
  {
    hide FindAttempt;
  }

  lemma InsertShape(s: State, req: ReqId)
    requires req in s.requests && s.requests[req].Starting?
    ensures InsertMoves(s, DoInsert(s, req, s.requests[req].attempt), req)
  {
    hide FindAttempt;
  }

  lemma SendShape(s: State, req: ReqId, x: Response, charged: bool)
    requires Enabled(s, SendOnce(req, x, charged))
    ensures SendMoves(s, DoSendOnce(s, req, s.requests[req].id, s.requests[req].got, x, charged), req, x)
  {
    hide Classify, Succeeds, Stops;
  }

  lemma SettleShape(s: State, req: ReqId, seen: InvoiceStatus)
    requires Enabled(s, Settle(req, seen))
    ensures SettleMoves(s, DoSettle(s, req, s.requests[req].id, s.requests[req].outcome, seen), req)
  {
    if s.requests[req].outcome.Answered? && s.requests[req].outcome.body.Success? {
      PayingShape(s, req, seen);
    } else {
      UnpaidShape(s, req, seen);
    }
    hide DoSettle, SettleMoves;
  }

  lemma PayingShape(s: State, req: ReqId, seen: InvoiceStatus)
    requires Enabled(s, Settle(req, seen)) && s.requests[req].outcome.Answered? && s.requests[req].outcome.body.Success?
    ensures SettleMoves(s, DoSettle(s, req, s.requests[req].id, s.requests[req].outcome, seen), req)
  {
    hide PaidEvent, FromEntry;
    var t := DoSettle(s, req, s.requests[req].id, s.requests[req].outcome, seen);
    var id := s.requests[req].id;
    if seen == Paid {
      assert t == s.(requests := s.requests - {req});
      assert s.attempts[id := s.attempts[id]] == s.attempts;
    }
  }

  lemma UnpaidShape(s: State, req: ReqId, seen: InvoiceStatus)
    requires Enabled(s, Settle(req, seen)) && !(s.requests[req].outcome.Answered? && s.requests[req].outcome.body.Success?)
    ensures SettleMoves(s, DoSettle(s, req, s.requests[req].id, s.requests[req].outcome, seen), req)
  {
    hide AsPaid, PaidEvent;
    var t := DoSettle(s, req, s.requests[req].id, s.requests[req].outcome, seen);
    var id := s.requests[req].id;
    assert t.invoices == s.invoices && t.charges == s.charges && t.requests == s.requests - {req};
    assert s.attempts[id := s.attempts[id]] == s.attempts;
  }

  /** How a request's step moves requests, attempts, charges and invoices. */
  predicate Moves(s: State, a: Action, t: State)
    requires Enabled(s, a)
  {
    match a
    case Lookup(req, i, _) => LookupMoves(s, t, req, i)
    case Insert(req) => InsertMoves(s, t, req)
    case SendOnce(req, x, _) => SendMoves(s, t, req, x)
    case LateCharge(j) => LateMoves(s, t, j)
    case Settle(req, _) => SettleMoves(s, t, req)
    case CrashRequest(req) =>
      t.attempts == s.attempts && t.invoices == s.invoices && t.charges == s.charges && t.requests == s.requests - {req}
    case _ => SamePayments(s, t)
  }

  lemma StepMoves(s: State, a: Action)
    requires Enabled(s, a)
    ensures Moves(s, a, Do(s, a))
  {
    hide DoLookup, DoInsert, DoSendOnce, DoSettle, LookupMoves, InsertMoves, SendMoves, SettleMoves, SamePayments;
    match a
    case Lookup(req, i, key) => LookupShape(s, req, i, key);
    case Insert(req) => InsertShape(s, req);
    case SendOnce(req, x, charged) => SendShape(s, req, x, charged);
    case LateCharge(j) =>
    case Settle(req, seen) => SettleShape(s, req, seen);
    case CrashRequest(req) =>
    case _ => OthersKeepRequests(s, a);
  }

  // ---- consequences -----------------------------------------------------------------------

  /** A request for attempt `a` is sent. */
  predicate CallsAttempt(s: State, c: Action, a: nat) {
    c.SendOnce? && c.req in s.requests && s.requests[c.req].Calling? && s.requests[c.req].id == a < |s.attempts|
  }

  /** Only a request sent gives an open request its outcome. */
  lemma NewOutcomes(s: State, a: Action, q: ReqId)
    requires Enabled(s, a) && q in Do(s, a).requests && Do(s, a).requests[q].Returned?
    ensures var pc := Do(s, a).requests[q];
            && q in s.requests
            && (|| s.requests[q] == pc
                || (CallsAttempt(s, a, pc.id) && pc.outcome == Classify(a.response)))
  {
    StepMoves(s, a);
    hide Do, Classify, Stops;
  }

  /** A charge is never changed. */
  lemma ChargesStay(s: State, a: Action, key: string)
    requires Enabled(s, a) && key in s.charges
    ensures key in Do(s, a).charges && Do(s, a).charges[key] == s.charges[key]
  {
    StepMoves(s, a);
    hide Do, Classify, Stops;
  }

  /** Attempts are only ever added, and keep their invoice and key. */
  lemma PairsStay(s: State, a: Action)
    requires Enabled(s, a)
    ensures |s.attempts| <= |Do(s, a).attempts|
    ensures forall id | 0 <= id < |s.attempts| :: SamePair(s.attempts[id], Do(s, a).attempts[id])
  {
    StepMoves(s, a);
    hide Do, Classify, Stops;
  }

  /** How an open request got where it is: untouched, flushed, answered or just begun. */
  predicate Progress(s: State, t: State, q: ReqId)
    requires q in t.requests
  {
    if q !in s.requests then t.requests[q].Starting?
    else
      || t.requests[q] == s.requests[q]
      || (s.requests[q].Starting? && t.requests[q] == Calling(|s.attempts|, [])
          && t.attempts == s.attempts + [s.requests[q].attempt])
      || (s.requests[q].Calling? && !t.requests[q].Starting? && t.requests[q].id == s.requests[q].id)
  }

  lemma RequestProgress(s: State, a: Action, q: ReqId)
    requires Enabled(s, a) && q in Do(s, a).requests
    ensures Progress(s, Do(s, a), q)
    ensures q !in s.requests ==>
              a.Lookup? && var i := Do(s, a).requests[q].attempt.invoiceId; i in s.invoices && s.invoices[i].status == Issued
  {
    StepMoves(s, a);
    hide Do, Classify, Stops;
  }
}

/** What overlapping requests can do to an invoice, and what no later step can undo. */
module BillingOverlap {
  import opened Prelude
  import opened Codec
  import opened InvoiceModel
  import opened PaymentClient
  import opened Billing
  import opened BillingInvariant
  import opened BillingSteps
  import opened BillingSettling
  import opened BillingShapes
  import opened BillingTheorems

  // ---- attempts nobody works on ---------------------------------------------------------------

  /** The attempt exists and no open request works on it. */
  predicate Orphan(s: State, id: nat) {
    && id < |s.attempts|
    && forall q | q in s.requests && !s.requests[q].Starting? :: s.requests[q].id != id
  }

  /** Requests only ever begin to work on the attempt they insert. */
  lemma OrphanStep(s: State, c: Action, id: nat)
    requires Enabled(s, c) && Orphan(s, id)
    ensures Orphan(Do(s, c), id) && Do(s, c).attempts[id] == s.attempts[id]
  {
    StepMoves(s, c);
    hide Do, Classify, Stops;
  }

  /**
   * An attempt whose request has ended or crashed keeps its status for ever: a
   * PENDING one is never settled, and its key only ever answers with it.
   */
  lemma {:induction false} OrphanForGood(r: Run, q: Run, id: nat)
    requires Reached(r) && Reached(q) && Extends(r, q) && Orphan(Final(q), id)
    ensures Orphan(Final(r), id) && Final(r).attempts[id] == Final(q).attempts[id]
  {
    if r != q {
      OrphanForGood(r.prefix, q, id);
      OrphanStep(Final(r.prefix), r.a, id);
      hide Orphan, Do, Enabled;
    }
  }

  /** A request for a pair that has an attempt changes nothing. */
  lemma KnownPairAnswers(s: State, req: ReqId, a: nat)
    requires req !in s.requests && a < |s.attempts|
    ensures Do(s, Lookup(req, s.attempts[a].invoiceId, s.attempts[a].key)) == s
  {
    FindAttemptExact(s.attempts, s.attempts[a].invoiceId, s.attempts[a].key);
  }

  lemma SettleOrphans(s: State, req: ReqId, seen: InvoiceStatus)
    requires RequestsFit(s) && Enabled(s, Settle(req, seen))
    ensures Orphan(Do(s, Settle(req, seen)), s.requests[req].id)
  {
    assert RequestFits(s, s.requests[req]);
    StepMoves(s, Settle(req, seen));
    hide Do;
  }

  /**
   * A request that finds the invoice paid when its own call has succeeded leaves
   * nothing behind in the database, and nothing ever repairs it: in every
   * continuation its attempt is PENDING although its key has been charged.
   */
  lemma LoserRollsBack(r: Run, req: ReqId, q: Run)
    requires Reached(r) && Enabled(Final(r), Settle(req, Paid)) && Succeeds(Final(r).requests[req].outcome)
    requires Reached(q) && Extends(q, Then(r, Settle(req, Paid)))
    ensures var s, t := Final(r), Do(Final(r), Settle(req, Paid));
            t.attempts == s.attempts && t.invoices == s.invoices && t.outbox == s.outbox
    ensures var id := Final(r).requests[req].id;
            && id < |Final(q).attempts| && Final(q).attempts[id].status == Pending
            && Final(q).attempts[id] == Final(r).attempts[id]
            && Final(q).attempts[id].key in Final(q).charges
  {
    hide *;
    ReachedIsRun(r);
    ReachedIsRun(q);
    SettleIsReturned(Final(r), req, Paid);
    var s, id := Final(r), Final(r).requests[req].id;
    InvHolds(r);
    Parts(s);
    ReturnedFits(s, req, id, s.requests[req].outcome);
    LoserStep(s, req);
    SettleOrphans(s, req, Paid);
    var p := Then(r, Settle(req, Paid));
    ThenReached(r, Settle(req, Paid));
    OrphanForGood(q, p, id);
    OrphanExists(Final(q), id);
    ChargedKeysStay(q, p, s.attempts[id].key);
  }

  lemma SettleIsReturned(s: State, req: ReqId, seen: InvoiceStatus)
    requires Enabled(s, Settle(req, seen))
    ensures req in s.requests && s.requests[req] == Returned(s.requests[req].id, s.requests[req].outcome)
  {
  }

  lemma OrphanExists(s: State, id: nat)
    requires Orphan(s, id)
    ensures id < |s.attempts|
  {
  }

  lemma LoserStep(s: State, req: ReqId)
    requires Enabled(s, Settle(req, Paid)) && Succeeds(s.requests[req].outcome)
    ensures var t := Do(s, Settle(req, Paid));
            t.attempts == s.attempts && t.invoices == s.invoices && t.outbox == s.outbox && t.charges == s.charges
  {
  }

  lemma {:induction false} ChargedKeysStay(r: Run, q: Run, key: string)
    requires Reached(r) && Reached(q) && Extends(r, q) && key in Final(q).charges
    ensures key in Final(r).charges
  {
    if r != q {
      ChargedKeysStay(r.prefix, q, key);
      ChargesStay(Final(r.prefix), r.a, key);
      hide Do, Enabled;
    }
  }

  // ---- requests that do not overlap ---------------------------------------------------------------

  /** An open request is about this invoice, from its lookup to its last block. */
  predicate Concerns(s: State, q: ReqId, i: Uuid) {
    && q in s.requests
    && match s.requests[q]
       case Starting(a) => a.invoiceId == i
       case Calling(id, _) => id < |s.attempts| && s.attempts[id].invoiceId == i
       case Returned(id, _) => id < |s.attempts| && s.attempts[id].invoiceId == i
  }

  /** No two open requests are about the same invoice. */
  ghost predicate Solo(s: State) {
    forall q, p, i :: Concerns(s, q, i) && Concerns(s, p, i) ==> q == p
  }

  ghost predicate OverlapFree(r: Run)
    requires IsRun(r)
  {
    Solo(Final(r)) && (r.Then? ==> OverlapFree(r.prefix))
  }

  /** A request keeps its invoice, and begins only with an issued one. */
  lemma ConcernsStep(s: State, c: Action, q: ReqId, i: Uuid)
    requires RequestsFit(s) && Enabled(s, c) && Concerns(Do(s, c), q, i)
    ensures Concerns(s, q, i) || (c.Lookup? && i in s.invoices && s.invoices[i].status == Issued)
  {
    PairsStay(s, c);
    RequestProgress(s, c, q);
    hide Do, Enabled, RequestsFit;
    if q in s.requests { RequestInRange(s, q); }
  }

  lemma RequestInRange(s: State, q: ReqId)
    requires RequestsFit(s) && q in s.requests
    ensures !s.requests[q].Starting? ==> s.requests[q].id < |s.attempts|
  {
    assert RequestFits(s, s.requests[q]);
  }

  /** Only the last block of a request about the invoice takes it out of ISSUED. */
  lemma IssuedStep(s: State, c: Action, i: Uuid)
    requires Enabled(s, c) && i in s.invoices && s.invoices[i].status == Issued
    ensures i in Do(s, c).invoices
    ensures Do(s, c).invoices[i].status == Issued || (c.Settle? && Concerns(s, c.req, i) && c.req !in Do(s, c).requests)
  {
    if OfRequest(c) {
      StepMoves(s, c);
    } else if c.AddLine? || c.Issue? {
      DraftShape(s, c);
    } else if !c.CreateInvoice? {
      OthersKeepRequests(s, c);
    } else {
      assert Do(s, c).invoices[i] == s.invoices[i];
    }
    hide Do, Classify, Stops;
  }

  lemma {:induction false} OpenMeansIssued(r: Run, q: ReqId, i: Uuid)
    requires Reached(r) && OverlapFree(r) && Concerns(Final(r), q, i)
    ensures i in Final(r).invoices && Final(r).invoices[i].status == Issued
  {
    if r.Then? {
      var s, c := Final(r.prefix), r.a;
      InvHolds(r.prefix);
      Parts(s);
      hide Inv, Do, Enabled, RequestsFit, AttemptsFit, SendsFit, OutboxFits, EmailsFit, InvoicesFit, Concerns;
      ConcernsStep(s, c, q, i);
      if Concerns(s, q, i) { OpenMeansIssued(r.prefix, q, i); }
      IssuedStep(s, c, i);
      OpenRequest(Do(s, c), q, i);
    }
  }

  lemma OpenRequest(s: State, q: ReqId, i: Uuid)
    requires Concerns(s, q, i)
    ensures q in s.requests
  {
  }

  /** What clients can do: if requests for one invoice do not overlap, no stale status ever does harm. */
  lemma {:induction false} NoOverlapNeverCollides(r: Run)
    requires Reached(r) && OverlapFree(r)
    ensures NeverCollides(r)
  {
    if r.Then? {
      NoOverlapNeverCollides(r.prefix);
      if Collides(Final(r.prefix), r.a) {
        var i := CollidesOn(Final(r.prefix), r.a);
        OpenMeansIssued(r.prefix, r.a.req, i);
      }
    }
  }

  lemma CollidesOn(s: State, c: Action) returns (i: Uuid)
    requires Collides(s, c)
    ensures c.Settle? && Concerns(s, c.req, i) && i in s.invoices && s.invoices[i].status == Paid
  {
    i := s.attempts[s.requests[c.req].id].invoiceId;
  }

  predicate WaitsToPay(s: State, q: ReqId, i: Uuid) {
    Concerns(s, q, i) && s.requests[q].Returned? && Succeeds(s.requests[q].outcome)
  }

  /** ... and that is needed: two overlapping successful calls can always end in two payments. */
  lemma OverlapCanCollide(r: Run, p: ReqId, q: ReqId, i: Uuid) returns (t: Run)
    requires Reached(r) && p != q && WaitsToPay(Final(r), p, i) && WaitsToPay(Final(r), q, i)
    ensures Reached(t) && Extends(t, r) && !NeverCollides(t)
    ensures exists j :: SucceededAttempts(Final(t), j) >= 2
  {
    hide *;
    ReachedIsRun(r);
    var s := Final(r);
    InvHolds(r);
    Parts(s);
    WaitingPays(s, p, q, i);
    ThenReached(r, Settle(p, Issued));
    var u := Then(r, Settle(p, Issued));
    ThenReached(u, Settle(q, Issued));
    t := Then(u, Settle(q, Issued));
    TwoMore(r, Settle(p, Issued), Settle(q, Issued));
    CollisionCounts(u, Settle(q, Issued));
    OnceIffNoCollision(t);
    NotOnce(Final(t));
  }

  lemma CollisionCounts(r: Run, a: Action)
    requires IsRun(r) && Enabled(Final(r), a) && Collides(Final(r), a)
    ensures IsRun(Then(r, a)) && !NeverCollides(Then(r, a))
  {
    hide Do, Enabled, Collides;
  }

  lemma NotOnce(s: State)
    ensures !PaidOnce(s) ==> exists j :: SucceededAttempts(s, j) >= 2
  {
    hide SucceededAttempts;
  }

  lemma TwoMore(r: Run, a: Action, b: Action)
    ensures Extends(Then(r, a), r) && Extends(Then(Then(r, a), b), r)
  {
  }

  lemma WaitingPays(s: State, p: ReqId, q: ReqId, i: Uuid)
    requires RequestsFit(s) && AttemptsFit(s) && p != q && WaitsToPay(s, p, i) && WaitsToPay(s, q, i)
    ensures Enabled(s, Settle(p, Issued))
    ensures var t := Do(s, Settle(p, Issued)); Enabled(t, Settle(q, Issued)) && Collides(t, Settle(q, Issued))
  {
    hide *;
    CanSettle(s, p, i);
    StillWaits(s, p, q, i);
    CollidesNow(Do(s, Settle(p, Issued)), q, i);
  }

  lemma CanSettle(s: State, p: ReqId, i: Uuid)
    requires RequestsFit(s) && AttemptsFit(s) && WaitsToPay(s, p, i)
    ensures Enabled(s, Settle(p, Issued))
  {
    var x := s.attempts[s.requests[p].id];
    assert Owes(s, x.invoiceId, x.amount, x.currency);
    hide RequestsFit, AttemptsFit;
  }

  lemma StillWaits(s: State, p: ReqId, q: ReqId, i: Uuid)
    requires RequestsFit(s) && p != q && WaitsToPay(s, p, i) && WaitsToPay(s, q, i) && Enabled(s, Settle(p, Issued))
    ensures var t := Do(s, Settle(p, Issued)); WaitsToPay(t, q, i) && i in t.invoices && t.invoices[i].status == Paid
  {
    PayingStep(s, p);
    hide Do, RequestsFit, Enabled, Succeeds;
  }

  lemma CollidesNow(t: State, q: ReqId, i: Uuid)
    requires WaitsToPay(t, q, i) && i in t.invoices && t.invoices[i].status == Paid
    ensures Enabled(t, Settle(q, Issued)) && Collides(t, Settle(q, Issued))
  {
  }

  /** The last block of a successful request that sees ISSUED pays. */
  lemma PayingStep(s: State, p: ReqId)
    requires Enabled(s, Settle(p, Issued)) && Succeeds(s.requests[p].outcome)
    ensures var t, id := Do(s, Settle(p, Issued)), s.requests[p].id;
            var i := s.attempts[id].invoiceId;
            && t.requests == s.requests - {p} && t.attempts == s.attempts[id := t.attempts[id]]
            && SamePair(t.attempts[id], s.attempts[id])
            && i in t.invoices && t.invoices[i].status == Paid
  {
    hide PaidEvent;
  }
}

/** Concrete runs: the conditions in the billing theorems are needed. */
module BillingWitness {
  import opened Prelude
  import opened Codec
  import opened Events
  import opened HalfUp
  import opened InvoiceModel
  import opened InvoiceOutbox
  import opened PaymentClient
  import opened Billing
  import opened BillingInvariant
  import opened BillingSteps
  import opened BillingSettling
  import opened BillingTheorems
  import opened BillingCharges
  import opened BillingShapes
  import opened BillingOverlap

  const EMPTY := State(3, 0, map[], map[], [], [], map[], map[], [], map[], [])
  const OK := Http(200, Success(None))

  lemma Step(r: Run, a: Action) returns (q: Run)
    requires Reached(r) && Enabled(Final(r), a)
    ensures q == Then(r, a) && Reached(q) && Final(q) == Do(Final(r), a) && Inv(Final(r)) && Extends(q, r)
  {
    InvHolds(r);
    ThenReached(r, a);
    hide Inv, Do, Enabled;
    q := Then(r, a);
  }

  /** Draft one invoice with one line and issue it. */
  lemma IssueOne(r0: Run, c: Uuid, i: Uuid) returns (r: Run)
    requires Reached(r0) && c in Final(r0).customers && i !in Final(r0).invoices
    ensures Reached(r)
    ensures var s := Final(r0); var t := Final(r);
            && t.invoices.Keys == s.invoices.Keys + {i} && t.invoices[i].status == Issued
            && (forall j | j in s.invoices :: t.invoices[j] == s.invoices[j])
            && t.customers == s.customers && t.attempts == s.attempts && t.requests == s.requests
            && t.charges == s.charges && t.maxRetries == s.maxRetries
  {
    hide Inv, FromEvent, IssuedEvent, Total, Upper, Extends;
    r := Step(r0, CreateInvoice(i, c, "EUR"));
    r := Step(r, AddLine(i, Line("x", 1, 100, 0)));
    r := Step(r, Issue(i));
  }

  /** The first block of a request whose key is new for the invoice. */
  lemma Open(r0: Run, req: ReqId, i: Uuid, key: string) returns (r: Run)
    requires Reached(r0) && i in Final(r0).invoices && Final(r0).invoices[i].status == Issued && req !in Final(r0).requests
    requires FindAttempt(Final(r0).attempts, i, key) == None
    ensures Reached(r) && Extends(r, r0)
    ensures var s := Final(r0); var t := Final(r);
            && t == s.(attempts := t.attempts, requests := s.requests[req := Calling(|s.attempts|, [])])
            && |t.attempts| == |s.attempts| + 1 && t.attempts[..|s.attempts|] == s.attempts
            && t.attempts[|s.attempts|].invoiceId == i && t.attempts[|s.attempts|].key == key
  {
    hide Inv, Total, FindAttempt;
    r := Step(r0, Lookup(req, i, key));
    r := Step(r, Insert(req));
  }

  /** ... and its successful provider call. */
  lemma Collect(r0: Run, req: ReqId, i: Uuid, key: string, hit: bool) returns (r: Run)
    requires Reached(r0) && i in Final(r0).invoices && Final(r0).invoices[i].status == Issued && req !in Final(r0).requests
    requires FindAttempt(Final(r0).attempts, i, key) == None && Final(r0).maxRetries == 3
    requires hit || key in Final(r0).charges
    ensures Reached(r) && Extends(r, r0)
    ensures var s := Final(r0); var t := Final(r); var n := |s.attempts|;
            && t.invoices == s.invoices && t.customers == s.customers && t.maxRetries == s.maxRetries
            && t.requests == s.requests[req := Returned(n, Answered(Success(None)))]
            && |t.attempts| == n + 1 && t.attempts[..n] == s.attempts
            && t.attempts[n].invoiceId == i && t.attempts[n].key == key
            && key in t.charges && t.charges[key].invoiceId == (if key in s.charges then s.charges[key].invoiceId else i)
  {
    hide Inv, Total, FindAttempt, Do, Enabled;
    r := Open(r0, req, i, key);
    var s := Final(r);
    SendOk(s, req, hit);
    r := Step(r, SendOnce(req, OK, hit));
    assert s.requests[req := Calling(|Final(r0).attempts|, [])] == s.requests;
  }

  /** A request that is answered with a success. */
  lemma SendOk(s: State, req: ReqId, hit: bool)
    requires req in s.requests && s.requests[req].Calling? && s.requests[req].id < |s.attempts| && s.maxRetries == 3
    requires hit || s.attempts[s.requests[req].id].key in s.charges
    ensures var c := SendOnce(req, OK, hit);
            && Enabled(s, c)
            && var t, x := Do(s, c), s.attempts[s.requests[req].id];
            && t == s.(requests := s.requests[req := Returned(s.requests[req].id, Answered(Success(None)))],
                       sends := t.sends, charges := t.charges)
            && x.key in t.charges
            && t.charges[x.key].invoiceId == (if x.key in s.charges then s.charges[x.key].invoiceId else x.invoiceId)
  {
    assert Classify(OK) == Answered(Success(None));
  }

  /** A first request that the provider never sees. */
  lemma SendLost(s: State, req: ReqId)
    requires req in s.requests && s.requests[req].Calling? && s.requests[req].id < |s.attempts| && s.maxRetries == 3
    requires s.requests[req].got == []
    ensures var c := SendOnce(req, TransportFailure, false);
            && Enabled(s, c)
            && Do(s, c) == s.(requests := s.requests[req := Calling(s.requests[req].id, [TransportFailure])],
                              sends := Do(s, c).sends)
            && CallsAttempt(s, c, s.requests[req].id)
  {
    assert [] + [TransportFailure] == [TransportFailure];
    assert !Retryable(TransportFailure) == false;
  }

  /** ... and is stored. */
  lemma SettleOk(s: State, req: ReqId)
    requires req in s.requests && s.requests[req].Returned? && s.requests[req].outcome == Answered(Success(None))
    requires s.requests[req].id < |s.attempts| && s.attempts[s.requests[req].id].invoiceId in s.invoices
    ensures Enabled(s, Settle(req, Issued))
    ensures var t, id := Do(s, Settle(req, Issued)), s.requests[req].id;
            && |t.attempts| == |s.attempts| && t.attempts[id].status == Succeeded
            && SamePair(t.attempts[id], s.attempts[id]) && t.charges == s.charges
  {
    hide PaidEvent, FromEvent;
  }

  /** A run with one customer and one issued invoice. */
  lemma Begin(c: Uuid, i: Uuid) returns (r: Run)
    ensures Reached(r)
    ensures var s := Final(r);
            && s.customers.Keys == {c} && s.invoices.Keys == {i} && s.invoices[i].status == Issued
            && s.attempts == [] && s.requests == map[] && s.charges == map[] && s.maxRetries == 3
  {
    r := Start(EMPTY);
    r := Step(r, CreateCustomer(c, "a@b"));
    r := IssueOne(r, c, i);
  }

  /** Two requests with different keys, both charged, neither settled. */
  lemma TwoCharges(i: Uuid) returns (r: Run)
    ensures Reached(r)
    ensures var s := Final(r);
            && i in s.invoices && s.invoices[i].status == Issued
            && |s.attempts| == 2 && s.attempts[0].invoiceId == i && s.attempts[1].invoiceId == i
            && 1 in s.requests && s.requests[1] == Returned(0, Answered(Success(None)))
            && 2 in s.requests && s.requests[2] == Returned(1, Answered(Success(None)))
  {
    r := Begin(i, i);
    hide Inv, Total;
    r := Collect(r, 1, i, "k1", true);
    assert "k1"[1] != "k2"[1];
    FindAttemptExact(Final(r).attempts, i, "k2");
    var first := Final(r).attempts[0];
    r := Collect(r, 2, i, "k2", true);
    assert Final(r).attempts[..1][0] == first;
  }

  /** The first of two successful requests is settled; the second still sees ISSUED. */
  lemma FirstSettled(i: Uuid) returns (r: Run)
    ensures Reached(r)
    ensures var s := Final(r);
            && i in s.invoices && s.invoices[i].status == Paid
            && |s.attempts| == 2 && s.attempts[1].invoiceId == i
            && 2 in s.requests && s.requests[2] == Returned(1, Answered(Success(None)))
  {
    r := TwoCharges(i);
    hide Inv, Total, FromEvent, PaidEvent, Extends;
    r := Step(r, Settle(1, Issued));
  }

  /**
   * The session of the second request still holds the ISSUED invoice of its first
   * block: both requests mark it paid, and two InvoicePaid rows are written.
   */
  lemma StaleSessionPaysTwice() returns (r: Run, i: Uuid)
    ensures Reached(r) && !NeverCollides(r)
    ensures i in Final(r).invoices && SucceededAttempts(Final(r), i) >= 2 && PaidRows(Final(r), i) >= 2
  {
    i := seq(32, k => 0);
    var q := FirstSettled(i);
    assert Collides(Final(q), Settle(2, Issued));
    hide Inv, DoSettle, SucceededAttempts, PaidRows, Extends, Collides;
    r := Step(q, Settle(2, Issued));
    SuccessStep(Final(q), Settle(2, Issued), i);
    assert !NeverCollides(r);
    assert Grows(Final(q), Final(r)) by { StepKeeps(Final(q), Settle(2, Issued)); }
    PaymentSafety(r);
  }

  /** Two invoices, the first one charged under key "k". */
  lemma FirstCharged(i: Uuid, j: Uuid) returns (r: Run)
    requires i != j
    ensures Reached(r)
    ensures var s := Final(r);
            && j in s.invoices && s.invoices[j].status == Issued && s.maxRetries == 3
            && |s.attempts| == 1 && s.attempts[0].invoiceId == i && s.attempts[0].key == "k"
            && "k" in s.charges && s.charges["k"].invoiceId == i && 2 !in s.requests
  {
    r := Begin(i, i);
    r := IssueOne(r, i, j);
    r := Collect(r, 1, i, "k", true);
  }

  /**
   * The provider only sees the client's key: when two invoices are collected under
   * the same key it answers the second from the first charge, and an invoice is
   * paid by a charge that names another one.
   */
  lemma SharedKeyPaysForAnother() returns (r: Run, a: nat)
    ensures Reached(r) && a < |Final(r).attempts| && Final(r).attempts[a].status == Succeeded
    ensures !ChargedForItself(Final(r), a) && !CalledFree(r, a)
  {
    var i: Uuid, j: Uuid := seq(32, k => 0), seq(32, k => 1);
    assert i[0] != j[0];
    r := FirstCharged(i, j);
    hide Inv, Total, Extends, Do, Enabled, CalledFree;
    FindAttemptExact(Final(r).attempts, j, "k");
    r := Collect(r, 2, j, "k", false);
    SettleOk(Final(r), 2);
    r := Step(r, Settle(2, Issued));
    a := 1;
    PaidWasCharged(r, a);
  }

  lemma {:induction false} SentFreeStays(r: Run, q: Run, a: nat)
    requires Reached(r) && Reached(q) && Extends(r, q) && SentFree(q, a)
    ensures SentFree(r, a)
  {
    if r != q { SentFreeStays(r.prefix, q, a); }
  }

  /** Two issued invoices and one call that is about to begin. */
  lemma FirstOpen(i: Uuid, j: Uuid) returns (r: Run)
    requires i != j
    ensures Reached(r)
    ensures var s := Final(r);
            && i in s.invoices && j in s.invoices && s.invoices[j].status == Issued && s.maxRetries == 3
            && |s.attempts| == 1 && s.attempts[0].invoiceId == i && s.attempts[0].key == "k"
            && s.requests == map[1 := Calling(0, [])] && s.charges == map[]
  {
    hide Inv, Total, Do, Enabled, Extends, Reached;
    r := Begin(i, i);
    r := IssueOne(r, i, j);
    r := Open(r, 1, i, "k");
  }

  /** Its first request is sent under a free key, and lost. */
  lemma FirstLost(i: Uuid, j: Uuid) returns (r: Run)
    requires i != j
    ensures Reached(r) && SentFree(r, 0)
    ensures var s := Final(r);
            && i in s.invoices && j in s.invoices && s.invoices[j].status == Issued && s.maxRetries == 3
            && |s.attempts| == 1 && s.attempts[0].invoiceId == i && s.attempts[0].key == "k"
            && s.requests == map[1 := Calling(0, [TransportFailure])] && s.charges == map[]
  {
    hide Inv, Total, Do, Enabled, Extends, SentFree;
    r := FirstOpen(i, j);
    SendLost(Final(r), 1);
    FreeSend(r, SendOnce(1, TransportFailure, false), 0);
    r := Step(r, SendOnce(1, TransportFailure, false));
  }

  lemma FreeSend(r: Run, c: Action, a: nat)
    requires Reached(r) && Enabled(Final(r), c) && CallsAttempt(Final(r), c, a) && Final(r).charges == map[]
    ensures IsRun(Then(r, c)) && SentFree(Then(r, c), a)
  {
    hide Do, Enabled;
  }

  /** ... and before the second one, another invoice is charged under its key. */
  lemma LostThenForeign(i: Uuid, j: Uuid) returns (r: Run)
    requires i != j
    ensures Reached(r) && SentFree(r, 0)
    ensures var s := Final(r);
            && i in s.invoices && s.maxRetries == 3
            && |s.attempts| == 2 && s.attempts[0].invoiceId == i && s.attempts[0].key == "k"
            && 1 in s.requests && s.requests[1] == Calling(0, [TransportFailure])
            && "k" in s.charges && s.charges["k"].invoiceId == j
  {
    var q := FirstLost(i, j);
    hide Inv, Total, Do, Enabled, Extends, SentFree;
    var first := Final(q).attempts[0];
    FindAttemptExact(Final(q).attempts, j, "k");
    r := Collect(q, 2, j, "k", true);
    assert Final(r).attempts[..1][0] == first;
    SentFreeStays(r, q, 0);
  }

  /**
   * That its first request went out under a free key does not help an attempt: the
   * provider may miss it, charge another invoice under the key, and answer the
   * repeated request from that charge.
   */
  lemma RetryMeetsForeignCharge() returns (r: Run, a: nat)
    ensures Reached(r) && a < |Final(r).attempts| && Final(r).attempts[a].status == Succeeded
    ensures SentFree(r, a) && !ChargedForItself(Final(r), a) && !CalledFree(r, a)
  {
    var i: Uuid, j: Uuid := seq(32, k => 0), seq(32, k => 1);
    assert i[0] != j[0];
    r := LostThenForeign(i, j);
    hide Inv, Total, Extends, Do, Enabled, CalledFree, SentFree;
    var q := r;
    SendOk(Final(r), 1, false);
    r := Step(r, SendOnce(1, OK, false));
    SettleOk(Final(r), 1);
    r := Step(r, Settle(1, Issued));
    a := 0;
    PaidWasCharged(r, a);
    TwoMore(q, SendOnce(1, OK, false), Settle(1, Issued));
    SentFreeStays(r, q, a);
  }
}

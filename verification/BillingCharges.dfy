/** Which invoice the payment provider has charged for an attempt that succeeded. */
module BillingCharges {
  import opened Prelude
  import opened Codec
  import opened HalfUp
  import opened InvoiceModel
  import opened PaymentClient
  import opened Billing
  import opened BillingInvariant
  import opened BillingSteps
  import opened BillingSettling
  import opened BillingShapes
  import opened BillingTheorems

  /** The provider's charge under the attempt's key is for its own invoice and amount. */
  predicate ChargedForItself(s: State, a: nat) {
    && a < |s.attempts| && s.attempts[a].key in s.charges
    && s.charges[s.attempts[a].key] == Charge(s.attempts[a].invoiceId, s.attempts[a].amount, s.attempts[a].currency)
  }

  /** Nothing has been charged under the key for another invoice. */
  predicate KeyFree(s: State, key: string, i: Uuid) { key in s.charges ==> s.charges[key].invoiceId == i }

  /** The request of the attempt that was answered with a success went out under a free key. */
  predicate CalledFree(r: Run, a: nat)
    requires IsRun(r)
  {
    && r.Then?
    && (|| CalledFree(r.prefix, a)
        || var s := Final(r.prefix);
           CallWins(s, r.a, a) && KeyFree(s, s.attempts[a].key, s.attempts[a].invoiceId))
  }

  /** Some request of the attempt went out under a free key. */
  predicate SentFree(r: Run, a: nat)
    requires IsRun(r)
  {
    && r.Then?
    && (|| SentFree(r.prefix, a)
        || var s := Final(r.prefix);
           CallsAttempt(s, r.a, a) && KeyFree(s, s.attempts[a].key, s.attempts[a].invoiceId))
  }

  /** The provider has answered the attempt with a success, stored or not. */
  ghost predicate Won(s: State, a: nat) {
    && a < |s.attempts|
    && (s.attempts[a].status == Succeeded || exists q :: q in s.requests && WonBy(s.requests[q], a))
  }

  predicate WonBy(pc: Pc, a: nat) { pc.Returned? && pc.id == a && Succeeds(pc.outcome) }

  /** A request for the attempt is answered with a success. */
  predicate CallWins(s: State, c: Action, a: nat) { CallsAttempt(s, c, a) && Succeeds(Classify(c.response)) }

  // ---- steps --------------------------------------------------------------------------------

  /** Only a request answered with a success wins an attempt that had not won. */
  lemma WinsByCall(s: State, c: Action, a: nat)
    requires RequestsFit(s) && Enabled(s, c) && Won(Do(s, c), a)
    ensures Won(s, a) || CallWins(s, c, a)
  {
    if Do(s, c).attempts[a].status == Succeeded {
      StoredWins(s, c, a);
    } else {
      WaitingWins(s, c, a);
    }
    hide Do, Enabled, RequestsFit, Won, CallWins;
  }

  /** A request that waits with a success had it before, or has just been given it. */
  lemma WaitingWins(s: State, c: Action, a: nat)
    requires RequestsFit(s) && Enabled(s, c) && Won(Do(s, c), a) && Do(s, c).attempts[a].status != Succeeded
    ensures Won(s, a) || CallWins(s, c, a)
  {
    var t := Do(s, c);
    var q :| q in t.requests && WonBy(t.requests[q], a);
    NewOutcomes(s, c, q);
    assert RequestFits(s, s.requests[q]);
    hide Do, Enabled, Classify, Succeeds, GoesOn, Owes, SendCount;
    assert s.requests[q] == t.requests[q] ==> WonBy(s.requests[q], a);
  }

  lemma StoredWins(s: State, c: Action, a: nat)
    requires RequestsFit(s) && Enabled(s, c) && a < |Do(s, c).attempts| && Do(s, c).attempts[a].status == Succeeded
    ensures Won(s, a)
  {
    var t := Do(s, c);
    StepMoves(s, c);
    hide Do, Enabled, Classify, Succeeds, Stops;
    if c.Insert? {
      assert RequestFits(s, s.requests[c.req]);
    }
    if c.Settle? && s.requests[c.req].id == a && t.attempts[a] != s.attempts[a] {
      assert WonBy(s.requests[c.req], a);
    }
  }

  /** An attempt that has won is not called again. */
  lemma WonIsCalled(s: State, c: Action, a: nat)
    requires RequestsFit(s)
    ensures CallsAttempt(s, c, a) ==> !Won(s, a)
  {
    if CallsAttempt(s, c, a) {
      assert RequestFits(s, s.requests[c.req]);
    }
  }

  /** The winning request leaves a charge for the attempt's own invoice exactly when its key was free. */
  lemma WinningCall(s: State, c: Action, a: nat)
    requires Enabled(s, c) && CallWins(s, c, a)
    ensures var x := s.attempts[a]; var t := Do(s, c);
            && x.key in t.charges && t.attempts == s.attempts
            && (t.charges[x.key].invoiceId == x.invoiceId <==> KeyFree(s, x.key, x.invoiceId))
  {
    StepMoves(s, c);
    hide Do, Enabled, Classify, Succeeds, Stops;
  }

  /** A charge for the right invoice is for the right amount: nobody asks for anything but the invoice's total. */
  lemma RightInvoiceRightAmount(s: State, a: nat)
    requires Inv(s) && a < |s.attempts| && s.attempts[a].key in s.charges
    ensures ChargedForItself(s, a) <==> s.charges[s.attempts[a].key].invoiceId == s.attempts[a].invoiceId
  {
    var x := s.attempts[a];
    Parts(s);
    assert ChargeFits(s, x.key);
    hide Inv, RequestsFit, OutboxFits, EmailsFit, InvoicesFit, Total, SendCount;
    var j :| 0 <= j < |s.sends| && s.sends[j].key == x.key
          && s.charges[x.key] == Charge(s.sends[j].invoiceId, s.sends[j].amount, s.sends[j].currency);
    assert Owes(s, s.sends[j].invoiceId, s.sends[j].amount, s.sends[j].currency);
    assert Owes(s, x.invoiceId, x.amount, x.currency);
  }

  /** A success is not retryable: it is in the history as the end of the call. */
  lemma {:induction false} FreeIsOver(r: Run, a: nat)
    requires IsRun(r) && CalledFree(r, a)
    ensures exists k | 0 <= k < |ResponsesOf(r, a)| :: !Retryable(ResponsesOf(r, a)[k])
  {
    var h := ResponsesOf(r, a);
    if CalledFree(r.prefix, a) {
      FreeIsOver(r.prefix, a);
      var k :| 0 <= k < |ResponsesOf(r.prefix, a)| && !Retryable(ResponsesOf(r.prefix, a)[k]);
      assert h[k] == ResponsesOf(r.prefix, a)[k];
    } else {
      assert h[|h| - 1] == r.a.response;
    }
  }

  // ---- over runs ------------------------------------------------------------------------------

  lemma {:induction false} WinnersCharge(r: Run, a: nat)
    requires Reached(r) && Won(Final(r), a)
    ensures var s := Final(r); var x := s.attempts[a];
            x.key in s.charges && (s.charges[x.key].invoiceId == x.invoiceId <==> CalledFree(r, a))
  {
    if r.Start? {
    } else {
      var s, c := Final(r.prefix), r.a;
      InvHolds(r.prefix);
      Parts(s);
      hide Inv, Do, Enabled, RequestsFit, AttemptsFit, SendsFit, OutboxFits, EmailsFit, InvoicesFit;
      WinsByCall(s, c, a);
      if Won(s, a) {
        WinnersCharge(r.prefix, a);
        WonIsCalled(s, c, a);
        ChargesStay(s, c, s.attempts[a].key);
        SamePairs(s, c, a);
      } else {
        StillCalling(r.prefix, c, a);
        WinningCall(s, c, a);
      }
    }
  }

  lemma SamePairs(s: State, c: Action, a: nat)
    requires Inv(s) && Enabled(s, c) && a < |s.attempts|
    ensures a < |Do(s, c).attempts| && SamePair(s.attempts[a], Do(s, c).attempts[a])
  {
    hide Inv, Do, Enabled, Grows;
    StepKeeps(s, c);
    GrowParts(s, Do(s, c));
  }

  /** While an attempt is being called no success has come back. */
  lemma StillCalling(r: Run, c: Action, a: nat)
    requires Reached(r) && CallsAttempt(Final(r), c, a)
    ensures !CalledFree(r, a)
  {
    OneExchange(r, a);
    assert Tells(Final(r).maxRetries, Final(r).requests[c.req], ResponsesOf(r, a));
    if CalledFree(r, a) { FreeIsOver(r, a); }
  }

  /**
   * A succeeded attempt was charged; and it was charged for its own invoice and
   * amount if and only if, just before the request that brought the success went
   * out, nothing had been charged under its key for another invoice.
   */
  lemma PaidWasCharged(r: Run, a: nat)
    requires Reached(r) && a < |Final(r).attempts| && Final(r).attempts[a].status == Succeeded
    ensures Final(r).attempts[a].key in Final(r).charges
    ensures ChargedForItself(Final(r), a) <==> CalledFree(r, a)
  {
    InvHolds(r);
    WinnersCharge(r, a);
    RightInvoiceRightAmount(Final(r), a);
  }

  /** No attempt of another invoice uses this key: enough for every request under it to be free. */
  predicate KeyOfOneInvoice(s: State, key: string, i: Uuid) {
    forall b | 0 <= b < |s.attempts| && s.attempts[b].key == key :: s.attempts[b].invoiceId == i
  }

  /** What a client can do about it: with a key of its own an attempt is charged for itself. */
  lemma OwnKeyCharged(r: Run, a: nat)
    requires Reached(r) && a < |Final(r).attempts| && Final(r).attempts[a].status == Succeeded
    requires KeyOfOneInvoice(Final(r), Final(r).attempts[a].key, Final(r).attempts[a].invoiceId)
    ensures ChargedForItself(Final(r), a)
  {
    var s := Final(r);
    InvHolds(r);
    PaidWasCharged(r, a);
    OwnKeyIsFree(s, s.attempts[a].key, s.attempts[a].invoiceId);
    RightInvoiceRightAmount(s, a);
  }

  lemma OwnKeyIsFree(s: State, key: string, i: Uuid)
    requires Inv(s) && KeyOfOneInvoice(s, key, i)
    ensures KeyFree(s, key, i)
  {
    Parts(s);
    hide Inv, RequestsFit, OutboxFits, EmailsFit, InvoicesFit, Total, SendCount, Owes;
    if key in s.charges {
      assert ChargeFits(s, key);
      var j :| 0 <= j < |s.sends| && s.sends[j].key == key
            && s.charges[key] == Charge(s.sends[j].invoiceId, s.sends[j].amount, s.sends[j].currency);
      assert HasAttempt(s, s.sends[j].invoiceId, s.sends[j].key);
    }
  }
}

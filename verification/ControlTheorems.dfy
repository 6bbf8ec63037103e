/** What holds of every run of the control service: payments, issues and amounts, and when they go wrong. */
module ControlTheorems {
  import opened Prelude
  import opened Codec
  import opened HalfUp
  import opened InvoiceModel
  import opened ControlService
  import opened ControlSystem

  // ---- what one step does to an invoice -----------------------------------------------------------

  /** A success is stored for invoice `i`. */
  predicate StoresSuccess(s: State, a: Action, i: Uuid) {
    a.Store? && Enabled(s, a) && Pays(a.answer) && s.db.attempts[s.requests[a.req].id].invoiceId == i
  }

  /** The issue of invoice `i` is committed. */
  predicate CommitsIssue(s: State, a: Action, i: Uuid) {
    a.CommitIssue? && Enabled(s, a) && a.failure.None? && s.requests[a.req].invoice == i
  }

  lemma InvParts(s: State)
    requires Inv(s)
    ensures TablesFit(s.db) && RequestsFit(s) && InvoicesFit(s.db) && AttemptsFit(s.db) && EventsFit(s.db)
  {
  }

  lemma InvCounts(s: State, i: Uuid)
    requires Inv(s)
    ensures CountsFit(s.db, i)
  {
  }

  /** How a step moves the counts of an invoice. */
  lemma CountStep(s: State, a: Action, i: Uuid)
    requires Inv(s) && Enabled(s, a)
    ensures Successes(Do(s, a).db, i) == Successes(s.db, i) + (if StoresSuccess(s, a, i) then 1 else 0)
    ensures IssuedEvents(Do(s, a).db, i) == IssuedEvents(s.db, i) + (if CommitsIssue(s, a, i) then 1 else 0)
  {
    InvParts(s);
    hide Inv, TablesFit;
    if a.Store? {
      StoreCounts(s, a.req, a.answer, a.now, i);
      hide Do, Enabled, Successes, IssuedEvents, RequestsFit;
    } else if a.CommitIssue? && a.failure.None? {
      InvCounts(s, i);
      IssueCounts(s.db, s.requests[a.req].invoice, s.requests[a.req].total, a.now, i);
      hide IssueStored, Successes, IssuedEvents, RequestsFit;
    } else if a.Insert? {
      InsertCounts(s, a.req, i);
    } else {
      SameRows(s, a);
      hide Do, Enabled, CountIf;
    }
  }

  lemma InsertCounts(s: State, req: ReqId, i: Uuid)
    requires RequestsFit(s) && Enabled(s, Insert(req))
    ensures var t := Do(s, Insert(req));
            Successes(t.db, i) == Successes(s.db, i) && IssuedEvents(t.db, i) == IssuedEvents(s.db, i)
  {
    assert RequestFits(s, s.requests[req]);
    CountAppend(s.db.attempts, s.requests[req].attempt, IsSuccessFor(i));
    hide CountIf, TotalOf, RequestsFit, FindAttempt;
  }

  lemma SameRows(s: State, a: Action)
    requires Enabled(s, a) && !a.Store? && !a.Insert? && !(a.CommitIssue? && a.failure.None?)
    ensures Do(s, a).db.attempts == s.db.attempts && Do(s, a).db.events == s.db.events
  {
    hide CalculateTotals, FindAttempt;
  }

  /** How a step moves its status. */
  lemma StatusStep(s: State, a: Action, i: Uuid)
    requires Inv(s) && Enabled(s, a)
    ensures IsPaid(Do(s, a).db, i) <==> StoresSuccess(s, a, i) || (IsPaid(s.db, i) && !CommitsIssue(s, a, i))
  {
    InvParts(s);
    hide CalculateTotals, FindAttempt, RequestsFit, TablesFit, Inv;
  }

  // ---- paid once ------------------------------------------------------------------------------------

  /** A success is stored for an invoice that is PAID already. */
  predicate Repays(s: State, a: Action) {
    a.Store? && Enabled(s, a) && Pays(a.answer) && IsPaid(s.db, s.db.attempts[s.requests[a.req].id].invoiceId)
  }

  /** An issue is committed although the invoice is PAID by now. */
  predicate Unpays(s: State, a: Action) {
    a.CommitIssue? && Enabled(s, a) && a.failure.None? && IsPaid(s.db, s.requests[a.req].invoice)
  }

  predicate NeverRepays(r: Run)
    requires IsRun(r)
  {
    r.Then? ==> NeverRepays(r.prefix) && !Repays(Final(r.prefix), r.a)
  }

  predicate NeverUnpays(r: Run)
    requires IsRun(r)
  {
    r.Then? ==> NeverUnpays(r.prefix) && !Unpays(Final(r.prefix), r.a)
  }

  ghost predicate AllPaidOnce(db: Db) { forall id :: PaidOnce(db, id) }

  lemma PaidOnceMeans(s: State, i: Uuid)
    requires Inv(s)
    ensures PaidOnce(s.db, i) <==> Successes(s.db, i) == if IsPaid(s.db, i) then 1 else 0
    ensures IsPaid(s.db, i) ==> Successes(s.db, i) >= 1
  {
    InvCounts(s, i);
    hide Successes, PaidEvents, IssuedEvents, Inv;
  }

  /** An invoice that is not paid once never is again; and one that is stays so unless it is paid again or un-paid. */
  lemma PaidOnceStep(s: State, a: Action, i: Uuid)
    requires Inv(s) && Enabled(s, a)
    ensures PaidOnce(Do(s, a).db, i) <==>
              PaidOnce(s.db, i) && !(IsPaid(s.db, i) && (StoresSuccess(s, a, i) || CommitsIssue(s, a, i)))
  {
    StepKeeps(s, a);
    hide Do, Enabled, Inv, PaidOnce, IsPaid, StoresSuccess, CommitsIssue;
    PaidOnceMeans(s, i);
    PaidOnceMeans(Do(s, a), i);
    CountStep(s, a, i);
    StatusStep(s, a, i);
    NotBoth(s, a, i);
  }

  lemma NotBoth(s: State, a: Action, i: Uuid)
    ensures !(StoresSuccess(s, a, i) && CommitsIssue(s, a, i))
  {
  }

  lemma AllPaidOnceStep(s: State, a: Action)
    requires Inv(s) && Enabled(s, a)
    ensures AllPaidOnce(Do(s, a).db) <==> AllPaidOnce(s.db) && !Repays(s, a) && !Unpays(s, a)
  {
    hide Do, Inv, PaidOnce, IsPaid;
    forall i
      ensures PaidOnce(Do(s, a).db, i) <==>
                PaidOnce(s.db, i) && !(IsPaid(s.db, i) && (StoresSuccess(s, a, i) || CommitsIssue(s, a, i)))
    {
      PaidOnceStep(s, a, i);
    }
    if Repays(s, a) {
      var i := s.db.attempts[s.requests[a.req].id].invoiceId;
      assert StoresSuccess(s, a, i);
      assert !PaidOnce(Do(s, a).db, i);
    } else if Unpays(s, a) {
      var i := s.requests[a.req].invoice;
      assert CommitsIssue(s, a, i);
      assert !PaidOnce(Do(s, a).db, i);
    } else {
      hide Enabled;
      Unharmed(s, a);
    }
  }

  lemma Unharmed(s: State, a: Action)
    requires !Repays(s, a) && !Unpays(s, a)
    ensures forall i :: !(IsPaid(s.db, i) && (StoresSuccess(s, a, i) || CommitsIssue(s, a, i)))
  {
    hide IsPaid;
  }

  /**
   * Over every run: each PAID invoice has exactly one succeeded attempt and one
   * InvoicePaid event, and no other invoice has any, if and only if no success was
   * ever stored for an invoice already PAID and no issue was ever committed on one.
   */
  lemma {:induction false} PaidOnceIff(r: Run)
    requires Reached(r)
    ensures AllPaidOnce(Final(r).db) <==> NeverRepays(r) && NeverUnpays(r)
  {
    if r.Start? {
      assert forall i :: PaidOnce(r.init.db, i);
    } else {
      PaidOnceIff(r.prefix);
      InvHolds(r.prefix);
      AllPaidOnceStep(Final(r.prefix), r.a);
      hide Inv, Do, Enabled, AllPaidOnce, Repays, Unpays;
    }
  }

  // ---- issued once ------------------------------------------------------------------------------------

  /** An issue is committed although the invoice is no draft any more. */
  predicate Reissues(s: State, a: Action) {
    a.CommitIssue? && Enabled(s, a) && a.failure.None? && Opened(s.db, s.requests[a.req].invoice)
  }

  predicate NeverReissues(r: Run)
    requires IsRun(r)
  {
    r.Then? ==> NeverReissues(r.prefix) && !Reissues(Final(r.prefix), r.a)
  }

  ghost predicate AllIssuedOnce(db: Db) { forall i :: IssuedEvents(db, i) == if Opened(db, i) then 1 else 0 }

  lemma IssuedMeans(s: State, i: Uuid)
    requires Inv(s)
    ensures IssuedEvents(s.db, i) >= 1 <==> Opened(s.db, i)
  {
    InvCounts(s, i);
  }

  lemma AllIssuedOnceStep(s: State, a: Action)
    requires Inv(s) && Enabled(s, a)
    ensures AllIssuedOnce(Do(s, a).db) <==> AllIssuedOnce(s.db) && !Reissues(s, a)
  {
    StepKeeps(s, a);
    hide Do, Inv, Opened, IssuedEvents;
    forall i
      ensures IssuedEvents(Do(s, a).db, i) == IssuedEvents(s.db, i) + (if CommitsIssue(s, a, i) then 1 else 0)
      ensures IssuedEvents(s.db, i) >= 1 <==> Opened(s.db, i)
      ensures IssuedEvents(Do(s, a).db, i) >= 1 <==> Opened(Do(s, a).db, i)
    {
      CountStep(s, a, i);
      IssuedMeans(s, i);
      IssuedMeans(Do(s, a), i);
    }
    if Reissues(s, a) {
      var i := s.requests[a.req].invoice;
      assert CommitsIssue(s, a, i);
      assert IssuedEvents(Do(s, a).db, i) >= 2;
    }
    if !AllIssuedOnce(s.db) {
      var i :| IssuedEvents(s.db, i) != if Opened(s.db, i) then 1 else 0;
      assert IssuedEvents(Do(s, a).db, i) >= 2;
    }
  }

  /** Exactly one InvoiceIssued event per issued invoice, if and only if no issue was committed on one that was issued already. */
  lemma {:induction false} IssuedOnceIff(r: Run)
    requires Reached(r)
    ensures AllIssuedOnce(Final(r).db) <==> NeverReissues(r)
  {
    if r.Start? {
      assert forall i :: IssuedEvents(r.init.db, i) == 0;
    } else {
      IssuedOnceIff(r.prefix);
      InvHolds(r.prefix);
      AllIssuedOnceStep(Final(r.prefix), r.a);
      hide Inv, Do, Enabled, AllIssuedOnce, Reissues;
    }
  }

  // ---- amounts ------------------------------------------------------------------------------------------

  predicate Right(db: Db, id: Uuid, amount: int) { id in db.invoices && amount == TotalOf(db, id) }

  /** Every attempt and every event states the total that its invoice has now. */
  predicate AllRight(db: Db) {
    && (forall a | 0 <= a < |db.attempts| :: Right(db, db.attempts[a].invoiceId, db.attempts[a].amount))
    && (forall k | 0 <= k < |db.events| :: Right(db, db.events[k].invoiceId, db.events[k].total))
  }

  /** A commit writes what no longer fits: a line that changes what was announced, or an amount of other lines. */
  predicate Overtakes(s: State, a: Action) {
    && Enabled(s, a)
    && match a
       case CommitLine(req) =>
         var i := s.requests[req].invoice;
         Opened(s.db, i) && TotalOf(LineStored(s.db, i, s.requests[req].line), i) != TotalOf(s.db, i)
       case CommitIssue(req, failure, _) => failure.None? && s.requests[req].total != TotalOf(s.db, s.requests[req].invoice)
       case Insert(req) =>
         var x := s.requests[req].attempt;
         FindAttempt(s.db.attempts, x.invoiceId, x.key).None? && !Right(s.db, x.invoiceId, x.amount)
       case _ => false
  }

  predicate NeverOvertakes(r: Run)
    requires IsRun(r)
  {
    r.Then? ==> NeverOvertakes(r.prefix) && !Overtakes(Final(r.prefix), r.a)
  }

  /** Totals only grow, so what is less than its invoice's total stays so. */
  lemma WrongStays(d: Db, e: Db, i: Uuid, n: int)
    requires Within(d, i, n) && InvoicesGrow(d, e)
    ensures !Right(d, i, n) ==> !Right(e, i, n)
  {
    hide TotalOf;
  }

  /** Where a total stays, so does what states it. */
  lemma RightStays(d: Db, e: Db)
    requires forall i | i in d.invoices :: i in e.invoices && TotalOf(e, i) == TotalOf(d, i)
    ensures forall i, n | Right(d, i, n) :: Right(e, i, n)
  {
    hide TotalOf;
  }

  /** Rows are only added, and keep their invoice and amount. */
  predicate RowsGrow(d: Db, e: Db) {
    && d.events <= e.events && |d.attempts| <= |e.attempts|
    && forall a | 0 <= a < |d.attempts| ::
         e.attempts[a].invoiceId == d.attempts[a].invoiceId && e.attempts[a].amount == d.attempts[a].amount
  }

  lemma GrowDrafting(s: State, a: Action)
    requires Inv(s) && Enabled(s, a) && (a.Create? || a.CommitLine?)
    ensures InvoicesGrow(s.db, Do(s, a).db) && RowsGrow(s.db, Do(s, a).db)
  {
    InvParts(s);
    if a.Create? {
      CreateInvoices(s.db, a.invoice, a.customer);
    } else {
      assert RequestFits(s, s.requests[a.req]);
      LineInvoices(s.db, s.requests[a.req].invoice, s.requests[a.req].line);
    }
    hide InvoicesGrow, Created, LineStored, Inv, TablesFit, RequestsFit, SameStatus;
  }

  lemma GrowIssue(s: State, a: Action)
    requires Inv(s) && Enabled(s, a) && a.CommitIssue?
    ensures InvoicesGrow(s.db, Do(s, a).db) && RowsGrow(s.db, Do(s, a).db)
  {
    InvParts(s);
    SameGrows(s.db);
    assert RequestFits(s, s.requests[a.req]);
    IssueTables(s.db, s.requests[a.req].invoice, s.requests[a.req].total, a.now);
    hide InvoicesGrow, Inv, TablesFit, RequestsFit, Within;
  }

  lemma GrowStore(s: State, a: Action)
    requires Inv(s) && Enabled(s, a) && a.Store?
    ensures InvoicesGrow(s.db, Do(s, a).db) && RowsGrow(s.db, Do(s, a).db)
  {
    var id := s.requests[a.req].id;
    assert id < |s.db.attempts|;
    hide Inv, TablesFit, RequestsFit, InvoicesGrow, InvoicesFit, Do, Enabled, IsPaid, Opened;
    InvParts(s);
    StoreEffect(s, a.req, a.answer, a.now);
    AnswerKeeps(s.db.attempts[id], a.answer);
    hide Answered;
  }

  lemma AnswerKeeps(a: ControlAttempt, answer: Answer)
    ensures Answered(a, answer).invoiceId == a.invoiceId && Answered(a, answer).amount == a.amount
  {
  }

  lemma GrowQuiet(s: State, a: Action)
    requires Enabled(s, a) && !(a.Create? || a.CommitLine? || a.CommitIssue? || a.Store?)
    ensures InvoicesGrow(s.db, Do(s, a).db) && RowsGrow(s.db, Do(s, a).db)
  {
    hide CalculateTotals, FindAttempt;
  }

  lemma GrowStep(s: State, a: Action)
    requires Inv(s) && Enabled(s, a)
    ensures InvoicesGrow(s.db, Do(s, a).db) && RowsGrow(s.db, Do(s, a).db)
  {
    hide Inv, Do, Enabled, InvoicesGrow, RowsGrow;
    if a.Create? || a.CommitLine? {
      GrowDrafting(s, a);
    } else if a.CommitIssue? {
      GrowIssue(s, a);
    } else if a.Store? {
      GrowStore(s, a);
    } else {
      GrowQuiet(s, a);
    }
  }

  lemma WrongForGood(s: State, a: Action)
    requires Inv(s) && Enabled(s, a) && !AllRight(s.db)
    ensures !AllRight(Do(s, a).db)
  {
    var d, e := s.db, Do(s, a).db;
    GrowStep(s, a);
    InvParts(s);
    hide Inv, Do, Enabled, InvoicesGrow, Right, Within;
    if x :| 0 <= x < |d.attempts| && !Right(d, d.attempts[x].invoiceId, d.attempts[x].amount) {
      WrongStays(d, e, d.attempts[x].invoiceId, d.attempts[x].amount);
    } else {
      var k :| 0 <= k < |d.events| && !Right(d, d.events[k].invoiceId, d.events[k].total);
      WrongStays(d, e, d.events[k].invoiceId, d.events[k].total);
      assert e.events[k] == d.events[k];
    }
  }

  /** A line that changes the total of an issued invoice belies its InvoiceIssued event. */
  lemma LineBelies(s: State, req: ReqId)
    requires Inv(s) && Enabled(s, CommitLine(req)) && Overtakes(s, CommitLine(req))
    ensures !AllRight(Do(s, CommitLine(req)).db)
  {
    if AllRight(s.db) {
      var i := s.requests[req].invoice;
      IssuedMeans(s, i);
      var k := CountWitness(s.db.events, IsIssuedFor(i));
      var e := Do(s, CommitLine(req)).db;
      assert e.events == s.db.events;
      hide Inv, Do, TotalOf;
      assert Right(s.db, i, s.db.events[k].total);
      assert !Right(e, i, e.events[k].total);
    } else {
      WrongForGood(s, CommitLine(req));
    }
  }

  lemma OtherBelies(s: State, a: Action)
    requires Enabled(s, a) && Overtakes(s, a) && !a.CommitLine?
    ensures !AllRight(Do(s, a).db)
  {
    var e := Do(s, a).db;
    hide CalculateTotals, FindAttempt;
    if a.Insert? {
      assert e.attempts[|s.db.attempts|] == s.requests[a.req].attempt;
    } else {
      assert e.events[|s.db.events|].total == s.requests[a.req].total;
    }
  }

  /** No commit that overtakes: what is stated stays right. */
  lemma RightStep(s: State, a: Action)
    requires Inv(s) && Enabled(s, a) && AllRight(s.db) && !Overtakes(s, a)
    ensures AllRight(Do(s, a).db)
  {
    hide Inv, Do, Enabled, AllRight, Overtakes;
    if a.CommitLine? {
      LineRight(s, a.req);
    } else {
      TotalsStay(s, a);
      RightStays(s.db, Do(s, a).db);
      hide Right, TotalOf;
      NewRowsRight(s, a);
    }
  }

  lemma TotalsStay(s: State, a: Action)
    requires Enabled(s, a) && !a.CommitLine?
    ensures forall i | i in s.db.invoices :: i in Do(s, a).db.invoices && TotalOf(Do(s, a).db, i) == TotalOf(s.db, i)
  {
    hide CalculateTotals, FindAttempt;
  }

  /** Each row is an old one, or states what an old one or the committed request does. */
  lemma NewRowsRight(s: State, a: Action)
    requires Enabled(s, a) && AllRight(s.db) && !Overtakes(s, a) && !a.CommitLine?
    requires forall i, n | Right(s.db, i, n) :: Right(Do(s, a).db, i, n)
    ensures AllRight(Do(s, a).db)
  {
    var e := Do(s, a).db;
    assert a.CommitIssue? && a.failure.None? ==> Right(s.db, s.requests[a.req].invoice, s.requests[a.req].total) by { hide Do; }
    hide Right, TotalOf, FindAttempt;
  }

  lemma LineRight(s: State, req: ReqId)
    requires Inv(s) && Enabled(s, CommitLine(req)) && AllRight(s.db) && !Overtakes(s, CommitLine(req))
    ensures AllRight(Do(s, CommitLine(req)).db)
  {
    var i, e := s.requests[req].invoice, Do(s, CommitLine(req)).db;
    assert e == LineStored(s.db, i, s.requests[req].line);
    LineTotals(s.db, i, s.requests[req].line);
    if Opened(s.db, i) {
      assert TotalOf(e, i) == TotalOf(s.db, i);
      hide Inv, Do, Enabled, Overtakes, TotalOf, LineStored;
      RightStays(s.db, e);
      hide Right;
    } else {
      hide Do, Enabled, Overtakes, LineStored;
      NothingStated(s, i);
      hide Inv, TotalOf, Opened;
      OtherRightStays(s.db, e, i);
      hide Right;
    }
  }

  lemma LineTotals(d: Db, i: Uuid, l: FracLine)
    requires i in d.invoices
    ensures var e := LineStored(d, i, l);
            && e.attempts == d.attempts && e.events == d.events && i in e.invoices
            && forall j | j in d.invoices && j != i :: j in e.invoices && TotalOf(e, j) == TotalOf(d, j)
  {
    hide CalculateTotals;
  }

  lemma OtherRightStays(d: Db, e: Db, i: Uuid)
    requires forall j | j in d.invoices && j != i :: j in e.invoices && TotalOf(e, j) == TotalOf(d, j)
    ensures forall j, n | j != i && Right(d, j, n) :: Right(e, j, n)
  {
    hide TotalOf;
  }

  /** A draft has neither attempts nor events. */
  lemma NothingStated(s: State, i: Uuid)
    requires Inv(s) && !Opened(s.db, i)
    ensures forall a | 0 <= a < |s.db.attempts| :: s.db.attempts[a].invoiceId != i
    ensures forall k | 0 <= k < |s.db.events| :: s.db.events[k].invoiceId != i
  {
    InvParts(s);
    InvCounts(s, i);
    hide Within;
    NoSuccess(s, i);
    forall k | 0 <= k < |s.db.events|
      ensures s.db.events[k].invoiceId != i
    {
      if s.db.events[k].invoiceId == i {
        if s.db.events[k].InvoiceIssued? {
          CountPositive(s.db.events, k, IsIssuedFor(i));
        } else {
          CountPositive(s.db.events, k, IsPaidFor(i));
        }
      }
    }
  }

  lemma NoSuccess(s: State, i: Uuid)
    requires AttemptsFit(s.db) && !Opened(s.db, i)
    ensures Successes(s.db, i) == 0
  {
    CountZero(s.db.attempts, IsSuccessFor(i));
  }

  /**
   * Every attempt and every event states the total its invoice has now, if and only
   * if no commit overtook another one: no line was committed that changed the total
   * of an issued invoice, and no issue and no attempt with a total that lines
   * committed meanwhile had changed.
   */
  lemma {:induction false} AmountsRightIff(r: Run)
    requires Reached(r)
    ensures AllRight(Final(r).db) <==> NeverOvertakes(r)
  {
    if r.Then? {
      var s := Final(r.prefix);
      AmountsRightIff(r.prefix);
      InvHolds(r.prefix);
      hide Inv, Do, Enabled, AllRight, Overtakes;
      if !AllRight(s.db) {
        WrongForGood(s, r.a);
      } else if !Overtakes(s, r.a) {
        RightStep(s, r.a);
      } else if r.a.CommitLine? {
        LineBelies(s, r.a.req);
      } else {
        OtherBelies(s, r.a);
      }
    }
  }

  // ---- payments name their attempts ------------------------------------------------------------------

  /** An InvoicePaid event names a SUCCEEDED attempt of its invoice, and states its amount. */
  predicate NamesAttempt(db: Db, e: ControlEvent) {
    e.InvoicePaid? ==>
      && e.attempt < |db.attempts| && db.attempts[e.attempt].status == Succeeded
      && db.attempts[e.attempt].invoiceId == e.invoiceId && db.attempts[e.attempt].amount == e.total
  }

  predicate PaymentsNamed(db: Db) {
    && (forall k | 0 <= k < |db.events| :: NamesAttempt(db, db.events[k]))
    && (forall j, k | 0 <= j < k < |db.events| && db.events[j].InvoicePaid? && db.events[k].InvoicePaid? ::
          db.events[j].attempt != db.events[k].attempt)
  }

  lemma NamedStore(s: State, a: Action)
    requires Inv(s) && Enabled(s, a) && a.Store? && PaymentsNamed(s.db)
    ensures PaymentsNamed(Do(s, a).db)
  {
    InvParts(s);
    assert RequestFits(s, s.requests[a.req]);
    var id, t := s.requests[a.req].id, Do(s, a);
    assert t.db.attempts == s.db.attempts[id := Answered(s.db.attempts[id], a.answer)];
    hide CalculateTotals, RequestsFit, TablesFit, Inv;
    forall k | 0 <= k < |s.db.events|
      ensures NamesAttempt(t.db, s.db.events[k])
    {
      assert NamesAttempt(s.db, s.db.events[k]);
    }
  }

  lemma NamedOther(s: State, a: Action)
    requires Enabled(s, a) && !a.Store? && PaymentsNamed(s.db)
    ensures PaymentsNamed(Do(s, a).db)
  {
    var t := Do(s, a);
    hide CalculateTotals, FindAttempt;
    assert s.db.attempts <= t.db.attempts;
    assert t.db.events == s.db.events || (a.CommitIssue? && |t.db.events| == |s.db.events| + 1
             && t.db.events[..|s.db.events|] == s.db.events && t.db.events[|s.db.events|].InvoiceIssued?);
    hide Do, Enabled;
    forall k | 0 <= k < |t.db.events|
      ensures NamesAttempt(t.db, t.db.events[k])
    {
      if k < |s.db.events| {
        assert t.db.events[k] == s.db.events[k];
        assert NamesAttempt(s.db, s.db.events[k]);
      }
    }
  }

  /** Over every run: each InvoicePaid event is about a succeeded attempt of its own. */
  lemma {:induction false} PaymentsNameAttempts(r: Run)
    requires Reached(r)
    ensures PaymentsNamed(Final(r).db)
  {
    if r.Then? {
      PaymentsNameAttempts(r.prefix);
      InvHolds(r.prefix);
      if r.a.Store? {
        NamedStore(Final(r.prefix), r.a);
      } else {
        NamedOther(Final(r.prefix), r.a);
      }
      hide Inv, Do, Enabled, PaymentsNamed;
    }
  }

  // ---- what clients can do ---------------------------------------------------------------------------

  /** An open request is about this invoice, from what it loaded to its last commit. */
  predicate Concerns(s: State, q: ReqId, i: Uuid) {
    && q in s.requests
    && match s.requests[q]
       case Adding(j, _) => j == i
       case Issuing(j, _) => j == i
       case Loaded(a) => a.invoiceId == i
       case Processing(id) => id < |s.db.attempts| && s.db.attempts[id].invoiceId == i
  }

  /** No two open requests are about the same invoice. */
  ghost predicate Solo(s: State) {
    forall p, q, i :: Concerns(s, p, i) && Concerns(s, q, i) ==> p == q
  }

  ghost predicate OverlapFree(r: Run)
    requires IsRun(r)
  {
    Solo(Final(r)) && (r.Then? ==> OverlapFree(r.prefix))
  }

  /** The invoice is as the request saw it. */
  predicate AsSeen(s: State, q: ReqId, i: Uuid) {
    && q in s.requests && i in s.db.invoices
    && match s.requests[q]
       case Adding(_, _) => s.db.invoices[i].status == Draft
       case Issuing(_, total) => s.db.invoices[i].status == Draft && total == TotalOf(s.db, i)
       case Loaded(a) => s.db.invoices[i].status == Issued && a.amount == TotalOf(s.db, i)
       case Processing(_) => s.db.invoices[i].status == Issued
  }

  /** An invoice changes only when a request about it ends. */
  lemma InvoiceStep(s: State, a: Action, i: Uuid)
    requires Enabled(s, a) && i in s.db.invoices
    ensures i in Do(s, a).db.invoices
    ensures Do(s, a).db.invoices[i] == s.db.invoices[i] || (Ends(a) && Concerns(s, a.req, i) && a.req !in Do(s, a).requests)
  {
    hide CalculateTotals, FindAttempt;
  }

  predicate Ends(a: Action) { a.CommitLine? || a.CommitIssue? || a.Store? || a.Crash? }

  /** A request that concerns an invoice did so before and moved on at most by its own flush, or has just loaded it. */
  lemma ConcernsStep(s: State, a: Action, q: ReqId, i: Uuid)
    requires RequestsFit(s) && Enabled(s, a) && Concerns(Do(s, a), q, i)
    ensures || (Concerns(s, q, i) && Do(s, a).requests[q] == s.requests[q])
            || (Concerns(s, q, i) && s.requests[q].Loaded? && Do(s, a).requests[q].Processing?)
            || AsSeen(Do(s, a), q, i)
  {
    if q in s.requests { assert RequestFits(s, s.requests[q]); }
    hide CalculateTotals, FindAttempt, RequestsFit;
  }

  lemma SeenStays(s: State, t: State, q: ReqId, i: Uuid)
    requires AsSeen(s, q, i) && i in t.db.invoices && t.db.invoices[i] == s.db.invoices[i] && q in t.requests
    requires t.requests[q] == s.requests[q] || (s.requests[q].Loaded? && t.requests[q].Processing?)
    ensures AsSeen(t, q, i)
  {
    hide CalculateTotals;
  }

  lemma SeenHas(s: State, q: ReqId, i: Uuid)
    requires AsSeen(s, q, i)
    ensures i in s.db.invoices
  {
  }

  lemma ConcernsOpen(s: State, q: ReqId, i: Uuid)
    requires Concerns(s, q, i)
    ensures q in s.requests
  {
  }

  lemma {:induction false} OpenMeansAsSeen(r: Run, q: ReqId, i: Uuid)
    requires Reached(r) && OverlapFree(r) && Concerns(Final(r), q, i)
    ensures AsSeen(Final(r), q, i)
  {
    if r.Then? {
      var s, a := Final(r.prefix), r.a;
      InvHolds(r.prefix);
      InvParts(s);
      hide Inv, Do, Enabled, Concerns, AsSeen, RequestsFit, TablesFit;
      ConcernsStep(s, a, q, i);
      ConcernsOpen(Do(s, a), q, i);
      if !AsSeen(Do(s, a), q, i) {
        OpenMeansAsSeen(r.prefix, q, i);
        SeenHas(s, q, i);
        InvoiceStep(s, a, i);
        SeenStays(s, Do(s, a), q, i);
      }
    }
  }

  /** Nothing that a request about an unchanged invoice does is harmful. */
  lemma SeenIsHarmless(s: State, a: Action)
    requires Inv(s) && Enabled(s, a)
    requires forall q, i | Concerns(s, q, i) :: AsSeen(s, q, i)
    ensures !Repays(s, a) && !Unpays(s, a) && !Reissues(s, a) && !Overtakes(s, a)
  {
    InvParts(s);
    hide CalculateTotals, FindAttempt, TablesFit, Inv;
    if a.CommitLine? || a.CommitIssue? {
      assert Concerns(s, a.req, s.requests[a.req].invoice);
    } else if a.Insert? {
      assert Concerns(s, a.req, s.requests[a.req].attempt.invoiceId);
    } else if a.Store? {
      assert Concerns(s, a.req, s.db.attempts[s.requests[a.req].id].invoiceId);
    }
  }

  /**
   * If the requests for one invoice - lines, issues and payments - do not overlap,
   * it is paid at most once, issued once, and everything that states an amount
   * states its total.
   */
  lemma {:induction false} NoOverlapIsSafe(r: Run)
    requires Reached(r) && OverlapFree(r)
    ensures NeverRepays(r) && NeverUnpays(r) && NeverReissues(r) && NeverOvertakes(r)
    ensures AllPaidOnce(Final(r).db) && AllIssuedOnce(Final(r).db) && AllRight(Final(r).db)
  {
    if r.Then? {
      NoOverlapIsSafe(r.prefix);
      var s := Final(r.prefix);
      forall q, i | Concerns(s, q, i)
        ensures AsSeen(s, q, i)
      {
        OpenMeansAsSeen(r.prefix, q, i);
      }
      InvHolds(r.prefix);
      hide Inv, Do, Enabled, Concerns, AsSeen, Repays, Unpays, Reissues, Overtakes, AllPaidOnce, AllIssuedOnce, AllRight;
      SeenIsHarmless(s, r.a);
    }
    PaidOnceIff(r);
    IssuedOnceIff(r);
    AmountsRightIff(r);
    hide AllPaidOnce, AllIssuedOnce, AllRight;
  }

  // ---- ... and that is needed ------------------------------------------------------------------------

  /** Two open calls for one invoice can always both pay it. */
  lemma OverlapCanPayTwice(r: Run, p: ReqId, q: ReqId, i: Uuid, a: Answer, b: Answer) returns (t: Run)
    requires Reached(r) && p != q && Concerns(Final(r), p, i) && Concerns(Final(r), q, i)
    requires Final(r).requests[p].Processing? && Final(r).requests[q].Processing? && Pays(a) && Pays(b)
    ensures t == Then(Then(r, Store(p, a, 0)), Store(q, b, 0)) && Reached(t)
    ensures Successes(Final(t).db, i) == Successes(Final(r).db, i) + 2
    ensures PaidEvents(Final(t).db, i) == PaidEvents(Final(r).db, i) + 2
  {
    var s := Final(r);
    InvHolds(r);
    BothStore(s, p, q, i, a);
    var u := Step(r, Store(p, a, 0));
    InvHolds(u);
    InvParts(s);
    InvParts(Final(u));
    StoreCounts(s, p, a, 0, i);
    StoreCounts(Final(u), q, b, 0, i);
    hide Inv, Do, Successes, PaidEvents, IssuedEvents, Concerns;
    t := Step(u, Store(q, b, 0));
  }

  lemma BothStore(s: State, p: ReqId, q: ReqId, i: Uuid, a: Answer)
    requires Inv(s) && p != q && Concerns(s, p, i) && Concerns(s, q, i)
    requires s.requests[p].Processing? && s.requests[q].Processing?
    ensures Enabled(s, Store(p, a, 0))
    ensures var u := Do(s, Store(p, a, 0));
            && (forall b :: Enabled(u, Store(q, b, 0)))
            && q in u.requests && u.requests[q] == s.requests[q] && u.db.attempts[u.requests[q].id].invoiceId == i
    ensures s.db.attempts[s.requests[p].id].invoiceId == i
  {
    InvParts(s);
    assert Opened(s.db, s.db.attempts[s.requests[p].id].invoiceId);
    hide CalculateTotals, CountsFit, RequestsFit;
  }

  /**
   * An issue still open when its invoice has been paid can always be committed: then
   * the invoice is ISSUED again, with the payment it has had, and every new key may
   * collect it once more.
   */
  lemma LateIssueUnpays(r: Run, q: ReqId, i: Uuid, now: int) returns (t: Run)
    requires Reached(r) && IsPaid(Final(r).db, i)
    requires q in Final(r).requests && Final(r).requests[q].Issuing? && Final(r).requests[q].invoice == i
    ensures Reached(t) && t == Then(r, CommitIssue(q, None, now)) && !AllPaidOnce(Final(t).db)
    ensures i in Final(t).db.invoices && Final(t).db.invoices[i].status == Issued && Successes(Final(t).db, i) >= 1
    ensures forall key | FindAttempt(Final(t).db.attempts, i, key).None? :: Begin(Final(t).db, i, key).Ready?
  {
    var s, a := Final(r), CommitIssue(q, None, now);
    InvHolds(r);
    InvCounts(s, i);
    t := Step(r, a);
    CountStep(s, a, i);
    AllPaidOnceStep(s, a);
    hide CalculateTotals, TotalOf, Inv, FindAttempt, Successes, AllPaidOnce;
  }
}

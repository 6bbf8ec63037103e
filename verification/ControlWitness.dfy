/** Concrete runs of the control service: the conditions in its theorems are needed. */
module ControlWitness {
  import opened Prelude
  import opened Codec
  import opened HalfUp
  import opened InvoiceModel
  import opened ControlService
  import opened ControlSystem
  import opened ControlTheorems

  const PAID_NOW := Gave(Succeeded, None, None, None)

  /** One more step that repays nothing. */
  lemma Quietly(r: Run, a: Action) returns (q: Run)
    requires Reached(r) && NeverRepays(r) && Enabled(Final(r), a) && !Repays(Final(r), a)
    ensures q == Then(r, a) && Reached(q) && NeverRepays(q) && Final(q) == Do(Final(r), a)
  {
    q := Step(r, a);
    hide Do, Enabled, Repays;
  }

  /** One customer and a draft with one line. */
  lemma Drafted(c: Uuid, i: Uuid) returns (r: Run)
    ensures Reached(r) && NeverRepays(r)
    ensures var s := Final(r);
            && s.requests == map[] && s.db.attempts == [] && i in s.db.invoices
            && s.db.invoices[i] == ControlInvoice(c, Draft, None, None, [FracLine(100, 100, 0)])
  {
    r := Start(Empty({c}));
    hide CalculateTotals;
    r := Quietly(r, Create(i, c));
    r := Quietly(r, LoadLine(0, i, FracLine(100, 100, 0)));
    r := Quietly(r, CommitLine(0));
  }

  lemma IssuedInvoice(c: Uuid, i: Uuid) returns (r: Run)
    ensures Reached(r) && NeverRepays(r)
    ensures var s := Final(r);
            && s.requests == map[] && s.db.attempts == [] && i in s.db.invoices && s.db.invoices[i].status == Issued
  {
    r := Drafted(c, i);
    hide CalculateTotals;
    r := Quietly(r, LoadIssue(0, i));
    r := Quietly(r, CommitIssue(0, None, 0));
  }

  /** A payment request up to its committed attempt. */
  lemma OpenOne(r0: Run, req: ReqId, i: Uuid, key: string) returns (r: Run)
    requires Reached(r0) && NeverRepays(r0)
    requires i in Final(r0).db.invoices && Final(r0).db.invoices[i].status == Issued
    requires req !in Final(r0).requests && FindAttempt(Final(r0).db.attempts, i, key) == None
    ensures Reached(r) && NeverRepays(r)
    ensures var s := Final(r0); var t := Final(r); var n := |s.db.attempts|;
            && t.db.invoices == s.db.invoices && t.requests == s.requests[req := Processing(n)]
            && |t.db.attempts| == n + 1 && t.db.attempts[..n] == s.db.attempts
            && t.db.attempts[n].invoiceId == i && t.db.attempts[n].key == key
  {
    hide CalculateTotals, FindAttempt;
    r := Quietly(r0, Load(req, i, key));
    r := Quietly(r, Insert(req));
  }

  /** A whole payment request that nothing overlaps. */
  lemma PayAlone(r0: Run, req: ReqId, i: Uuid, key: string) returns (r: Run)
    requires Reached(r0) && NeverRepays(r0)
    requires i in Final(r0).db.invoices && Final(r0).db.invoices[i].status == Issued
    requires req !in Final(r0).requests && FindAttempt(Final(r0).db.attempts, i, key) == None
    ensures Reached(r) && NeverRepays(r)
    ensures var s := Final(r0); var t := Final(r); var n := |s.db.attempts|;
            && t.requests == s.requests && IsPaid(t.db, i)
            && |t.db.attempts| == n + 1 && t.db.attempts[..n] == s.db.attempts && t.db.attempts[n].key == key
            && t.db.attempts[n].status == Succeeded && t.db.attempts[n].invoiceId == i
  {
    r := OpenOne(r0, req, i, key);
    var s := Final(r);
    hide CalculateTotals, FindAttempt;
    r := Quietly(r, Store(req, PAID_NOW, 0));
    assert s.requests - {req} == Final(r0).requests;
    assert Final(r).db.attempts[..|Final(r0).db.attempts|] == Final(r0).db.attempts;
  }

  /** Two overlapping payment requests with keys of their own, and two payments of one invoice. */
  lemma OverlapPaysTwice(c: Uuid, i: Uuid) returns (r: Run)
    ensures Reached(r) && !NeverRepays(r)
    ensures Successes(Final(r).db, i) >= 2 && PaidEvents(Final(r).db, i) >= 2
  {
    r := IssuedInvoice(c, i);
    r := OpenOne(r, 1, i, "a");
    assert "a"[0] != "b"[0];
    assert Final(r).db.attempts[0].key == "a";
    r := OpenOne(r, 2, i, "b");
    hide Do, Enabled;
    r := OverlapCanPayTwice(r, 1, 2, i, PAID_NOW, PAID_NOW);
    TwiceIsRepaid(r, i);
  }

  /** The second of the two stores repays. */
  lemma TwiceIsRepaid(r: Run, i: Uuid)
    requires Reached(r) && r.Then? && r.prefix.Then? && r.a.Store? && r.prefix.a.Store?
    requires Pays(r.a.answer) && Pays(r.prefix.a.answer)
    requires Successes(Final(r).db, i) == Successes(Final(r.prefix.prefix).db, i) + 2
    ensures !NeverRepays(r)
  {
    var s, u := Final(r.prefix.prefix), Final(r.prefix);
    InvHolds(r.prefix.prefix);
    InvHolds(r.prefix);
    CountStep(s, r.prefix.a, i);
    CountStep(u, r.a, i);
    StatusStep(s, r.prefix.a, i);
    hide Do, Enabled, Inv, Successes;
  }

  /** Two issue requests have loaded the draft, and one of them is committed. */
  lemma IssueStillOpen(c: Uuid, i: Uuid) returns (r: Run)
    ensures Reached(r) && NeverRepays(r)
    ensures var s := Final(r);
            && s.requests.Keys == {1} && s.requests[1].Issuing? && s.requests[1].invoice == i
            && s.db.attempts == [] && i in s.db.invoices && s.db.invoices[i].status == Issued
  {
    r := Drafted(c, i);
    hide CalculateTotals;
    r := Quietly(r, LoadIssue(1, i));
    r := Quietly(r, LoadIssue(2, i));
    r := Quietly(r, CommitIssue(2, None, 0));
  }

  /**
   * Two issue requests overlap, the invoice is paid by a payment request that
   * nothing overlaps, the second issue is committed, and another payment request
   * that nothing overlaps pays it again.  No success is ever stored for a PAID invoice.
   */
  lemma LateIssuePaysTwice(c: Uuid, i: Uuid) returns (r: Run)
    ensures Reached(r) && NeverRepays(r) && !NeverUnpays(r)
    ensures Successes(Final(r).db, i) >= 2 && !AllPaidOnce(Final(r).db)
  {
    r := IssueStillOpen(c, i);
    r := PayAlone(r, 3, i, "a");
    var paid := Final(r);
    assert "a"[0] != "b"[0];
    assert paid.db.attempts[0].key == "a";
    var q := LateIssueUnpays(r, 1, i, 0);
    hide CalculateTotals, Do, Enabled, Inv;
    q := Quietly(r, CommitIssue(1, None, 0));
    LateIssueKeeps(paid, 1, 0);
    assert !NeverUnpays(q) by { PaidOnceIff(q); }
    r := PayAlone(q, 3, i, "b");
    TwoSuccesses(Final(r).db, i, paid.db.attempts);
    UnpaidForGood(r, i);
  }

  lemma LateIssueKeeps(s: State, q: ReqId, now: int)
    requires Enabled(s, CommitIssue(q, None, now))
    ensures Do(s, CommitIssue(q, None, now)).db.attempts == s.db.attempts
    ensures Do(s, CommitIssue(q, None, now)).requests == s.requests - {q}
  {
  }

  lemma TwoSuccesses(db: Db, i: Uuid, first: seq<ControlAttempt>)
    requires |first| == 1 && |db.attempts| == 2 && db.attempts[..1] == first
    requires first[0].status == Succeeded && first[0].invoiceId == i
    requires db.attempts[1].status == Succeeded && db.attempts[1].invoiceId == i
    ensures Successes(db, i) == 2
  {
    assert db.attempts == first + [db.attempts[1]];
    CountAppend(first, db.attempts[1], IsSuccessFor(i));
    assert first == [] + [first[0]];
    CountAppend([], first[0], IsSuccessFor(i));
  }

  lemma UnpaidForGood(r: Run, i: Uuid)
    requires Reached(r) && NeverRepays(r) && Successes(Final(r).db, i) >= 2
    ensures !NeverUnpays(r) && !AllPaidOnce(Final(r).db)
  {
    PaidOnceIff(r);
    assert !PaidOnce(Final(r).db, i);
  }

  /** A line request that has loaded the draft is committed after the issue: the invoice announced is not the invoice stored. */
  lemma LateLineChangesTotal(c: Uuid, i: Uuid) returns (r: Run)
    ensures Reached(r) && NeverRepays(r) && !NeverOvertakes(r)
    ensures Opened(Final(r).db, i) && !AllRight(Final(r).db)
  {
    var l := FracLine(100, 100, 0);
    r := Drafted(c, i);
    TotalOfOnes(l);
    hide CalculateTotals;
    r := Quietly(r, LoadLine(1, i, l));
    r := Quietly(r, LoadIssue(2, i));
    r := Quietly(r, CommitIssue(2, None, 0));
    assert Overtakes(Final(r), CommitLine(1));
    r := Quietly(r, CommitLine(1));
    AmountsRightIff(r);
  }

  lemma TotalOfOnes(l: FracLine)
    requires l == FracLine(100, 100, 0)
    ensures CalculateTotals([l]).total == 100 && CalculateTotals([l] + [l]).total == 200
  {
    assert RawAmount(l) == 10_000 && RawTax(l) == 0;
    assert [l][..0] == [];
    assert SumRawAmounts([l]) == 10_000 && SumRawTaxes([l]) == 0;
    assert ([l] + [l])[..1] == [l] && ([l] + [l])[1] == l;
    hide RawAmount, RawTax;
    assert SumRawAmounts([l] + [l]) == 20_000 && SumRawTaxes([l] + [l]) == 0;
  }
}

/**
 * The control service with overlapping requests.  It uses no transaction blocks: a
 * request loads what it checks, and writes at a later commit without looking again.
 * Between a line's check and its commit, an issue's check and its commit (the email
 * is awaited there), and around the attempt's commit and the provider call of a
 * payment, other requests may do anything, and the request may crash.
 */
module ControlSystem {
  import opened Prelude
  import opened Codec
  import opened HalfUp
  import opened InvoiceModel
  import opened ControlService

  type ReqId = nat

  /** Where a request is. */
  datatype Pc =
    | Adding(invoice: Uuid, line: FracLine)   // invoice seen as a draft, line not committed
    | Issuing(invoice: Uuid, total: int)      // invoice seen as a draft with this total, email under way
    | Loaded(attempt: ControlAttempt)         // attempt built, not committed
    | Processing(id: nat)                     // attempt committed, provider call in flight

  datatype State = State(db: Db, requests: map<ReqId, Pc>)

  datatype Action =
    | Create(invoice: Uuid, customer: Uuid)
    | LoadLine(req: ReqId, invoice: Uuid, line: FracLine)
    | CommitLine(req: ReqId)
    | LoadIssue(req: ReqId, invoice: Uuid)
    | CommitIssue(req: ReqId, failure: Option<string>, now: int)   // failure: what the email provider raised
    | Load(req: ReqId, invoice: Uuid, key: string)
    | Insert(req: ReqId)
    | Store(req: ReqId, answer: Answer, now: int)
    | Crash(req: ReqId)

  predicate Enabled(s: State, a: Action) {
    match a
    case Create(_, _) => true
    case LoadLine(req, _, _) => req !in s.requests
    case CommitLine(req) => req in s.requests && s.requests[req].Adding? && s.requests[req].invoice in s.db.invoices
    case LoadIssue(req, _) => req !in s.requests
    case CommitIssue(req, _, _) => req in s.requests && s.requests[req].Issuing? && s.requests[req].invoice in s.db.invoices
    case Load(req, _, _) => req !in s.requests
    case Insert(req) => req in s.requests && s.requests[req].Loaded?
    case Store(req, _, _) =>
      && req in s.requests && s.requests[req].Processing? && s.requests[req].id < |s.db.attempts|
      && s.db.attempts[s.requests[req].id].invoiceId in s.db.invoices
    case Crash(req) => req in s.requests
  }

  function Kept(db: Db, r: Result<Db, AppError>): Db { if r.Ok? then r.value else db }

  // A request that answered or raised is no longer there.

  function DoLoadLine(s: State, req: ReqId, id: Uuid, l: FracLine): State {
    if LineRefused(s.db, id, l).Some? then s else s.(requests := s.requests[req := Adding(id, l)])
  }

  function DoLoadIssue(s: State, req: ReqId, id: Uuid): State {
    if IssueRefused(s.db, id).Some? then s else s.(requests := s.requests[req := Issuing(id, TotalOf(s.db, id))])
  }

  function DoLoad(s: State, req: ReqId, id: Uuid, key: string): State {
    var b := Begin(s.db, id, key);
    if b.Ready? then s.(requests := s.requests[req := Loaded(b.built)]) else s
  }

  function DoInsert(s: State, req: ReqId, a: ControlAttempt): State {
    if FindAttempt(s.db.attempts, a.invoiceId, a.key).Some? then s.(requests := s.requests - {req})
    else State(Inserted(s.db, a), s.requests[req := Processing(|s.db.attempts|)])
  }

  function Do(s: State, a: Action): State
    requires Enabled(s, a)
  {
    match a
    case Create(id, customer) => s.(db := Kept(s.db, Created(s.db, id, customer)))
    case LoadLine(req, id, l) => DoLoadLine(s, req, id, l)
    case CommitLine(req) => State(LineStored(s.db, s.requests[req].invoice, s.requests[req].line), s.requests - {req})
    case LoadIssue(req, id) => DoLoadIssue(s, req, id)
    case CommitIssue(req, failure, now) =>
      State(if failure.Some? then s.db else IssueStored(s.db, s.requests[req].invoice, s.requests[req].total, now),
            s.requests - {req})
    case Load(req, id, key) => DoLoad(s, req, id, key)
    case Insert(req) => DoInsert(s, req, s.requests[req].attempt)
    case Store(req, answer, now) => State(Finish(s.db, s.requests[req].id, answer, now), s.requests - {req})
    case Crash(req) => s.(requests := s.requests - {req})
  }

  datatype Run = Start(init: State) | Then(prefix: Run, a: Action)

  predicate IsRun(r: Run)
    decreases r, 0
  {
    r.Then? ==> IsRun(r.prefix) && Enabled(Final(r.prefix), r.a)
  }

  function Final(r: Run): State
    requires IsRun(r)
    decreases r, 1
  {
    if r.Start? then r.init else Do(Final(r.prefix), r.a)
  }

  function Empty(customers: set<Uuid>): State { State(Db(customers, map[], [], []), map[]) }

  /** A run from an empty database. */
  predicate Reached(r: Run) {
    IsRun(r) && (if r.Start? then r.init == Empty(r.init.db.customers) else Reached(r.prefix))
  }

  predicate Extends(r: Run, q: Run) { r == q || (r.Then? && Extends(r.prefix, q)) }

  lemma Step(r: Run, a: Action) returns (q: Run)
    requires Reached(r) && Enabled(Final(r), a)
    ensures q == Then(r, a) && Reached(q) && Final(q) == Do(Final(r), a) && Extends(q, r)
  {
    q := Then(r, a);
    hide Do, Enabled;
  }

  // ---- what every step keeps ------------------------------------------------------------------

  predicate Opened(db: Db, id: Uuid) { id in db.invoices && db.invoices[id].status != Draft }

  predicate IsPaid(db: Db, id: Uuid) { id in db.invoices && db.invoices[id].status == Paid }

  /** The amount is not more than the invoice's total; lines may have been added since it was computed. */
  predicate Within(db: Db, id: Uuid, amount: int) { id in db.invoices && amount <= TotalOf(db, id) }

  predicate InvoicesFit(db: Db) {
    forall i | i in db.invoices ::
      ValidFracLines(db.invoices[i].lines) && (db.invoices[i].status != Draft ==> db.invoices[i].lines != [])
  }

  predicate AttemptsFit(db: Db) {
    && (forall a | 0 <= a < |db.attempts| ::
          Opened(db, db.attempts[a].invoiceId) && Within(db, db.attempts[a].invoiceId, db.attempts[a].amount))
    && (forall a, b | 0 <= a < b < |db.attempts| ::
          !(db.attempts[a].invoiceId == db.attempts[b].invoiceId && db.attempts[a].key == db.attempts[b].key))
  }

  predicate EventsFit(db: Db) {
    forall k | 0 <= k < |db.events| :: Within(db, db.events[k].invoiceId, db.events[k].total)
  }

  predicate RequestFits(s: State, pc: Pc) {
    match pc
    case Adding(i, l) => i in s.db.invoices && ValidFracLine(l)
    case Issuing(i, total) => Within(s.db, i, total) && s.db.invoices[i].lines != []
    case Loaded(a) => a.status == Pending && Opened(s.db, a.invoiceId) && Within(s.db, a.invoiceId, a.amount)
    case Processing(id) => id < |s.db.attempts| && s.db.attempts[id].status == Pending
  }

  predicate RequestsFit(s: State) {
    && (forall q | q in s.requests :: RequestFits(s, s.requests[q]))
    && (forall p, q | p in s.requests && q in s.requests && p != q && s.requests[p].Processing? && s.requests[q].Processing? ::
          s.requests[p].id != s.requests[q].id)
  }

  /**
   * As many InvoicePaid events as succeeded attempts; PAID means that there is one;
   * an InvoiceIssued event exactly for the invoices that are no drafts.
   */
  predicate CountsFit(db: Db, id: Uuid) {
    && PaidEvents(db, id) == Successes(db, id)
    && (IsPaid(db, id) ==> Successes(db, id) >= 1)
    && (Opened(db, id) <==> IssuedEvents(db, id) >= 1)
  }

  ghost predicate AllCountsFit(db: Db) { forall id :: CountsFit(db, id) }

  predicate TablesFit(db: Db) { InvoicesFit(db) && AttemptsFit(db) && EventsFit(db) }

  ghost predicate Inv(s: State) { TablesFit(s.db) && RequestsFit(s) && AllCountsFit(s.db) }

  /** Lines are only appended, statuses never go back to DRAFT, and totals never shrink. */
  predicate InvoicesGrow(d: Db, e: Db) {
    forall i | i in d.invoices ::
      && i in e.invoices && d.invoices[i].lines <= e.invoices[i].lines && TotalOf(d, i) <= TotalOf(e, i)
      && (d.invoices[i].status != Draft ==> e.invoices[i].status != Draft)
  }

  lemma WithinStays(d: Db, e: Db)
    requires InvoicesGrow(d, e)
    ensures forall i, n | Within(d, i, n) :: Within(e, i, n)
    ensures forall i | Opened(d, i) :: Opened(e, i)
    ensures forall i | i in d.invoices :: i in e.invoices && (d.invoices[i].lines != [] ==> e.invoices[i].lines != [])
  {
    hide TotalOf;
  }

  /** Requests that are still open and where they were. */
  lemma RequestsFrame(s: State, t: State)
    requires RequestsFit(s) && InvoicesGrow(s.db, t.db)
    requires forall q | q in t.requests :: q in s.requests && t.requests[q] == s.requests[q]
    requires forall q | q in t.requests && t.requests[q].Processing? && t.requests[q].id < |s.db.attempts| ::
               t.requests[q].id < |t.db.attempts| && t.db.attempts[t.requests[q].id] == s.db.attempts[t.requests[q].id]
    ensures RequestsFit(t)
  {
    WithinStays(s.db, t.db);
    hide InvoicesGrow, Within, Opened;
    forall q | q in t.requests
      ensures RequestFits(t, t.requests[q])
    {
      assert RequestFits(s, s.requests[q]);
      if t.requests[q].Issuing? {
        WithinHas(s.db, t.requests[q].invoice, t.requests[q].total);
      }
    }
  }

  lemma WithinHas(db: Db, id: Uuid, n: int)
    requires Within(db, id, n)
    ensures id in db.invoices
  {
  }

  /** Attempts and events stay, invoices grow. */
  lemma TablesFrame(d: Db, e: Db)
    requires TablesFit(d) && InvoicesGrow(d, e) && InvoicesFit(e) && e.attempts == d.attempts && e.events == d.events
    ensures TablesFit(e)
  {
    WithinStays(d, e);
    hide InvoicesGrow, InvoicesFit, Within, Opened;
  }

  // ---- loading and crashing ---------------------------------------------------------------------

  lemma SameGrows(db: Db)
    ensures InvoicesGrow(db, db)
  {
    hide TotalOf;
  }

  lemma OneMoreFits(s: State, t: State, req: ReqId, pc: Pc)
    requires RequestsFit(s) && req !in s.requests && t == s.(requests := s.requests[req := pc])
    requires RequestFits(t, pc) && !pc.Processing?
    ensures RequestsFit(t)
  {
    hide Within, Opened;
    forall q | q in t.requests
      ensures RequestFits(t, t.requests[q])
    {
      if q != req { assert RequestFits(s, s.requests[q]); }
    }
  }

  lemma LoadKeeps(s: State, a: Action)
    requires Inv(s) && Enabled(s, a) && (a.LoadLine? || a.LoadIssue? || a.Load?)
    ensures Inv(Do(s, a))
  {
    var t := Do(s, a);
    hide TablesFit, AllCountsFit, RequestsFit, FindAttempt, TotalOf;
    if t != s {
      OneMoreFits(s, t, a.req, t.requests[a.req]);
    }
  }

  /** The request ends and nothing else happens. */
  lemma EndKeeps(s: State, req: ReqId)
    requires Inv(s)
    ensures Inv(s.(requests := s.requests - {req}))
  {
    SameGrows(s.db);
    RequestsFrame(s, s.(requests := s.requests - {req}));
    hide InvoicesGrow, RequestsFit, TablesFit, AllCountsFit;
  }

  // ---- drafting -------------------------------------------------------------------------------------

  lemma CreateKeeps(s: State, id: Uuid, customer: Uuid)
    requires Inv(s)
    ensures Inv(s.(db := Kept(s.db, Created(s.db, id, customer))))
    ensures InvoicesGrow(s.db, Kept(s.db, Created(s.db, id, customer)))
  {
    var t := s.(db := Kept(s.db, Created(s.db, id, customer)));
    CreateInvoices(s.db, id, customer);
    hide InvoicesGrow, InvoicesFit, RequestsFit, TablesFit, CountsFit, Created;
    assert InvoicesFit(s.db) by { TableParts(s.db); }
    RequestsFrame(s, t);
    TablesFrame(s.db, t.db);
    forall i
      ensures CountsFit(t.db, i)
    {
      assert CountsFit(s.db, i);
      CountsFrame(s.db, t.db, i);
    }
  }

  lemma TableParts(db: Db)
    requires TablesFit(db)
    ensures InvoicesFit(db) && AttemptsFit(db) && EventsFit(db)
  {
  }

  lemma CreateInvoices(d: Db, id: Uuid, customer: Uuid)
    requires TablesFit(d)
    ensures var e := Kept(d, Created(d, id, customer));
            && InvoicesGrow(d, e) && InvoicesFit(e) && e.attempts == d.attempts && e.events == d.events
            && forall i :: SameStatus(d, e, i)
  {
    hide CalculateTotals, AttemptsFit, EventsFit;
  }

  predicate SameStatus(d: Db, e: Db, i: Uuid) {
    (IsPaid(e, i) <==> IsPaid(d, i)) && (Opened(e, i) <==> Opened(d, i))
  }

  lemma CountsFrame(d: Db, e: Db, i: Uuid)
    requires CountsFit(d, i) && e.attempts == d.attempts && e.events == d.events && SameStatus(d, e, i)
    ensures CountsFit(e, i)
  {
    hide CountIf;
  }

  lemma LineInvoices(d: Db, id: Uuid, l: FracLine)
    requires TablesFit(d) && id in d.invoices && ValidFracLine(l)
    ensures var e := LineStored(d, id, l);
            && InvoicesGrow(d, e) && InvoicesFit(e) && e.attempts == d.attempts && e.events == d.events
            && forall i :: SameStatus(d, e, i)
  {
    TableParts(d);
    TotalGrows(d.invoices[id].lines, l);
    AppendedFit(d.invoices[id].lines, l);
    hide TablesFit, AttemptsFit, EventsFit, InvoicesFit, InvoicesGrow, CalculateTotals, ValidFracLines, SameStatus;
    LineGrows(d, id, l);
    LineFits(d, id, l);
    LineStatus(d, id, l);
  }

  lemma LineGrows(d: Db, id: Uuid, l: FracLine)
    requires id in d.invoices && TotalOf(d, id) <= CalculateTotals(d.invoices[id].lines + [l]).total
    ensures InvoicesGrow(d, LineStored(d, id, l))
  {
    hide CalculateTotals;
  }

  lemma LineFits(d: Db, id: Uuid, l: FracLine)
    requires InvoicesFit(d) && id in d.invoices && ValidFracLines(d.invoices[id].lines + [l])
    ensures InvoicesFit(LineStored(d, id, l))
  {
    hide ValidFracLines;
  }

  lemma LineStatus(d: Db, id: Uuid, l: FracLine)
    requires id in d.invoices
    ensures forall i :: SameStatus(d, LineStored(d, id, l), i)
  {
  }

  lemma AppendedFit(lines: seq<FracLine>, l: FracLine)
    requires ValidFracLines(lines) && ValidFracLine(l)
    ensures ValidFracLines(lines + [l])
  {
  }

  lemma CommitLineKeeps(s: State, req: ReqId)
    requires Inv(s) && Enabled(s, CommitLine(req))
    ensures Inv(Do(s, CommitLine(req)))
  {
    var t, pc := Do(s, CommitLine(req)), s.requests[req];
    assert RequestFits(s, pc);
    LineInvoices(s.db, pc.invoice, pc.line);
    hide InvoicesGrow, InvoicesFit, RequestsFit, TablesFit, CountsFit, LineStored;
    RequestsFrame(s, t);
    TablesFrame(s.db, t.db);
    forall i
      ensures CountsFit(t.db, i)
    {
      assert CountsFit(s.db, i);
      CountsFrame(s.db, t.db, i);
    }
  }

  // ---- issuing --------------------------------------------------------------------------------------

  lemma IssueTables(d: Db, id: Uuid, total: int, now: int)
    requires TablesFit(d) && Within(d, id, total) && d.invoices[id].lines != []
    ensures InvoicesGrow(d, IssueStored(d, id, total, now)) && TablesFit(IssueStored(d, id, total, now))
  {
    var e := IssueStored(d, id, total, now);
    assert InvoicesGrow(d, e) && InvoicesFit(e) by { hide CalculateTotals, AttemptsFit, EventsFit; }
    WithinStays(d, e);
    hide InvoicesGrow, InvoicesFit, Within, Opened;
  }

  lemma IssueCounts(d: Db, id: Uuid, total: int, now: int, i: Uuid)
    requires CountsFit(d, i) && id in d.invoices
    ensures CountsFit(IssueStored(d, id, total, now), i)
    ensures var e := IssueStored(d, id, total, now);
            && Successes(e, i) == Successes(d, i)
            && IssuedEvents(e, i) == IssuedEvents(d, i) + (if i == id then 1 else 0)
  {
    var x := InvoiceIssued(id, d.invoices[id].customerId, total);
    CountAppend(d.events, x, IsIssuedFor(i));
    CountAppend(d.events, x, IsPaidFor(i));
  }

  lemma CommitIssueKeeps(s: State, req: ReqId, failure: Option<string>, now: int)
    requires Inv(s) && Enabled(s, CommitIssue(req, failure, now))
    ensures Inv(Do(s, CommitIssue(req, failure, now)))
  {
    if failure.Some? {
      EndKeeps(s, req);
    } else {
      var t, pc := Do(s, CommitIssue(req, failure, now)), s.requests[req];
      assert RequestFits(s, pc);
      IssueTables(s.db, pc.invoice, pc.total, now);
      SameAttempts(s.db, pc.invoice, pc.total, now);
      hide InvoicesGrow, RequestsFit, TablesFit, CountsFit, IssueStored;
      RequestsFrame(s, t);
      forall i
        ensures CountsFit(t.db, i)
      {
        assert CountsFit(s.db, i);
        IssueCounts(s.db, pc.invoice, pc.total, now, i);
      }
    }
  }

  lemma SameAttempts(d: Db, id: Uuid, total: int, now: int)
    requires id in d.invoices
    ensures IssueStored(d, id, total, now).attempts == d.attempts
  {
  }

  // ---- paying ---------------------------------------------------------------------------------------

  lemma InsertTables(d: Db, e: Db, a: ControlAttempt)
    requires TablesFit(d) && Opened(d, a.invoiceId) && Within(d, a.invoiceId, a.amount)
    requires FindAttempt(d.attempts, a.invoiceId, a.key).None? && e == d.(attempts := d.attempts + [a])
    ensures TablesFit(e)
  {
    assert InvoicesGrow(d, e) by { hide TotalOf; }
    WithinStays(d, e);
    hide Within, Opened, InvoicesGrow, ValidFracLines;
  }

  lemma InsertRequests(s: State, req: ReqId, a: ControlAttempt)
    requires RequestsFit(s) && req in s.requests && s.requests[req] == Loaded(a)
    ensures RequestsFit(DoInsert(s, req, a))
  {
    var t := DoInsert(s, req, a);
    hide CalculateTotals, FindAttempt;
    assert RequestFits(s, s.requests[req]);
    forall q | q in t.requests
      ensures RequestFits(t, t.requests[q])
    {
      assert RequestFits(s, s.requests[q]);
    }
    forall p, q | p in t.requests && q in t.requests && p != q && t.requests[p].Processing? && t.requests[q].Processing?
      ensures t.requests[p].id != t.requests[q].id
    {
      assert RequestFits(s, s.requests[p]) && RequestFits(s, s.requests[q]);
    }
  }

  lemma InsertKeeps(s: State, req: ReqId, a: ControlAttempt)
    requires Inv(s) && req in s.requests && s.requests[req] == Loaded(a)
    ensures Inv(DoInsert(s, req, a))
  {
    var t := DoInsert(s, req, a);
    assert RequestFits(s, s.requests[req]);
    InsertRequests(s, req, a);
    if FindAttempt(s.db.attempts, a.invoiceId, a.key).None? {
      InsertTables(s.db, t.db, a);
      forall id
        ensures CountsFit(t.db, id)
      {
        assert CountsFit(s.db, id);
        CountAppend(s.db.attempts, a, IsSuccessFor(id));
      }
    }
    hide TablesFit, RequestsFit, CountsFit;
  }

  /** What the last commit does to the tables. */
  lemma StoreEffect(s: State, req: ReqId, answer: Answer, now: int)
    requires Enabled(s, Store(req, answer, now)) && TablesFit(s.db)
    ensures var t := Do(s, Store(req, answer, now)); var id := s.requests[req].id;
            && t.requests == s.requests - {req} && InvoicesGrow(s.db, t.db) && InvoicesFit(t.db)
            && t.db.attempts == s.db.attempts[id := Answered(s.db.attempts[id], answer)]
            && (|| t.db.events == s.db.events
                || t.db.events == s.db.events + [InvoicePaid(s.db.attempts[id].invoiceId, id, s.db.attempts[id].amount)])
            && (forall i :: IsPaid(t.db, i) <==> IsPaid(s.db, i) || (Pays(answer) && i == s.db.attempts[id].invoiceId))
            && (forall i :: Opened(t.db, i) <==> Opened(s.db, i))
  {
    var x := s.db.attempts[s.requests[req].id];
    assert Opened(s.db, x.invoiceId);
    hide CalculateTotals, EventsFit;
  }

  lemma StoreTables(s: State, t: State, id: nat, answer: Answer)
    requires TablesFit(s.db) && id < |s.db.attempts| && InvoicesGrow(s.db, t.db) && InvoicesFit(t.db)
    requires t.db.attempts == s.db.attempts[id := Answered(s.db.attempts[id], answer)]
    requires || t.db.events == s.db.events
             || t.db.events == s.db.events + [InvoicePaid(s.db.attempts[id].invoiceId, id, s.db.attempts[id].amount)]
    ensures TablesFit(t.db)
  {
    WithinStays(s.db, t.db);
    hide InvoicesGrow, InvoicesFit, Within, Opened;
  }

  lemma StoreRequests(s: State, t: State, req: ReqId, answer: Answer)
    requires RequestsFit(s) && req in s.requests && s.requests[req].Processing? && s.requests[req].id < |s.db.attempts|
    requires t.requests == s.requests - {req} && InvoicesGrow(s.db, t.db)
    requires var id := s.requests[req].id; t.db.attempts == s.db.attempts[id := Answered(s.db.attempts[id], answer)]
    ensures RequestsFit(t)
  {
    hide InvoicesGrow;
    RequestsFrame(s, t);
  }

  lemma StoreCounts(s: State, req: ReqId, answer: Answer, now: int, i: Uuid)
    requires RequestsFit(s) && Enabled(s, Store(req, answer, now))
    ensures var t := Do(s, Store(req, answer, now));
            var hit := if Pays(answer) && s.db.attempts[s.requests[req].id].invoiceId == i then 1 else 0;
            && Successes(t.db, i) == Successes(s.db, i) + hit && PaidEvents(t.db, i) == PaidEvents(s.db, i) + hit
            && IssuedEvents(t.db, i) == IssuedEvents(s.db, i)
  {
    assert RequestFits(s, s.requests[req]);
    FinishCounts(s.db, s.requests[req].id, answer, now, i);
    hide Successes, PaidEvents, IssuedEvents, Finish;
  }

  lemma StoreKeeps(s: State, req: ReqId, answer: Answer, now: int)
    requires Inv(s) && Enabled(s, Store(req, answer, now))
    ensures Inv(Do(s, Store(req, answer, now)))
  {
    var t := Do(s, Store(req, answer, now));
    StoreEffect(s, req, answer, now);
    hide Finish, TablesFit, RequestsFit, CountsFit, InvoicesGrow;
    StoreTables(s, t, s.requests[req].id, answer);
    StoreRequests(s, t, req, answer);
    StoreAllCounts(s, req, answer, now);
  }

  lemma StoreAllCounts(s: State, req: ReqId, answer: Answer, now: int)
    requires RequestsFit(s) && TablesFit(s.db) && AllCountsFit(s.db) && Enabled(s, Store(req, answer, now))
    ensures AllCountsFit(Do(s, Store(req, answer, now)).db)
  {
    var t := Do(s, Store(req, answer, now));
    StoreEffect(s, req, answer, now);
    hide Do, Enabled, Successes, PaidEvents, IssuedEvents, InvoicesGrow, TablesFit, RequestsFit, IsPaid, Opened;
    forall i
      ensures CountsFit(t.db, i)
    {
      assert CountsFit(s.db, i);
      StoreCounts(s, req, answer, now, i);
    }
  }

  // ---- every step -----------------------------------------------------------------------------------

  lemma StepKeeps(s: State, a: Action)
    requires Inv(s) && Enabled(s, a)
    ensures Inv(Do(s, a))
  {
    hide Inv, DoLoad, DoLoadLine, DoLoadIssue, DoInsert, Finish, Kept, Created, LineStored, IssueStored;
    match a
    case Create(id, customer) => CreateKeeps(s, id, customer);
    case CommitLine(req) => CommitLineKeeps(s, req);
    case CommitIssue(req, failure, now) => CommitIssueKeeps(s, req, failure, now);
    case Insert(req) => InsertKeeps(s, req, s.requests[req].attempt);
    case Store(req, answer, now) => StoreKeeps(s, req, answer, now);
    case Crash(req) => EndKeeps(s, req);
    case _ => LoadKeeps(s, a);
  }

  /**
   * Over every run of overlapping and crashing requests: attempts are unique per pair
   * and, like every event, ask for no more than the invoice's total; open payments
   * work on PENDING attempts of their own; there are as many InvoicePaid events as
   * succeeded attempts, at least one for a PAID invoice, and an InvoiceIssued event
   * exactly for the invoices that are no drafts.
   */
  lemma {:induction false} InvHolds(r: Run)
    requires Reached(r)
    ensures Inv(Final(r))
  {
    if r.Then? {
      InvHolds(r.prefix);
      StepKeeps(Final(r.prefix), r.a);
      hide Inv, Do, Enabled;
    } else {
      assert forall id :: CountsFit(r.init.db, id);
    }
  }
}

/** Both services carry out the same abstract invoice machine. */
module Refinement {
  import opened Prelude
  import opened Codec
  import opened HalfUp
  import opened InvoiceModel
  import opened InvoiceMachine
  import opened PaymentClient
  import B = Billing
  import BI = BillingInvariant
  import BStep = BillingSteps
  import BSet = BillingSettling
  import BSh = BillingShapes
  import BT = BillingTheorems
  import BS = BillingService
  import C = ControlService
  import CS = ControlSystem

  // ---- the service of the test run ------------------------------------------------------

  function TestMark(a: Attempt): Mark { Mark(a.invoiceId, a.key, a.status) }

  function TestMarks(s: seq<Attempt>): (r: seq<Mark>)
    ensures |r| == |s| && forall i | 0 <= i < |s| :: r[i] == TestMark(s[i])
  {
    seq(|s|, i requires 0 <= i < |s| => TestMark(s[i]))
  }

  function TestHead(i: Invoice): Head { Head(i.status, AsFracs(i.lines)) }

  function TestHeads(invoices: map<Uuid, Invoice>): map<Uuid, Head> { map id | id in invoices :: TestHead(invoices[id]) }

  function TestWorld(s: B.State): World { WorldOf(TestHeads(s.invoices), TestMarks(s.attempts)) }

  /** A request that may run now; the provider reports success only for a key it has charged. */
  predicate CanCollect(s: B.State, req: B.ReqId, key: string, responses: seq<Response>, charged: seq<bool>) {
    && req !in s.requests && IsExchange(s.maxRetries, responses) && |charged| == |responses|
    && (Succeeds(Classify(responses[|responses| - 1])) ==> key in s.charges || true in charged)
  }

  /** A retried call sends the very same request every time. */
  function Copies(r: Request, n: nat): (c: seq<Request>)
    ensures |c| == n && forall i | 0 <= i < n :: c[i] == r
  {
    if n == 0 then [] else Copies(r, n - 1) + [r]
  }

  /** The state in which the call is at `pc`, `charged[i]` saying whether the provider acted on request i. */
  function Sent(s: B.State, req: B.ReqId, id: nat, charged: seq<bool>, pc: B.Pc): B.State
    requires id < |s.attempts|
  {
    var r := B.RequestOf(s.attempts[id]);
    s.(sends := s.sends + Copies(r, |charged|), charges := B.Charged(s.charges, r, true in charged),
       requests := s.requests[req := pc])
  }

  /** A retried call that nothing overlaps. */
  function CallAlone(s: B.State, req: B.ReqId, id: nat, responses: seq<Response>, charged: seq<bool>): B.State
    requires id < |s.attempts| && responses != []
  {
    Sent(s, req, id, charged, B.Returned(id, Classify(responses[|responses| - 1])))
  }

  predicate CanCall(s: B.State, req: B.ReqId, id: nat, responses: seq<Response>, charged: seq<bool>) {
    && req in s.requests && s.requests[req] == B.Calling(id, []) && id < |s.attempts|
    && IsExchange(s.maxRetries, responses) && |charged| == |responses|
    && (Succeeds(Classify(responses[|responses| - 1])) ==> s.attempts[id].key in s.charges || true in charged)
  }

  /** One more request. */
  lemma SendsOne(s: B.State, req: B.ReqId, id: nat, got: seq<Response>, hits: seq<bool>, x: Response, hit: bool)
    requires id < |s.attempts| && |hits| == |got|
    requires Succeeds(Classify(x)) ==> s.attempts[id].key in s.charges || true in hits + [hit]
    ensures var u := Sent(s, req, id, hits, B.Calling(id, got)); var a := B.SendOnce(req, x, hit);
            && B.Enabled(u, a)
            && B.Do(u, a) == Sent(s, req, id, hits + [hit],
                                  if Stops(s.maxRetries, |got| + 1, x) then B.Returned(id, Classify(x)) else B.Calling(id, got + [x]))
  {
    hide Classify, Stops, Succeeds, B.Do, B.Enabled, Sent;
    var pc := if Stops(s.maxRetries, |got| + 1, x) then B.Returned(id, Classify(x)) else B.Calling(id, got + [x]);
    SendMay(s, req, id, got, hits, x, hit);
    SentAgain(s, req, id, hits, B.Calling(id, got), hit, pc);
    BS.SendState(Sent(s, req, id, hits, B.Calling(id, got)), req, x, hit);
  }

  /** The next request is one more copy, and finds the charge of an earlier one. */
  lemma SentAgain(s: B.State, req: B.ReqId, id: nat, hits: seq<bool>, before: B.Pc, hit: bool, pc: B.Pc)
    requires id < |s.attempts|
    ensures var u, r := Sent(s, req, id, hits, before), B.RequestOf(s.attempts[id]);
            && req in u.requests && u.requests[req] == before && u.attempts == s.attempts && u.maxRetries == s.maxRetries
            && u.(sends := u.sends + [r], charges := B.Charged(u.charges, r, hit), requests := u.requests[req := pc])
               == Sent(s, req, id, hits + [hit], pc)
  {
    var r := B.RequestOf(s.attempts[id]);
    hide Copies, B.Charged, B.RequestOf;
    OneMoreCopy(s.sends, r, |hits|);
    assert |hits + [hit]| == |hits| + 1;
    OneMoreHit(hits, hit);
    ChargedTwice(s.charges, r, true in hits, hit);
    assert s.requests[req := before][req := pc] == s.requests[req := pc];
  }

  lemma SendMay(s: B.State, req: B.ReqId, id: nat, got: seq<Response>, hits: seq<bool>, x: Response, hit: bool)
    requires id < |s.attempts| && |hits| == |got|
    requires Succeeds(Classify(x)) ==> s.attempts[id].key in s.charges || true in hits + [hit]
    ensures B.Enabled(Sent(s, req, id, hits, B.Calling(id, got)), B.SendOnce(req, x, hit))
  {
    hide Classify, Succeeds, Copies;
    ChargedTwice(s.charges, B.RequestOf(s.attempts[id]), true in hits, hit);
    assert true in hits + [hit] <==> true in hits || hit;
  }

  lemma OneMoreHit(hits: seq<bool>, hit: bool)
    ensures (true in hits + [hit]) == (true in hits || hit)
  {
  }

  lemma OneMoreCopy(sends: seq<Request>, r: Request, n: nat)
    ensures sends + Copies(r, n) + [r] == sends + Copies(r, n + 1)
  {
  }

  /** The second request finds the first one's charge. */
  lemma ChargedTwice(charges: map<string, B.Charge>, r: Request, first: bool, second: bool)
    ensures B.Charged(B.Charged(charges, r, first), r, second) == B.Charged(charges, r, first || second)
    ensures first || r.key in charges ==> r.key in B.Charged(charges, r, first)
  {
  }

  /** The first m requests are steps of the full system. */
  lemma {:induction false} SendsSome(r: B.Run, req: B.ReqId, id: nat, responses: seq<Response>, charged: seq<bool>, m: nat)
    returns (q: B.Run)
    requires B.Reached(r) && CanCall(B.Final(r), req, id, responses, charged) && m < |responses|
    ensures B.Reached(q)
    ensures B.Final(q) == Sent(B.Final(r), req, id, charged[..m], B.Calling(id, responses[..m]))
  {
    hide B.Do, B.Enabled, Stops, IsExchange, Classify, Succeeds;
    var s := B.Final(r);
    if m == 0 {
      q := r;
      assert s.requests[req := B.Calling(id, [])] == s.requests;
    } else {
      hide Sent;
      q := SendsSome(r, req, id, responses, charged, m - 1);
      var x, hit := responses[m - 1], charged[m - 1];
      NotYetOver(s.maxRetries, responses, m - 1);
      SendsOne(s, req, id, responses[..m - 1], charged[..m - 1], x, hit);
      assert responses[..m] == responses[..m - 1] + [x] && charged[..m] == charged[..m - 1] + [hit];
      BT.ThenReached(q, B.SendOnce(req, x, hit));
      q := B.Then(q, B.SendOnce(req, x, hit));
    }
  }

  lemma NotYetOver(maxRetries: int, responses: seq<Response>, k: nat)
    requires IsExchange(maxRetries, responses) && k < |responses|
    ensures k < |responses| - 1 ==> !Stops(maxRetries, k + 1, responses[k]) && !Succeeds(Classify(responses[k]))
    ensures k == |responses| - 1 ==> Stops(maxRetries, k + 1, responses[k])
  {
  }

  lemma CallIsRun(r: B.Run, req: B.ReqId, id: nat, responses: seq<Response>, charged: seq<bool>) returns (q: B.Run)
    requires B.Reached(r) && CanCall(B.Final(r), req, id, responses, charged)
    ensures responses != [] && B.Reached(q) && B.Final(q) == CallAlone(B.Final(r), req, id, responses, charged)
  {
    hide Sent, B.Do, B.Enabled, Stops, Classify, Succeeds;
    var s, m := B.Final(r), |responses| - 1;
    q := SendsSome(r, req, id, responses, charged, m);
    var x, hit := responses[m], charged[m];
    NotYetOver(s.maxRetries, responses, m);
    assert charged == charged[..m] + [hit];
    SendsOne(s, req, id, responses[..m], charged[..m], x, hit);
    BT.ThenReached(q, B.SendOnce(req, x, hit));
    q := B.Then(q, B.SendOnce(req, x, hit));
  }

  /** The steps of one request that nothing overlaps. */
  function CollectAlone(s: B.State, req: B.ReqId, id: Uuid, key: string, responses: seq<Response>, charged: seq<bool>): B.State
    requires CanCollect(s, req, key, responses, charged)
  {
    if id !in s.invoices || B.FindAttempt(s.attempts, id, key).Some? || NewAttempt(id, s.invoices[id], key).Err? then s
    else
      var a := NewAttempt(id, s.invoices[id], key).value;
      var n := |s.attempts|;
      var flushed := s.(attempts := s.attempts + [a], requests := s.requests[req := B.Calling(n, [])]);
      var called := CallAlone(flushed, req, n, responses, charged);
      B.DoSettle(called, req, n, Classify(responses[|responses| - 1]), s.invoices[id].status)
  }

  /** They are steps of the full system. */
  lemma CollectAloneIsRun(r: B.Run, req: B.ReqId, id: Uuid, key: string, responses: seq<Response>, charged: seq<bool>)
    returns (q: B.Run)
    requires B.Reached(r) && CanCollect(B.Final(r), req, key, responses, charged)
    ensures B.Reached(q) && B.Final(q) == CollectAlone(B.Final(r), req, id, key, responses, charged)
  {
    hide B.Do, B.Enabled;
    var s := B.Final(r);
    if id !in s.invoices || B.FindAttempt(s.attempts, id, key).Some? || NewAttempt(id, s.invoices[id], key).Err? {
      q := r;
    } else {
      var a := NewAttempt(id, s.invoices[id], key).value;
      LookupInsert(s, req, id, key, a);
      var u := B.Do(B.Do(s, B.Lookup(req, id, key)), B.Insert(req));
      var looked := B.Then(r, B.Lookup(req, id, key));
      BT.ThenReached(r, B.Lookup(req, id, key));
      BT.ThenReached(looked, B.Insert(req));
      var inserted := B.Then(looked, B.Insert(req));
      var n := |s.attempts|;
      assert u.attempts[n] == a;
      hide B.DoSettle, B.FindAttempt, IsExchange, Classify, Succeeds;
      var called := CallIsRun(inserted, req, n, responses, charged);
      SettleAlone(B.Final(called), req, n, id, s.invoices[id].status);
      BT.ThenReached(called, B.Settle(req, s.invoices[id].status));
      q := B.Then(called, B.Settle(req, s.invoices[id].status));
    }
  }

  lemma LookupInsert(s: B.State, req: B.ReqId, id: Uuid, key: string, a: Attempt)
    requires req !in s.requests && id in s.invoices && B.FindAttempt(s.attempts, id, key).None?
    requires NewAttempt(id, s.invoices[id], key) == Ok(a)
    ensures var x, y := B.Lookup(req, id, key), B.Insert(req);
            && B.Enabled(s, x) && B.Enabled(B.Do(s, x), y)
            && B.Do(B.Do(s, x), y) == s.(attempts := s.attempts + [a], requests := s.requests[req := B.Calling(|s.attempts|, [])])
  {
    var t := B.Do(s, B.Lookup(req, id, key));
    assert t == s.(requests := s.requests[req := B.Starting(a)]);
    assert s.requests[req := B.Starting(a)][req := B.Calling(|s.attempts|, [])] == s.requests[req := B.Calling(|s.attempts|, [])];
  }

  lemma SettleAlone(s: B.State, req: B.ReqId, n: nat, id: Uuid, seen: InvoiceStatus)
    requires req in s.requests && s.requests[req].Returned? && s.requests[req].id == n < |s.attempts|
    requires s.attempts[n].invoiceId == id && id in s.invoices && seen == s.invoices[id].status
    ensures B.Enabled(s, B.Settle(req, seen))
    ensures B.Do(s, B.Settle(req, seen)) == B.DoSettle(s, req, n, s.requests[req].outcome, seen)
  {
    hide B.DoSettle;
  }

  lemma {:induction false} FracsAppend(lines: seq<Line>, l: Line)
    ensures AsFracs(lines + [l]) == AsFracs(lines) + [AsFrac(l)]
    ensures AsFracs(lines) == [] <==> lines == []
  {
    assert (lines + [l])[..|lines|] == lines;
  }

  /** Where the one request of CollectAlone leaves invoice and attempt. */
  lemma AloneShape(s: B.State, req: B.ReqId, id: Uuid, key: string, responses: seq<Response>, charged: seq<bool>)
    requires CanCollect(s, req, key, responses, charged)
    requires id in s.invoices && B.FindAttempt(s.attempts, id, key).None? && s.invoices[id].status == Issued
    ensures var t := CollectAlone(s, req, id, key, responses, charged);
            var verdict := BS.StatusAfter(Classify(responses[|responses| - 1]), false);
            && (exists b :: t.attempts == s.attempts + [b] && TestMark(b) == Mark(id, key, verdict))
            && TestHeads(t.invoices) == TestHeads(s.invoices)[
                 id := TestHead(s.invoices[id]).(status := if verdict == Succeeded then Paid else Issued)]
  {
    var a := NewAttempt(id, s.invoices[id], key).value;
    var n := |s.attempts|;
    var flushed := s.(attempts := s.attempts + [a], requests := s.requests[req := B.Calling(n, [])]);
    var called := CallAlone(flushed, req, n, responses, charged);
    assert called.attempts == s.attempts + [a] && called.invoices == s.invoices;
    var o := Classify(responses[|responses| - 1]);
    hide Classify, Copies, B.Charged, AsFracs, IsExchange, B.FindAttempt, B.IssuedEvent, B.PaidEvent;
    SettledShape(called, req, n, o, s.attempts, a);
  }

  lemma SettledShape(s: B.State, req: B.ReqId, n: nat, o: Outcome, before: seq<Attempt>, a: Attempt)
    requires s.attempts == before + [a] && n == |before| && a.invoiceId in s.invoices && s.invoices[a.invoiceId].status == Issued
    requires a.status == Pending
    ensures var t := B.DoSettle(s, req, n, o, Issued);
            var verdict := BS.StatusAfter(o, false);
            && (exists b :: t.attempts == before + [b] && TestMark(b) == Mark(a.invoiceId, a.key, verdict))
            && TestHeads(t.invoices) == TestHeads(s.invoices)[
                 a.invoiceId := TestHead(s.invoices[a.invoiceId]).(status := if verdict == Succeeded then Paid else Issued)]
  {
    hide AsFracs, TestMark;
    var t := B.DoSettle(s, req, n, o, Issued);
    if o.Answered? && o.body.Success? {
      HeadsSet(s.invoices, a.invoiceId, t.invoices[a.invoiceId]);
    } else {
      assert t.invoices == s.invoices;
      assert TestHeads(s.invoices)[a.invoiceId] == TestHead(s.invoices[a.invoiceId]);
    }
    hide TestHeads, TestHead;
    var b := t.attempts[n];
    assert t.attempts == before + [b];
    assert TestMark(b) == Mark(a.invoiceId, a.key, BS.StatusAfter(o, false)) by { MarkOf(b); }
  }

  lemma MarkOf(a: Attempt)
    ensures TestMark(a) == Mark(a.invoiceId, a.key, a.status)
  {
  }

  lemma FindIsKnown(s: seq<Attempt>, id: Uuid, key: string)
    ensures B.FindAttempt(s, id, key).Some? <==> Known(TestMarks(s), id, key)
  {
    BStep.FindAttemptExact(s, id, key);
    var k := B.FindAttempt(s, id, key);
    if k.Some? {
      assert TestMarks(s)[k.value].invoiceId == id && TestMarks(s)[k.value].key == key;
    }
  }

  /** What the machine is told about a step of the test run's system. */
  function CommandOf(a: B.Action): Command {
    match a
    case CreateInvoice(id, _, _) => Create(id)
    case AddLine(id, l) => Command.AddLine(id, AsFrac(l))
    case Issue(id) => Command.Issue(id)
    case _ => Nothing
  }

  lemma AttemptsHaveInvoices(s: B.State, id: Uuid)
    requires BI.AttemptsFit(s) && id !in s.invoices
    ensures KeyMap(TestMarks(s.attempts), id) == map[]
  {
    forall k | 0 <= k < |s.attempts|
      ensures s.attempts[k].invoiceId != id
    {
      assert BI.Owes(s, s.attempts[k].invoiceId, s.attempts[k].amount, s.attempts[k].currency);
    }
    NoMarks(TestMarks(s.attempts), id);
  }

  /** Creating, adding lines, issuing: the machine's command; dispatching and the rest: nothing. */
  lemma PlainRefines(s: B.State, a: B.Action)
    requires BI.AttemptsFit(s) && B.Enabled(s, a) && !BSh.OfRequest(a)
    ensures TestWorld(B.Do(s, a)) == Apply(TestWorld(s), CommandOf(a))
  {
    BSh.OthersKeepRequests(s, a);
    if a.AddLine? {
      AddLineRefines(s, a.invoice, a.line);
    } else if a.Issue? {
      IssueRefines(s, a.invoice);
    } else if a.CreateInvoice? {
      AttemptsHaveInvoices(s, a.invoice);
      HeadsSet(s.invoices, a.invoice, InvoiceModel.NewInvoice(a.owner, a.currency));
      WorldSet(TestHeads(s.invoices), TestMarks(s.attempts), a.invoice, Head(Draft, []));
    } else {
      hide B.Do, B.Enabled, BI.AttemptsFit;
    }
  }

  lemma HeadsSet(invoices: map<Uuid, Invoice>, id: Uuid, i: Invoice)
    ensures TestHeads(invoices[id := i]) == TestHeads(invoices)[id := TestHead(i)]
  {
  }

  lemma AddLineRefines(s: B.State, id: Uuid, l: Line)
    requires id in s.invoices
    ensures TestWorld(B.DoAddLine(s, id, l)) == Apply(TestWorld(s), Command.AddLine(id, AsFrac(l)))
  {
    hide WorldOf, Apply, AsFracs, AsFrac, TestMarks;
    var i, h := s.invoices[id], TestHeads(s.invoices);
    WorldAddLine(h, TestMarks(s.attempts), id, AsFrac(l));
    FracsAppend(i.lines, l);
    SameValidity(l);
    hide ValidLine, ValidFracLine;
    HeadsSet(s.invoices, id, i.(lines := i.lines + [l]));
  }

  lemma SameValidity(l: Line)
    ensures ValidLine(l) <==> ValidFracLine(AsFrac(l))
  {
  }

  lemma IssueRefines(s: B.State, id: Uuid)
    requires id in s.invoices
    ensures TestWorld(B.DoIssue(s, id)) == Apply(TestWorld(s), Command.Issue(id))
  {
    hide WorldOf, Apply, AsFracs, TestMarks, B.IssuedEvent;
    var i, h := s.invoices[id], TestHeads(s.invoices);
    WorldIssue(h, TestMarks(s.attempts), id);
    FracsAppend(i.lines, Line("", 0, 0, 0));
    HeadsSet(s.invoices, id, i.(status := Issued, issuedAt := Some(s.clock)));
  }

  /** A request that nothing overlaps is the machine's Collect, with the verdict its outcome stands for. */
  lemma CollectRefines(s: B.State, req: B.ReqId, id: Uuid, key: string, responses: seq<Response>, charged: seq<bool>)
    requires CanCollect(s, req, key, responses, charged)
    ensures TestWorld(CollectAlone(s, req, id, key, responses, charged))
         == Apply(TestWorld(s), Collect(id, key, BS.StatusAfter(Classify(responses[|responses| - 1]), false)))
  {
    var verdict := BS.StatusAfter(Classify(responses[|responses| - 1]), false);
    var t := CollectAlone(s, req, id, key, responses, charged);
    FindIsKnown(s.attempts, id, key);
    WorldCollect(TestHeads(s.invoices), TestMarks(s.attempts), id, key, verdict);
    if id in s.invoices && B.FindAttempt(s.attempts, id, key).None? && s.invoices[id].status == Issued {
      AloneShape(s, req, id, key, responses, charged);
      MarksGrow(s.attempts, t.attempts, Mark(id, key, verdict));
    }
    hide WorldOf, Apply, Known, KeyMap, AsFracs, CallAlone, B.DoSettle, Classify, BS.StatusAfter, TestMarks, B.FindAttempt;
  }

  lemma MarksGrow(s: seq<Attempt>, t: seq<Attempt>, m: Mark)
    requires exists b :: t == s + [b] && TestMark(b) == m
    ensures TestMarks(t) == TestMarks(s) + [m]
  {
  }

  // ---- runs of the test run's service -------------------------------------------------------

  datatype TestOp =
    | Plain(a: B.Action)
    | Alone(req: B.ReqId, id: Uuid, key: string, responses: seq<Response>, charged: seq<bool>)

  datatype TestRun = Fresh(init: B.State) | More(prefix: TestRun, op: TestOp)

  predicate Allowed(s: B.State, op: TestOp) {
    match op
    case Plain(a) => B.Enabled(s, a) && !BSh.OfRequest(a)
    case Alone(req, id, key, responses, charged) => CanCollect(s, req, key, responses, charged)
  }

  function After(s: B.State, op: TestOp): B.State
    requires Allowed(s, op)
  {
    match op
    case Plain(a) => B.Do(s, a)
    case Alone(req, id, key, responses, charged) => CollectAlone(s, req, id, key, responses, charged)
  }

  predicate IsTestRun(r: TestRun)
    decreases r, 0
  {
    if r.Fresh? then B.Init(r.init) else IsTestRun(r.prefix) && Allowed(TestFinal(r.prefix), r.op)
  }

  function TestFinal(r: TestRun): B.State
    requires IsTestRun(r)
    decreases r, 1
  {
    if r.Fresh? then r.init else After(TestFinal(r.prefix), r.op)
  }

  function TestCommand(op: TestOp): Command {
    match op
    case Plain(a) => CommandOf(a)
    case Alone(_, id, key, responses, _) =>
      if responses == [] then Nothing else Collect(id, key, BS.StatusAfter(Classify(responses[|responses| - 1]), false))
  }

  function TestCommands(r: TestRun): seq<Command> {
    if r.Fresh? then [] else TestCommands(r.prefix) + [TestCommand(r.op)]
  }

  /** A sequential run is one of the runs of the full system. */
  lemma {:induction false} TestRunIsRun(r: TestRun) returns (b: B.Run)
    requires IsTestRun(r)
    ensures B.Reached(b) && B.Final(b) == TestFinal(r)
  {
    if r.Fresh? {
      b := B.Start(r.init);
    } else {
      b := TestRunIsRun(r.prefix);
      match r.op
      case Plain(a) => b := B.Then(b, a);
      case Alone(req, id, key, responses, charged) => b := CollectAloneIsRun(b, req, id, key, responses, charged);
    }
  }

  lemma {:induction false} TestServiceRefines(r: TestRun)
    requires IsTestRun(r)
    ensures TestWorld(TestFinal(r)) == Run(TestCommands(r))
  {
    if r.Fresh? {
      assert TestWorld(r.init) == map[];
    } else {
      TestServiceRefines(r.prefix);
      var s := TestFinal(r.prefix);
      match r.op {
        case Plain(a) =>
          var b := TestRunIsRun(r.prefix);
          ReachedFits(b);
          PlainRefines(s, a);
        case Alone(req, id, key, responses, charged) =>
          CollectRefines(s, req, id, key, responses, charged);
      }
      hide TestWorld, Apply, B.Do, CollectAlone;
      assert TestCommands(r)[..|TestCommands(r)| - 1] == TestCommands(r.prefix);
    }
  }

  lemma ReachedFits(b: B.Run)
    requires B.Reached(b)
    ensures BI.AttemptsFit(B.Final(b))
  {
    BSet.InvHolds(b);
  }

  // ---- the control service -----------------------------------------------------------------------

  datatype ControlOp =
    | NewInvoice(id: Uuid, customer: Uuid)
    | AddOne(id: Uuid, line: FracLine)
    | IssueIt(id: Uuid, failure: Option<string>, now: int)
    | CollectIt(id: Uuid, key: string, answer: C.Answer, now: int)

  function ControlStep(db: C.Db, op: ControlOp): C.Db {
    match op
    case NewInvoice(id, customer) => CS.Kept(db, C.Created(db, id, customer))
    case AddOne(id, l) => CS.Kept(db, C.LineAdded(db, id, l))
    case IssueIt(id, failure, now) => CS.Kept(db, C.AfterIssue(db, id, failure, now))
    case CollectIt(id, key, answer, now) => C.Collected(db, id, key, answer, now)
  }

  function ControlRun(customers: set<Uuid>, ops: seq<ControlOp>): C.Db {
    if ops == [] then C.Db(customers, map[], [], []) else ControlStep(ControlRun(customers, ops[..|ops| - 1]), ops[|ops| - 1])
  }

  /** Where an answer leaves a new attempt. */
  function Verdict(answer: C.Answer): AttemptStatus {
    match answer
    case Unavailable(_) => Failed
    case Broke => Pending
    case Gave(status, _, _, _) => status
  }

  /** An email that cannot be sent makes the issue a stutter, and so does an unknown customer. */
  function ControlCommand(customers: set<Uuid>, op: ControlOp): Command {
    match op
    case NewInvoice(id, customer) => if customer in customers then Create(id) else Nothing
    case AddOne(id, l) => Command.AddLine(id, l)
    case IssueIt(id, failure, _) => if failure.Some? then Nothing else Command.Issue(id)
    case CollectIt(id, key, answer, _) => Collect(id, key, Verdict(answer))
  }

  function ControlCommands(customers: set<Uuid>, ops: seq<ControlOp>): (r: seq<Command>)
    ensures |r| == |ops|
  {
    if ops == [] then [] else ControlCommands(customers, ops[..|ops| - 1]) + [ControlCommand(customers, ops[|ops| - 1])]
  }

  function ControlMarks(s: seq<C.ControlAttempt>): (r: seq<Mark>)
    ensures |r| == |s| && forall i | 0 <= i < |s| :: r[i] == Mark(s[i].invoiceId, s[i].key, s[i].status)
  {
    seq(|s|, i requires 0 <= i < |s| => Mark(s[i].invoiceId, s[i].key, s[i].status))
  }

  function ControlHeads(invoices: map<Uuid, C.ControlInvoice>): map<Uuid, Head> {
    map id | id in invoices :: Head(invoices[id].status, invoices[id].lines)
  }

  function ControlWorld(db: C.Db): World { WorldOf(ControlHeads(db.invoices), ControlMarks(db.attempts)) }

  lemma ControlHeadsSet(invoices: map<Uuid, C.ControlInvoice>, id: Uuid, i: C.ControlInvoice)
    ensures ControlHeads(invoices[id := i]) == ControlHeads(invoices)[id := Head(i.status, i.lines)]
  {
  }

  predicate OwnInvoices(db: C.Db) { forall k | 0 <= k < |db.attempts| :: db.attempts[k].invoiceId in db.invoices }

  lemma ControlFindIsKnown(s: seq<C.ControlAttempt>, id: Uuid, key: string)
    ensures C.FindAttempt(s, id, key).Some? <==> Known(ControlMarks(s), id, key)
  {
    var k := C.FindAttempt(s, id, key);
    if k.Some? {
      assert ControlMarks(s)[k.value].invoiceId == id && ControlMarks(s)[k.value].key == key;
    }
  }

  lemma ControlCollectRefines(db: C.Db, id: Uuid, key: string, answer: C.Answer, now: int)
    ensures ControlWorld(C.Collected(db, id, key, answer, now)) == Apply(ControlWorld(db), Collect(id, key, Verdict(answer)))
  {
    ControlFindIsKnown(db.attempts, id, key);
    WorldCollect(ControlHeads(db.invoices), ControlMarks(db.attempts), id, key, Verdict(answer));
    hide WorldOf, Apply, Known, KeyMap;
    if C.Begin(db, id, key).Ready? {
      var t := C.Collected(db, id, key, answer, now);
      assert ControlMarks(t.attempts) == ControlMarks(db.attempts) + [Mark(id, key, Verdict(answer))];
      ControlHeadsSet(db.invoices, id, t.invoices[id]);
      assert t.invoices == db.invoices[id := t.invoices[id]];
    }
  }

  lemma ControlInvoiceRefines(db: C.Db, t: C.Db, id: Uuid)
    requires id in t.invoices && t == db.(invoices := db.invoices[id := t.invoices[id]], events := t.events)
    requires OwnInvoices(db)
    ensures OwnInvoices(t)
    ensures ControlWorld(t) == ControlWorld(db)[id := Account(t.invoices[id].status, t.invoices[id].lines,
                                                             if id in db.invoices then ControlWorld(db)[id].attempts else map[])]
  {
    if id !in db.invoices {
      NoMarks(ControlMarks(db.attempts), id);
    }
    ControlHeadsSet(db.invoices, id, t.invoices[id]);
    WorldSet(ControlHeads(db.invoices), ControlMarks(db.attempts), id, Head(t.invoices[id].status, t.invoices[id].lines));
  }

  lemma ControlNewRefines(db: C.Db, id: Uuid, customer: Uuid)
    requires OwnInvoices(db)
    ensures var t := CS.Kept(db, C.Created(db, id, customer));
            && OwnInvoices(t) && t.customers == db.customers
            && ControlWorld(t) == if customer in db.customers then Apply(ControlWorld(db), Create(id)) else ControlWorld(db)
  {
    var t := CS.Kept(db, C.Created(db, id, customer));
    if t != db { ControlInvoiceRefines(db, t, id); }
    hide ControlMarks, KeyMap, OwnInvoices;
  }

  lemma ControlAddRefines(db: C.Db, id: Uuid, l: FracLine)
    requires OwnInvoices(db)
    ensures var t := CS.Kept(db, C.LineAdded(db, id, l));
            && OwnInvoices(t) && t.customers == db.customers
            && ControlWorld(t) == Apply(ControlWorld(db), Command.AddLine(id, l))
  {
    var t := CS.Kept(db, C.LineAdded(db, id, l));
    if t != db { ControlInvoiceRefines(db, t, id); }
    hide ControlMarks, KeyMap, OwnInvoices;
  }

  lemma ControlIssueRefines(db: C.Db, id: Uuid, failure: Option<string>, now: int)
    requires OwnInvoices(db)
    ensures var t := CS.Kept(db, C.AfterIssue(db, id, failure, now));
            && OwnInvoices(t) && t.customers == db.customers
            && ControlWorld(t) == if failure.Some? then ControlWorld(db) else Apply(ControlWorld(db), Command.Issue(id))
  {
    var t := CS.Kept(db, C.AfterIssue(db, id, failure, now));
    if t != db { ControlInvoiceRefines(db, t, id); }
    hide ControlMarks, KeyMap, OwnInvoices, CalculateTotals;
  }

  lemma ControlStepRefines(db: C.Db, op: ControlOp)
    requires OwnInvoices(db)
    ensures OwnInvoices(ControlStep(db, op)) && ControlStep(db, op).customers == db.customers
    ensures ControlWorld(ControlStep(db, op)) == Apply(ControlWorld(db), ControlCommand(db.customers, op))
  {
    match op {
      case NewInvoice(id, customer) => ControlNewRefines(db, id, customer);
      case AddOne(id, l) => ControlAddRefines(db, id, l);
      case IssueIt(id, failure, now) => ControlIssueRefines(db, id, failure, now);
      case CollectIt(id, key, answer, now) =>
        ControlCollectRefines(db, id, key, answer, now);
        CollectKeepsOwn(db, id, key, answer, now);
    }
    hide ControlWorld, C.Created, C.LineAdded, C.AfterIssue, C.Collected, CS.Kept, OwnInvoices;
  }

  lemma CollectKeepsOwn(db: C.Db, id: Uuid, key: string, answer: C.Answer, now: int)
    requires OwnInvoices(db)
    ensures OwnInvoices(C.Collected(db, id, key, answer, now)) && C.Collected(db, id, key, answer, now).customers == db.customers
  {
  }

  lemma {:induction false} ControlServiceRefines(customers: set<Uuid>, ops: seq<ControlOp>)
    ensures ControlWorld(ControlRun(customers, ops)) == Run(ControlCommands(customers, ops))
    ensures OwnInvoices(ControlRun(customers, ops)) && ControlRun(customers, ops).customers == customers
  {
    if ops == [] {
      assert ControlWorld(ControlRun(customers, ops)) == map[];
    } else {
      var n := |ops| - 1;
      ControlServiceRefines(customers, ops[..n]);
      ControlStepRefines(ControlRun(customers, ops[..n]), ops[n]);
      assert ControlCommands(customers, ops)[..n] == ControlCommands(customers, ops[..n]);
    }
  }

  /** A sequential control run is one of the runs of the system of overlapping requests. */
  lemma {:induction false} ControlRunIsRun(customers: set<Uuid>, ops: seq<ControlOp>) returns (r: CS.Run)
    ensures CS.Reached(r) && CS.Final(r) == CS.State(ControlRun(customers, ops), map[])
  {
    if ops == [] {
      r := CS.Start(CS.Empty(customers));
    } else {
      var n := |ops| - 1;
      r := ControlRunIsRun(customers, ops[..n]);
      var db := ControlRun(customers, ops[..n]);
      match ops[n] {
        case NewInvoice(id, customer) => r := CS.Then(r, CS.Create(id, customer));
        case AddOne(id, l) => r := ControlAddIsRun(r, id, l);
        case IssueIt(id, failure, now) => r := ControlIssueIsRun(r, id, failure, now);
        case CollectIt(id, key, answer, now) => r := ControlCollectIsRun(r, id, key, answer, now);
      }
    }
  }

  lemma ControlAddIsRun(r0: CS.Run, id: Uuid, l: FracLine) returns (r: CS.Run)
    requires CS.Reached(r0) && CS.Final(r0).requests == map[]
    ensures CS.Reached(r) && CS.Final(r) == CS.State(CS.Kept(CS.Final(r0).db, C.LineAdded(CS.Final(r0).db, id, l)), map[])
  {
    r := r0;
    if C.LineRefused(CS.Final(r0).db, id, l).None? {
      r := CS.Step(r, CS.LoadLine(0, id, l));
      r := CS.Step(r, CS.CommitLine(0));
      assert CS.Final(r).requests == map[];
    }
  }

  lemma ControlIssueIsRun(r0: CS.Run, id: Uuid, failure: Option<string>, now: int) returns (r: CS.Run)
    requires CS.Reached(r0) && CS.Final(r0).requests == map[]
    ensures CS.Reached(r)
    ensures CS.Final(r) == CS.State(CS.Kept(CS.Final(r0).db, C.AfterIssue(CS.Final(r0).db, id, failure, now)), map[])
  {
    hide CalculateTotals;
    r := r0;
    if C.IssueRefused(CS.Final(r0).db, id).None? {
      r := CS.Step(r, CS.LoadIssue(0, id));
      r := CS.Step(r, CS.CommitIssue(0, failure, now));
      assert CS.Final(r).requests == map[];
    }
  }

  lemma ControlCollectIsRun(r0: CS.Run, id: Uuid, key: string, answer: C.Answer, now: int) returns (r: CS.Run)
    requires CS.Reached(r0) && CS.Final(r0).requests == map[]
    ensures CS.Reached(r) && CS.Final(r) == CS.State(C.Collected(CS.Final(r0).db, id, key, answer, now), map[])
  {
    var s := CS.Final(r0);
    var b := C.Begin(s.db, id, key);
    r := r0;
    if b.Ready? {
      hide CalculateTotals, C.FindAttempt, C.Finish;
      r := CS.Step(r, CS.Load(0, id, key));
      r := CS.Step(r, CS.Insert(0));
      assert CS.Final(r).requests == map[0 := CS.Processing(|s.db.attempts|)];
      r := CS.Step(r, CS.Store(0, answer, now));
      assert CS.Final(r).requests == map[];
    }
  }

  // ---- the two services together -------------------------------------------------------------------

  /**
   * Given the same commands, the two services agree on every invoice's status and
   * on every key's attempt, and on the money up to half a cent of tax per line.
   * Steps that are none of the machine's commands may stand anywhere in either run.
   */
  lemma ServicesAgree(r: TestRun, customers: set<Uuid>, ops: seq<ControlOp>, id: Uuid)
    requires IsTestRun(r) && Loud(TestCommands(r)) == Loud(ControlCommands(customers, ops))
    requires id in TestFinal(r).invoices
    ensures id in ControlRun(customers, ops).invoices
    ensures var i, c := TestFinal(r).invoices[id], ControlRun(customers, ops).invoices[id];
            && i.status == c.status
            && KeyMap(TestMarks(TestFinal(r).attempts), id) == KeyMap(ControlMarks(ControlRun(customers, ops).attempts), id)
            && var t := CalculateTotals(c.lines);
            && t.subtotal == Subtotal(i.lines)
            && -(|i.lines| / 2) <= t.total - Total(i.lines) <= |i.lines| / 2
  {
    TestServiceRefines(r);
    ControlServiceRefines(customers, ops);
    LoudRuns(TestCommands(r));
    LoudRuns(ControlCommands(customers, ops));
    var b := TestRunIsRun(r);
    LinesAreValid(b, id);
    var s, d := TestFinal(r), ControlRun(customers, ops);
    assert TestWorld(s) == ControlWorld(d);
    assert id in TestWorld(s) && id in ControlWorld(d);
    assert TestWorld(s)[id] == ControlWorld(d)[id];
    ServicesDiffer(s.invoices[id].lines);
  }

  lemma GrowTest(r: TestRun, op: TestOp)
    requires IsTestRun(r) && Allowed(TestFinal(r), op)
    ensures IsTestRun(More(r, op)) && TestFinal(More(r, op)) == After(TestFinal(r), op)
    ensures Loud(TestCommands(More(r, op))) == Loud(TestCommands(r)) + (if TestCommand(op).Nothing? then [] else [TestCommand(op)])
  {
    LoudAppend(TestCommands(r), TestCommand(op));
    hide Loud, TestCommand, Allowed, After;
  }

  lemma GrowControl(customers: set<Uuid>, ops: seq<ControlOp>, op: ControlOp)
    ensures var c := ControlCommand(customers, op);
            Loud(ControlCommands(customers, ops + [op])) == Loud(ControlCommands(customers, ops)) + (if c.Nothing? then [] else [c])
  {
    assert (ops + [op])[..|ops|] == ops;
    LoudAppend(ControlCommands(customers, ops), ControlCommand(customers, op));
    hide Loud;
  }

  /** Not an empty promise: one invoice drafted, issued and paid by both, every step of both succeeding. */
  lemma BothPayOneInvoice(c: Uuid, i: Uuid) returns (r: TestRun, ops: seq<ControlOp>)
    ensures IsTestRun(r) && Loud(TestCommands(r)) == Loud(ControlCommands({c}, ops))
    ensures i in TestFinal(r).invoices && TestFinal(r).invoices[i].status == Paid
    ensures forall k | 0 <= k < |ops| ::
              !(ops[k].NewInvoice? && ops[k].customer != c) && !(ops[k].IssueIt? && ops[k].failure.Some?)
  {
    var l := Line("", 1, 100, 0);
    r := PaidTestRun(c, i, l);
    ops := PaidControlRun(c, i, AsFrac(l));
    hide *;
  }

  lemma PaidControlRun(c: Uuid, i: Uuid, l: FracLine) returns (ops: seq<ControlOp>)
    ensures ops == [NewInvoice(i, c), AddOne(i, l), IssueIt(i, None, 0), CollectIt(i, "k", C.Gave(Succeeded, None, None, None), 0)]
    ensures Loud(ControlCommands({c}, ops))
         == [] + [Create(i)] + [Command.AddLine(i, l)] + [Command.Issue(i)] + [Collect(i, "k", Succeeded)]
  {
    hide Loud, ControlCommands;
    NoControl({c});
    var a, b, d := NewInvoice(i, c), AddOne(i, l), IssueIt(i, None, 0);
    var e := CollectIt(i, "k", C.Gave(Succeeded, None, None, None), 0);
    GrowControl({c}, [], a);
    assert [] + [a] == [a];
    GrowControl({c}, [a], b);
    assert [a] + [b] == [a, b];
    GrowControl({c}, [a, b], d);
    assert [a, b] + [d] == [a, b, d];
    GrowControl({c}, [a, b, d], e);
    assert [a, b, d] + [e] == [a, b, d, e];
    ops := [a, b, d, e];
  }

  lemma NoControl(customers: set<Uuid>)
    ensures Loud(ControlCommands(customers, [])) == []
  {
  }

  lemma PaidTestRun(c: Uuid, i: Uuid, l: Line) returns (r: TestRun)
    requires ValidLine(l)
    ensures IsTestRun(r) && i in TestFinal(r).invoices && TestFinal(r).invoices[i].status == Paid
    ensures Loud(TestCommands(r))
         == [] + [Create(i)] + [Command.AddLine(i, AsFrac(l))] + [Command.Issue(i)] + [Collect(i, "k", Succeeded)]
  {
    hide IsTestRun, TestFinal, TestCommands, Loud;
    r := IssuedTestRun(c, i, l);
    var ok := Http(200, Success(None));
    assert Classify(ok) == Answered(Success(None));
    var s := TestFinal(r);
    var op := Alone(0, i, "k", [ok], [true]);
    assert [true][0];
    hide CollectAlone, TestHeads;
    AloneShape(s, 0, i, "k", [ok], [true]);
    GrowTest(r, op);
    hide Classify, CanCollect;
    r := More(r, op);
    HeadStatus(TestFinal(r).invoices, i);
    TestHeadsHas(s.invoices, i);
  }

  lemma TestHeadsHas(invoices: map<Uuid, Invoice>, i: Uuid)
    requires i in invoices
    ensures i in TestHeads(invoices)
  {
  }

  lemma HeadStatus(invoices: map<Uuid, Invoice>, i: Uuid)
    ensures i in TestHeads(invoices) ==> i in invoices && TestHeads(invoices)[i].status == invoices[i].status
  {
  }

  lemma EmptyTestRun() returns (r: TestRun)
    ensures IsTestRun(r) && Loud(TestCommands(r)) == []
    ensures var s := TestFinal(r);
            s.customers == map[] && s.invoices == map[] && s.attempts == [] && s.requests == map[] && s.maxRetries == 3
  {
    r := Fresh(B.State(3, 0, map[], map[], [], [], map[], map[], [], map[], []));
  }

  lemma IssuedTestRun(c: Uuid, i: Uuid, l: Line) returns (r: TestRun)
    requires ValidLine(l)
    ensures IsTestRun(r)
    ensures Loud(TestCommands(r)) == [] + [Create(i)] + [Command.AddLine(i, AsFrac(l))] + [Command.Issue(i)]
    ensures var s := TestFinal(r);
            && i in s.invoices && s.invoices[i].status == Issued && s.attempts == [] && s.requests == map[] && s.maxRetries == 3
  {
    hide B.IssuedEvent, IsTestRun, TestFinal, TestCommands, Loud, AsFrac, ValidLine;
    r := EmptyTestRun();
    var a, b, d, e := Plain(B.CreateCustomer(c, "")), Plain(B.CreateInvoice(i, c, "EUR")), Plain(B.AddLine(i, l)), Plain(B.Issue(i));
    GrowTest(r, a); r := More(r, a);
    GrowTest(r, b); r := More(r, b);
    GrowTest(r, d); r := More(r, d);
    GrowTest(r, e); r := More(r, e);
  }

  lemma LinesAreValid(b: B.Run, id: Uuid)
    requires B.Reached(b) && id in B.Final(b).invoices
    ensures ValidLines(B.Final(b).invoices[id].lines)
  {
    BSet.InvHolds(b);
    assert BI.InvoiceFits(B.Final(b).invoices[id]);
  }
}

/**
 * `clients/payment.py` of the test run and `clients.py` of the control run read the
 * same payment provider: which of its answers leave an attempt the same in both.
 */
module ProviderAnswers {
  import opened Prelude
  import opened Codec
  import opened InvoiceModel
  import opened PaymentClient
  import B = Billing
  import BS = BillingService
  import C = ControlService
  import R = Refinement

  /** The member `status` of a JSON object. */
  datatype StatusMember = Absent | Text(text: string) | OtherJson

  /**
   * A body and the members that the clients read; `texts`: those next to `status` are
   * absent, null or texts, as the response schema asks.
   */
  datatype Json =
    | NotJson
    | NotObject
    | Object(status: StatusMember, paymentId: Option<string>, providerPaymentId: Option<string>,
             errorCode: Option<string>, errorMessage: Option<string>, texts: bool)

  /** What comes back over HTTP: `httpx.TransportError`, another `httpx.HTTPError`, or a response. */
  datatype Wire = Unconnected | Unreadable | Reply(status: nat, body: Json)

  /** `PaymentProviderResponse.model_validate(response.json())`; whatever it raises is caught by nobody. */
  function BodyOf(j: Json): Body {
    if j.Object? && j.texts && j.status == Text("succeeded") then Success(j.paymentId)
    else if j.Object? && j.texts && j.status == Text("failed") then Declined(j.errorMessage)
    else Malformed
  }

  function TestResponse(w: Wire): Response {
    match w
    case Unconnected => TransportFailure
    case Unreadable => RequestFailure
    case Reply(status, body) => Http(status, BodyOf(body))
  }

  /** `PaymentAttemptStatus(data.get("status", "failed"))`; PENDING stands for "processing". */
  function StatusOf(m: StatusMember): Option<AttemptStatus> {
    match m
    case Absent => Some(Failed)
    case OtherJson => None
    case Text(s) =>
      if s == "succeeded" then Some(Succeeded)
      else if s == "failed" then Some(Failed)
      else if s == "processing" then Some(Pending)
      else None
  }

  function ControlAnswer(w: Wire): C.Answer {
    match w
    case Unconnected => C.Unavailable("")
    case Unreadable => C.Unavailable("")
    case Reply(status, body) =>
      if !(200 <= status < 300) then C.Unavailable("payment provider returned HTTP " + NatText(status))
      else if !body.Object? then C.Broke
      else match StatusOf(body.status)
        case None => C.Unavailable("payment provider returned an unknown payment status")
        case Some(status) => C.Gave(status, body.providerPaymentId, body.errorCode, body.errorMessage)
  }

  /** What each client makes of a JSON object in a 2xx response, name by name. */
  lemma ObjectRead(status: nat, j: Json)
    requires 200 <= status < 300 && j.Object?
    ensures var answer := ControlAnswer(Reply(status, j));
            match j.status
            case Absent => answer == C.Gave(Failed, j.providerPaymentId, j.errorCode, j.errorMessage)
            case OtherJson => answer.Unavailable?
            case Text(s) =>
              if s == "succeeded" then answer == C.Gave(Succeeded, j.providerPaymentId, j.errorCode, j.errorMessage)
              else if s == "failed" then answer == C.Gave(Failed, j.providerPaymentId, j.errorCode, j.errorMessage)
              else if s == "processing" then answer == C.Gave(Pending, j.providerPaymentId, j.errorCode, j.errorMessage)
              else answer.Unavailable?
    ensures var outcome := Classify(TestResponse(Reply(status, j)));
            && (outcome == Answered(Success(j.paymentId)) <==> j.texts && j.status == Text("succeeded"))
            && (outcome == Answered(Declined(j.errorMessage)) <==> j.texts && j.status == Text("failed"))
            && (outcome == Answered(Malformed) <==> !j.texts || (j.status != Text("succeeded") && j.status != Text("failed")))
  {
    assert "succeeded"[0] != "failed"[0];
  }

  /**
   * The test service leaves the attempt PENDING where the control service settles it:
   * on a client error, and on a body that only the response schema refuses.
   */
  predicate Diverge(w: Wire) {
    && w.Reply?
    && (|| 400 <= w.status < 500
        || (&& 200 <= w.status < 300 && w.body.Object? && w.body.status != Text("processing")
            && BodyOf(w.body).Malformed?))
  }

  /** Exactly then the two services disagree about an attempt that gets the same final answer. */
  lemma SameAnswerIff(w: Wire)
    ensures BS.StatusAfter(Classify(TestResponse(w)), false) == R.Verdict(ControlAnswer(w)) <==> !Diverge(w)
    ensures Diverge(w) ==>
              BS.StatusAfter(Classify(TestResponse(w)), false) == Pending && R.Verdict(ControlAnswer(w)) != Pending
  {
    hide NatText;
  }

  /** ... and so exactly then their requests for one invoice and key, ending in the same answer, are different commands. */
  lemma SameCommandIff(w: Wire, req: B.ReqId, id: Uuid, key: string, responses: seq<Response>, charged: seq<bool>,
                       customers: set<Uuid>, now: int)
    requires responses != [] && responses[|responses| - 1] == TestResponse(w)
    ensures var test := R.TestCommand(R.Alone(req, id, key, responses, charged));
            var control := R.ControlCommand(customers, R.CollectIt(id, key, ControlAnswer(w), now));
            test == control <==> !Diverge(w)
  {
    SameAnswerIff(w);
    hide NatText, Diverge, TestResponse, ControlAnswer, Classify, BS.StatusAfter, R.Verdict;
  }
}

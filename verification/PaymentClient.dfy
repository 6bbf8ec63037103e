/** `clients/base.py` and `clients/payment.py` of the test run: bounded retries and the split of outcomes. */
module PaymentClient {
  import opened Prelude
  import opened Codec

  datatype Body = Success(paymentId: Option<string>) | Declined(message: Option<string>) | Malformed

  /** What one HTTP exchange gave back. */
  datatype Response =
    | TransportFailure                       // httpx.TransportError
    | RequestFailure                         // any other httpx.HTTPError without a response
    | Http(status: int, body: Body)

  /** `_is_retryable_http_error` of what the exchange raises. */
  predicate Retryable(r: Response) { r.TransportFailure? || (r.Http? && r.status >= 500) }

  datatype Outcome =
    | Answered(body: Body)        // a 2xx response; Malformed makes the schema validation raise
    | ProviderError(message: string)
    | Rejected
    | RateLimited

  /** `PaymentProviderResult.succeeded` */
  predicate Succeeds(o: Outcome) { o.Answered? && o.body.Success? }

  /** The `except` clauses of `collect_payment`. */
  function Classify(r: Response): Outcome {
    match r
    case TransportFailure => ProviderError("payment provider request failed")
    case RequestFailure => ProviderError("payment provider request failed")
    case Http(status, body) =>
      if 200 <= status < 300 then Answered(body)
      else if status == 429 then RateLimited
      else if 400 <= status < 500 then Rejected
      else ProviderError("payment provider returned an error")
  }

  /** `stop_after_attempt(n)` always lets the first attempt through. */
  function MaxSends(maxRetries: int): (n: nat)
    ensures n >= 1
  {
    if maxRetries < 1 then 1 else maxRetries
  }

  /** The retry loop ends after the k-th response. */
  predicate Stops(maxRetries: int, k: nat, r: Response) { !Retryable(r) || k >= maxRetries }

  /** The exchanges of one logical call: all but the last are retried, and the last one is not. */
  predicate IsExchange(maxRetries: int, responses: seq<Response>) {
    && 1 <= |responses| <= MaxSends(maxRetries)
    && (forall i | 0 <= i < |responses| - 1 :: Retryable(responses[i]))
    && (Retryable(responses[|responses| - 1]) ==> |responses| == MaxSends(maxRetries))
  }

  /** The exchanges so far of a call that goes on. */
  predicate GoesOn(maxRetries: int, got: seq<Response>) {
    |got| < MaxSends(maxRetries) && forall k | 0 <= k < |got| :: Retryable(got[k])
  }

  /** One more response ends the call, or it goes on. */
  lemma OneMore(maxRetries: int, got: seq<Response>, r: Response)
    requires GoesOn(maxRetries, got)
    ensures Stops(maxRetries, |got| + 1, r) <==> IsExchange(maxRetries, got + [r])
    ensures !Stops(maxRetries, |got| + 1, r) <==> GoesOn(maxRetries, got + [r])
  {
    assert (got + [r])[|got|] == r;
    forall k | 0 <= k < |got|
      ensures (got + [r])[k] == got[k]
    {
    }
  }

  /** One HTTP request as the provider sees it. */
  datatype Request = Request(invoiceId: Uuid, key: string, amount: int, currency: string)

  /**
   * `_request` as its caller sees it, nothing else looked at: send until a response is not retryable or the attempts are used
   * up.  `oracle(k)` is what exchange k gives; every send carries the same request.
   */
  method Send(maxRetries: int, request: Request, oracle: nat -> Response)
    returns (outcome: Outcome, sent: seq<Request>, responses: seq<Response>)
    ensures IsExchange(maxRetries, responses)
    ensures forall i | 0 <= i < |responses| :: responses[i] == oracle(i)
    ensures |sent| == |responses| && forall i | 0 <= i < |sent| :: sent[i] == request
    ensures outcome == Classify(responses[|responses| - 1])
    // written out: what is sent again, and when sending stops
    ensures forall i | 0 <= i < |responses| - 1 :: responses[i].TransportFailure? || (responses[i].Http? && responses[i].status >= 500)
    ensures var last := responses[|responses| - 1];
            last.TransportFailure? || (last.Http? && last.status >= 500) ==> |responses| == maxRetries || (maxRetries < 1 && |responses| == 1)
  {
    sent, responses := [], [];
    var k := 0;
    while true
      invariant |sent| == |responses| == k < MaxSends(maxRetries)
      invariant forall i | 0 <= i < k :: responses[i] == oracle(i) && Retryable(responses[i]) && sent[i] == request
      decreases MaxSends(maxRetries) - k
    {
      sent := sent + [request];
      responses := responses + [oracle(k)];
      k := k + 1;
      if Stops(maxRetries, k, responses[k - 1]) {
        outcome := Classify(responses[k - 1]);
        return;
      }
    }
  }

  /** Exactly the exhausted or unexpected failures become ProviderError, the one outcome that fails the attempt. */
  lemma ProviderErrorIff(maxRetries: int, responses: seq<Response>)
    requires IsExchange(maxRetries, responses)
    ensures var last := responses[|responses| - 1];
            Classify(last).ProviderError? <==>
              || (Retryable(last) && |responses| == MaxSends(maxRetries))
              || last.RequestFailure?
              || (last.Http? && (last.status < 200 || 300 <= last.status < 400))
  {
  }
}

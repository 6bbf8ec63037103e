/** `app/outbox/model.py` of the outbox skill: one row and its bookkeeping. */
module OutboxModel {
  import opened Prelude
  import opened MessageBus

  const SECOND := 1_000_000   // times are integers, in microseconds
  const MAX_ATTEMPTS := 10
  const BACKOFF_CAP := 3600

  function Pow2(n: nat): (p: nat)
    ensures p >= 1
  {
    if n == 0 then 1 else 2 * Pow2(n - 1)
  }

  /** `timedelta(seconds=min(2**attempts, 3600))` */
  function BackOff(attempts: nat): (d: nat)
    ensures d > 0
  {
    (if Pow2(attempts) <= BACKOFF_CAP then Pow2(attempts) else BACKOFF_CAP) * SECOND
  }

  lemma {:induction false} Pow2Monotone(m: nat, n: nat)
    requires m <= n
    ensures Pow2(m) <= Pow2(n)
    decreases n
  {
    if m < n {
      Pow2Monotone(m, n - 1);
    }
  }

  /** The cap never binds on a row that can still fail. */
  lemma CapNeverBinds(k: nat)
    requires k <= MAX_ATTEMPTS
    ensures BackOff(k) == Pow2(k) * SECOND
  {
    Pow2Monotone(k, MAX_ATTEMPTS);
    assert Pow2(MAX_ATTEMPTS) == 1024;
  }

  /** What the worker caught: no class for the event type, a payload it rejects, or the bus's group of failures. */
  datatype Failure = UnknownEvent | InvalidPayload | HandlersFailed(failed: seq<nat>)

  datatype Row = Row(
    eventType: string,
    payload: string,
    createdAt: int,
    availableAt: int,
    attempts: nat,
    processedAt: Option<int>,
    error: Option<Failure>)

  function Fresh(eventType: string, payload: string, now: int): Row {
    Row(eventType, payload, now, now, 0, None, None)
  }

  function Processed(r: Row, now: int): Row { r.(processedAt := Some(now), error := None) }

  function Failed(r: Row, now: int, f: Failure): Row {
    r.(attempts := r.attempts + 1, error := Some(f), availableAt := now + BackOff(r.attempts + 1))
  }

  /** The part of the claim filter that does not mention the clock. */
  predicate Pending(r: Row) { r.processedAt == None && r.attempts < MAX_ATTEMPTS }

  predicate Dead(r: Row) { r.processedAt == None && r.attempts >= MAX_ATTEMPTS }

  class OutboxEntry {
    var eventType: string
    var payload: string
    var createdAt: int
    var availableAt: int
    var attempts: nat
    var processedAt: Option<int>
    var error: Option<Failure>

    function View(): Row
      reads this
    {
      Row(eventType, payload, createdAt, availableAt, attempts, processedAt, error)
    }

    constructor FromEvent(eventType: string, payload: string, now: int)
      ensures View() == Fresh(eventType, payload, now)
      ensures this.eventType == eventType && this.payload == payload && createdAt == availableAt == now
      ensures attempts == 0 && processedAt == None && error == None
    {
      this.eventType, this.payload, createdAt, availableAt := eventType, payload, now, now;
      attempts, processedAt, error := 0, None, None;
    }

    constructor Load(r: Row)
      ensures View() == r
    {
      eventType, payload, createdAt, availableAt := r.eventType, r.payload, r.createdAt, r.availableAt;
      attempts, processedAt, error := r.attempts, r.processedAt, r.error;
    }

    method MarkProcessed(now: int)
      modifies this
      ensures View() == Processed(old(View()), now)
      ensures processedAt == Some(now) && error == None
      ensures unchanged(`eventType, `payload, `createdAt, `availableAt, `attempts)
    {
      processedAt := Some(now);
      error := None;
    }

    method RecordFailure(now: int, f: Failure)
      modifies this
      ensures View() == Failed(old(View()), now, f)
      ensures attempts == old(attempts) + 1 && error == Some(f) && availableAt == now + BackOff(attempts)
      ensures unchanged(`eventType, `payload, `createdAt, `processedAt)
    {
      attempts := attempts + 1;
      error := Some(f);
      availableAt := now + BackOff(attempts);
    }
  }
}

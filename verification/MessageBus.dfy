/** The in-process bus of the outbox skill: run every handler, then raise the failures together. */
module MessageBus {
  import opened Prelude

  /** Positions of the handlers that raised, in call order. */
  function Failures(results: seq<bool>): seq<nat> {
    if results == [] then []
    else var n := |results| - 1;
         Failures(results[..n]) + (if results[n] then [] else [n])
  }

  /** The collected failures are exactly the handlers that raised, each listed once. */
  lemma {:induction false} FailuresExact(results: seq<bool>)
    ensures forall i: nat :: i in Failures(results) <==> i < |results| && !results[i]
    ensures |Failures(results)| == CountIf(results, (ok: bool) => !ok)
  {
    if results != [] {
      var n := |results| - 1;
      FailuresExact(results[..n]);
      forall i: nat
        ensures i in Failures(results) <==> i < |results| && !results[i]
      {
        if i < n { assert results[..n][i] == results[i]; }
      }
    }
  }

  /** `publish` returns normally exactly when every handler did. */
  lemma NoFailures(results: seq<bool>)
    ensures Failures(results) == [] <==> forall i | 0 <= i < |results| :: results[i]
  {
    FailuresExact(results);
    if Failures(results) != [] {
      assert Failures(results)[0] in Failures(results);
    } else {
      forall i: nat | i < |results|
        ensures results[i]
      {
        assert i !in Failures(results);
      }
    }
  }

  /** A handler is known by name; what a call does is an oracle. */
  type Handler = string

  class Bus {
    var handlers: map<string, seq<Handler>>

    constructor ()
      ensures handlers == map[]
    {
      handlers := map[];
    }

    function Subscribed(eventType: string): seq<Handler>
      reads this
    {
      if eventType in handlers then handlers[eventType] else []
    }

    method Subscribe(eventType: string, handler: Handler)
      modifies this
      ensures Subscribed(eventType) == old(Subscribed(eventType)) + [handler]
      ensures forall t | t != eventType :: Subscribed(t) == old(Subscribed(t))
    {
      handlers := handlers[eventType := Subscribed(eventType) + [handler]];
    }

    /** `results[i]` says whether the i-th subscribed handler returns or raises. */
    method Publish(eventType: string, results: seq<bool>) returns (called: seq<Handler>, failures: seq<nat>)
      requires |results| == |Subscribed(eventType)|
      ensures called == Subscribed(eventType)
      ensures failures == Failures(results)
    {
      var subscribed := Subscribed(eventType);
      called, failures := [], [];
      for i := 0 to |subscribed|
        invariant called == subscribed[..i]
        invariant failures == Failures(results[..i])
      {
        called := called + [subscribed[i]];
        if !results[i] {
          failures := failures + [i];
        }
        assert results[..i + 1][..i] == results[..i];
      }
      assert results[..|subscribed|] == results;
    }
  }
}

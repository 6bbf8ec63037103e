/** `app/outbox/dispatcher.py` of the outbox skill: the loop each worker runs. */
module OutboxDispatcher {
  import opened Prelude
  import opened MessageBus
  import opened OutboxModel
  import opened OutboxProtocol
  import opened OutboxLiveness

  /** The worker an action belongs to; None for business transactions and the clock. */
  function WorkerOf(a: Action): Option<WorkerId> {
    match a
    case Claim(w, _) => Some(w)
    case Publish(w, _) => Some(w)
    case Commit(w) => Some(w)
    case Crash(w) => Some(w)
    case _ => None
  }

  function CommitsBy(w: WorkerId): (State, Action) -> nat {
    (s: State, a: Action) => if a == Commit(w) then 1 else 0
  }

  /** The event class is known, it accepts the payload, and every handler returns. */
  predicate Succeeds(cfg: Config, eventType: string, payload: string, results: seq<bool>) {
    eventType in cfg.known && (eventType, payload) !in cfg.rejected && forall i | 0 <= i < |results| :: results[i]
  }

  /** The `try` block: `to_event`, `publish`, then one of the two bookkeeping methods. */
  method Deliver(cfg: Config, bus: Bus, entry: OutboxEntry, now: int, results: seq<bool>)
    requires |results| == |bus.Subscribed(entry.eventType)|
    modifies entry
    ensures entry.View() == Outcome(cfg, old(entry.View()), now, results)
    ensures unchanged(entry`eventType, entry`payload, entry`createdAt)
    ensures Succeeds(cfg, entry.eventType, entry.payload, results) ==>
              entry.processedAt == Some(now) && entry.error == None && unchanged(entry`attempts, entry`availableAt)
    ensures !Succeeds(cfg, entry.eventType, entry.payload, results) ==>
              && unchanged(entry`processedAt) && entry.attempts == old(entry.attempts) + 1
              && entry.availableAt == now + BackOff(entry.attempts)
              && entry.error.Some?
              && (entry.error == Some(UnknownEvent) <==> entry.eventType !in cfg.known)
              && (entry.error == Some(InvalidPayload) <==>
                    entry.eventType in cfg.known && (entry.eventType, entry.payload) in cfg.rejected)
              && (entry.error.value.HandlersFailed? ==>
                    forall i: nat :: i in entry.error.value.failed <==> i < |results| && !results[i])
  {
    NoFailures(results);
    FailuresExact(results);
    var failure := DecodeFailure(cfg, entry.View());
    if failure.Some? {
      entry.RecordFailure(now, failure.value);
    } else {
      var called, failures := bus.Publish(entry.eventType, results);
      if failures != [] {
        entry.RecordFailure(now, HandlersFailed(failures));
      } else {
        entry.MarkProcessed(now);
      }
    }
  }

  /** ... for the handlers that answer as `oracle` says. */
  predicate Answers(cfg: Config, eventType: string, payload: string, oracle: int -> bool) {
    && eventType in cfg.known && (eventType, payload) !in cfg.rejected
    && forall i | 0 <= i < HandlerCount(cfg, eventType) :: oracle(i)
  }

  /** A delivery with these answers turns `was` into `row`. */
  predicate DeliveredAs(cfg: Config, was: Row, row: Row, oracle: int -> bool) {
    && SameContent(row, was)
    && if Answers(cfg, was.eventType, was.payload, oracle)
       then row.processedAt.Some? && row.error == None && row.attempts == was.attempts
       else row.processedAt == was.processedAt && row.error.Some? && row.attempts == was.attempts + 1
  }

  lemma ResultsAnswer(cfg: Config, eventType: string, payload: string, results: seq<bool>, oracle: int -> bool)
    requires |results| == HandlerCount(cfg, eventType) && forall i | 0 <= i < |results| :: results[i] == oracle(i)
    ensures Succeeds(cfg, eventType, payload, results) <==> Answers(cfg, eventType, payload, oracle)
  {
    if Succeeds(cfg, eventType, payload, results) {
      forall i | 0 <= i < HandlerCount(cfg, eventType)
        ensures oracle(i)
      {
        assert results[i];
      }
    }
  }

  /** `run` continues `start` to state `s`, and worker `w` committed `n` deliveries on the way. */
  ghost predicate Tracks(start: Run, run: Run, s: State, w: WorkerId, n: nat) {
    && IsRun(start) && IsRun(run) && Extends(run, start) && Final(run) == s && Inv(s)
    && Tally(run, CommitsBy(w)) == Tally(start, CommitsBy(w)) + n
  }

  lemma StepTracks(start: Run, run: Run, s: State, w: WorkerId, n: nat, a: Action)
    requires Tracks(start, run, s, w, n) && Enabled(s, a)
    ensures Tracks(start, Then(run, a), Do(s, a), w, if a == Commit(w) then n + 1 else n)
  {
    StepKeepsInv(s, a);
  }

  /** The outbox table as one process sees it, together with everybody else's transactions. */
  class Outbox {
    var state: State

    constructor (s: State)
      ensures state == s
    {
      state := s;
    }

    /**
     * Whatever other workers, business transactions and the clock do in between;
     * impossible actions are skipped.  The row lock keeps the claimed row as it was read.
     */
    method Interfere(w: WorkerId, others: seq<Action>, ghost start: Run, ghost run: Run, ghost n: nat)
      returns (ghost after: Run)
      requires Tracks(start, run, state, w, n)
      modifies this
      ensures Tracks(start, after, state, w, n)
      ensures SameForWorker(w, old(state), state)
    {
      after := run;
      if w in state.workers { assert WorkerFits(state, w); }
      for i := 0 to |others|
        invariant Tracks(start, after, state, w, n)
        invariant SameForWorker(w, old(state), state)
      {
        var a := others[i];
        if Enabled(state, a) && WorkerOf(a) != Some(w) {
          OthersKeepOwnRow(w, state, a);
          StepTracks(start, after, state, w, n, a);
          state := Do(state, a);
          after := Then(after, a);
        }
      }
    }

    /** `claim_next`: lock the row and load it. */
    method ClaimRow(w: WorkerId, id: RowId, ghost start: Run, ghost run: Run, ghost n: nat)
      returns (entry: OutboxEntry, ghost after: Run)
      requires Tracks(start, run, state, w, n) && w !in state.workers && IsNext(state, id)
      modifies this
      ensures Tracks(start, after, state, w, n) && state == Do(old(state), Claim(w, id))
      ensures fresh(entry) && entry.View() == state.rows[id]
    {
      StepTracks(start, run, state, w, n, Claim(w, id));
      entry := new OutboxEntry.Load(state.rows[id]);
      state := Do(state, Claim(w, id));
      after := Then(run, Claim(w, id));
    }

    /** The publish and its bookkeeping on the loaded entry. */
    method PublishRow(w: WorkerId, bus: Bus, entry: OutboxEntry, oracle: int -> bool,
                      ghost start: Run, ghost run: Run, ghost n: nat)
      returns (ghost after: Run)
      requires Tracks(start, run, state, w, n) && w in state.workers && state.workers[w].Claimed?
      requires state.workers[w].id < |state.rows| && entry.View() == state.rows[state.workers[w].id]
      requires |bus.Subscribed(entry.eventType)| == HandlerCount(state.cfg, entry.eventType)
      modifies this, entry
      ensures Tracks(start, after, state, w, n) && state.cfg == old(state).cfg
      ensures w in state.workers && state.workers[w].Published? && state.workers[w].result == entry.View()
      ensures old(state).workers[w].id == state.workers[w].id
      ensures DeliveredAs(state.cfg, old(entry.View()), entry.View(), oracle)
    {
      var results := seq(|bus.Subscribed(entry.eventType)|, i => oracle(i));
      ResultsAnswer(state.cfg, entry.eventType, entry.payload, results, oracle);
      StepTracks(start, run, state, w, n, Publish(w, results));
      Deliver(state.cfg, bus, entry, state.clock, results);
      state := Do(state, Publish(w, results));
      after := Then(run, Publish(w, results));
    }

    /** Leaving the transaction block: write the entry back and release the lock. */
    method CommitRow(w: WorkerId, entry: OutboxEntry, ghost start: Run, ghost run: Run, ghost n: nat)
      returns (ghost after: Run)
      requires Tracks(start, run, state, w, n) && w in state.workers && state.workers[w].Published?
      requires state.workers[w].result == entry.View()
      modifies this
      ensures Tracks(start, after, state, w, n + 1) && w !in state.workers && state.cfg == old(state).cfg
      ensures var id := old(state).workers[w].id; id < |state.rows| && state.rows[id] == entry.View()
    {
      assert WorkerFits(state, w);
      StepTracks(start, run, state, w, n, Commit(w));
      state := Do(state, Commit(w));
      after := Then(run, Commit(w));
    }

    /** One transaction, with interference before its publish and before its commit. */
    method DispatchRow(w: WorkerId, bus: Bus, id: RowId, others: nat -> seq<Action>, oracle: int -> bool,
                       ghost start: Run, ghost run: Run, ghost n: nat)
      returns (ghost after: Run)
      requires Tracks(start, run, state, w, n) && w !in state.workers && IsNext(state, id)
      requires forall t :: |bus.Subscribed(t)| == HandlerCount(state.cfg, t)
      modifies this
      ensures Tracks(start, after, state, w, n + 1) && w !in state.workers && state.cfg == old(state).cfg
      ensures id < |old(state).rows| && id < |state.rows| && old(state).rows[id].processedAt.None?
      ensures DeliveredAs(state.cfg, old(state).rows[id], state.rows[id], oracle)
    {
      hide *;
      assert id < |state.rows| && state.rows[id].processedAt.None? by { NextIsPending(state, id); }
      ClaimGives(state, w, id);
      var entry: OutboxEntry;
      entry, after := ClaimRow(w, id, start, run, n);
      HoldsRow(start, after, state, w, n);
      label claimed:
      after := Interfere(w, others(1), start, after, n);
      SameGives(w, old@claimed(state), state);
      ViewParts(entry, state.rows[id]);
      after := PublishRow(w, bus, entry, oracle, start, after, n);
      HoldsRow(start, after, state, w, n);
      label published:
      after := Interfere(w, others(2), start, after, n);
      SameGives(w, old@published(state), state);
      after := CommitRow(w, entry, start, after, n);
    }

    /**
     * `dispatch_outbox`: at most `batchSize` rows, one transaction each.  The call is
     * a run of the protocol in which this worker commits exactly `dispatched`
     * deliveries, and it stops early only when nothing is claimable.
     */
    method DispatchOutbox(w: WorkerId, bus: Bus, batchSize: nat,
                          others: nat -> nat -> seq<Action>, oracle: nat -> int -> bool, ghost start: Run)
      returns (dispatched: nat, ghost run: Run)
      requires IsRun(start) && Final(start) == state && Inv(state) && w !in state.workers
      requires forall t :: |bus.Subscribed(t)| == HandlerCount(state.cfg, t)
      modifies this
      ensures Tracks(start, run, state, w, dispatched)
      ensures dispatched <= batchSize
      ensures dispatched < batchSize ==> forall id :: !Claimable(state, id)
      ensures w !in state.workers
    {
      dispatched, run := 0, start;
      for k := 0 to batchSize
        invariant dispatched == k
        invariant Tracks(start, run, state, w, dispatched)
        invariant w !in state.workers && state.cfg == old(state).cfg
      {
        run := Interfere(w, others(k)(0), start, run, dispatched);
        if id :| 0 <= id < |state.rows| && IsNext(state, id) {
          run := DispatchRow(w, bus, id, others(k), oracle(k), start, run, dispatched);
        } else {
          NothingNext(state);
          break;
        }
        dispatched := dispatched + 1;
      }
    }
  }

  /** The worker's position and the row it holds are the same in both states. */
  predicate SameForWorker(w: WorkerId, s: State, t: State) {
    && s.cfg == t.cfg
    && (w in s.workers <==> w in t.workers)
    && (w in s.workers ==>
          && s.workers[w] == t.workers[w]
          && s.workers[w].id < |s.rows| <= |t.rows|
          && s.rows[s.workers[w].id] == t.rows[s.workers[w].id])
  }

  /** A step of anybody else leaves a worker's position and the row it holds alone. */
  lemma OthersKeepOwnRow(w: WorkerId, s: State, a: Action)
    requires Inv(s) && Enabled(s, a) && WorkerOf(a) != Some(w)
    ensures SameForWorker(w, s, Do(s, a)) && Inv(Do(s, a))
  {
    StepKeepsInv(s, a);
    if w in s.workers { assert WorkerFits(s, w); }
    if WorkerOf(a).Some? && WorkerOf(a).value in s.workers { assert WorkerFits(s, WorkerOf(a).value); }
  }

  lemma SameGives(w: WorkerId, s: State, t: State)
    requires SameForWorker(w, s, t) && w in s.workers
    ensures t.cfg == s.cfg && w in t.workers && t.workers[w] == s.workers[w]
    ensures s.workers[w].id < |s.rows| && s.workers[w].id < |t.rows| && t.rows[s.workers[w].id] == s.rows[s.workers[w].id]
  {
  }

  lemma NextIsPending(s: State, id: RowId)
    requires IsNext(s, id)
    ensures id < |s.rows| && s.rows[id].processedAt.None?
  {
  }

  lemma ClaimGives(s: State, w: WorkerId, id: RowId)
    requires w !in s.workers && IsNext(s, id)
    ensures Enabled(s, Claim(w, id))
    ensures var t := Do(s, Claim(w, id)); t.rows == s.rows && t.cfg == s.cfg && w in t.workers && t.workers[w] == Claimed(id, s.clock)
  {
  }

  lemma HoldsRow(start: Run, run: Run, s: State, w: WorkerId, n: nat)
    requires Tracks(start, run, s, w, n) && w in s.workers
    ensures s.workers[w].id < |s.rows|
  {
    assert WorkerFits(s, w);
  }

  lemma ViewParts(entry: OutboxEntry, r: Row)
    requires entry.View() == r
    ensures entry.eventType == r.eventType && entry.payload == r.payload
  {
  }

  lemma NothingNext(s: State)
    requires !exists id :: 0 <= id < |s.rows| && IsNext(s, id)
    ensures forall id :: !Claimable(s, id)
  {
    forall id
      ensures !Claimable(s, id)
    {
      if Claimable(s, id) {
        var n := NextExists(s, id);
      }
    }
  }
}

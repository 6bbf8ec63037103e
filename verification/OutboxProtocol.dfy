/**
 * The delivery protocol of the outbox skill as a step system: any number of
 * workers claim rows under FOR UPDATE SKIP LOCKED, publish them and commit.
 * A step is one database transaction boundary or one publish; steps of
 * different workers interleave freely and a worker may crash between any two.
 */
module OutboxProtocol {
  import opened Prelude
  import opened MessageBus
  import opened OutboxModel

  type RowId = nat      // position in insertion order; stands for the row's UUID
  type WorkerId = nat

  /** Event classes known to `to_event`, payloads their validation rejects, and how many handlers each event type has. */
  datatype Config = Config(known: set<string>, rejected: set<(string, string)>, handlers: map<string, nat>)

  /** What `to_event` raises, if anything. */
  function DecodeFailure(cfg: Config, r: Row): Option<Failure> {
    if r.eventType !in cfg.known then Some(UnknownEvent)
    else if (r.eventType, r.payload) in cfg.rejected then Some(InvalidPayload)
    else None
  }

  function HandlerCount(cfg: Config, eventType: string): nat {
    if eventType in cfg.handlers then cfg.handlers[eventType] else 0
  }

  /** Inside `async with session.begin()`: row claimed, or published with the changed row not yet committed. */
  datatype Pc = Claimed(id: RowId, at: int) | Published(id: RowId, at: int, result: Row)

  datatype State = State(
    cfg: Config,
    clock: int,
    rows: seq<Row>,
    locks: map<RowId, WorkerId>,
    workers: map<WorkerId, Pc>)

  datatype Action =
    | Insert(eventType: string, payload: string, stamp: int)   // a business transaction commits; stamp is its clock reading
    | Claim(w: WorkerId, id: RowId)
    | Publish(w: WorkerId, results: seq<bool>)    // results[i]: did handler i succeed?
    | Commit(w: WorkerId)
    | Crash(w: WorkerId)                          // the transaction is rolled back and the lock released
    | Tick(d: nat)

  /** The WHERE clause of `claim_next`, and not locked by another transaction. */
  predicate Claimable(s: State, id: RowId) {
    id < |s.rows| && Pending(s.rows[id]) && s.rows[id].availableAt <= s.clock && id !in s.locks
  }

  /** ORDER BY available_at LIMIT 1; ties are broken arbitrarily. */
  predicate IsNext(s: State, id: RowId) {
    Claimable(s, id) &&
    forall j | 0 <= j < |s.rows| && Claimable(s, j) :: s.rows[id].availableAt <= s.rows[j].availableAt
  }

  /** `try: publish / except: record_failure / else: mark_processed` on the claimed row. */
  function Outcome(cfg: Config, r: Row, now: int, results: seq<bool>): Row {
    if DecodeFailure(cfg, r).Some? then Failed(r, now, DecodeFailure(cfg, r).value)
    else if Failures(results) != [] then Failed(r, now, HandlersFailed(Failures(results)))
    else Processed(r, now)
  }

  predicate Enabled(s: State, a: Action) {
    match a
    case Insert(_, _, stamp) => stamp <= s.clock
    case Claim(w, id) => w !in s.workers && IsNext(s, id)
    case Publish(w, results) =>
      && w in s.workers && s.workers[w].Claimed? && s.workers[w].id < |s.rows|
      && |results| == HandlerCount(s.cfg, s.rows[s.workers[w].id].eventType)
    case Commit(w) => w in s.workers && s.workers[w].Published? && s.workers[w].id < |s.rows|
    case Crash(w) => w in s.workers
    case Tick(_) => true
  }

  function Do(s: State, a: Action): State
    requires Enabled(s, a)
  {
    match a
    case Insert(t, payload, stamp) => s.(rows := s.rows + [Fresh(t, payload, stamp)])
    case Claim(w, id) => s.(locks := s.locks[id := w], workers := s.workers[w := Claimed(id, s.clock)])
    case Publish(w, results) =>
      var id := s.workers[w].id;
      s.(workers := s.workers[w := Published(id, s.clock, Outcome(s.cfg, s.rows[id], s.clock, results))])
    case Commit(w) =>
      var pc := s.workers[w];
      s.(rows := s.rows[pc.id := pc.result], locks := s.locks - {pc.id}, workers := s.workers - {w})
    case Crash(w) => s.(locks := s.locks - {s.workers[w].id}, workers := s.workers - {w})
    case Tick(d) => s.(clock := s.clock + d)
  }

  // ---- runs -------------------------------------------------------------------

  datatype Run = Start(init: State) | Then(prefix: Run, a: Action)

  predicate IsRun(r: Run)
    decreases r, 0
  {
    r.Then? ==> IsRun(r.prefix) && Enabled(Final(r.prefix), r.a)
  }

  function Final(r: Run): State
    requires IsRun(r)
    decreases r, 1
  {
    if r.Start? then r.init else Do(Final(r.prefix), r.a)
  }

  function Origin(r: Run): State {
    if r.Start? then r.init else Origin(r.prefix)
  }

  predicate Init(s: State) { s.rows == [] && s.locks == map[] && s.workers == map[] }

  /** A run from an empty table. */
  predicate Reached(r: Run) { IsRun(r) && Init(Origin(r)) }

  /** Sum over the steps of a run of a weight of the state before each step and the step. */
  function Tally(r: Run, f: (State, Action) -> nat): nat
    requires IsRun(r)
  {
    if r.Start? then 0 else Tally(r.prefix, f) + f(Final(r.prefix), r.a)
  }

  // ---- the inductive invariant -------------------------------------------------

  ghost predicate WorkerFits(s: State, w: WorkerId)
    requires w in s.workers
  {
    var pc := s.workers[w];
    && pc.id < |s.rows|
    && pc.id in s.locks && s.locks[pc.id] == w
    && Pending(s.rows[pc.id])
    && s.rows[pc.id].availableAt <= pc.at <= s.clock
    && (pc.Published? ==>
          || pc.result == Processed(s.rows[pc.id], pc.at)
          || exists f :: pc.result == Failed(s.rows[pc.id], pc.at, f))
  }

  /** A held lock belongs to the one worker that is delivering the row. */
  ghost predicate Inv(s: State) {
    && (forall w | w in s.workers :: WorkerFits(s, w))
    && (forall id | id in s.locks :: s.locks[id] in s.workers && s.workers[s.locks[id]].id == id)
    && (forall id | 0 <= id < |s.rows| :: RowFits(s.rows[id]))
  }

  predicate RowFits(r: Row) {
    r.attempts <= MAX_ATTEMPTS && (r.processedAt.Some? ==> r.attempts < MAX_ATTEMPTS)
  }

  lemma StepKeepsInv(s: State, a: Action)
    requires Inv(s) && Enabled(s, a)
    ensures Inv(Do(s, a))
  {
    if a.Commit? || a.Crash? {
      ReleaseKeepsInv(s, a);
    } else {
      AcquireKeepsInv(s, a);
    }
    hide Inv, Do;
  }

  lemma AcquireKeepsInv(s: State, a: Action)
    requires Inv(s) && Enabled(s, a) && !a.Commit? && !a.Crash?
    ensures Inv(Do(s, a))
  {
    var t := Do(s, a);
    forall w | w in t.workers
      ensures WorkerFits(t, w)
    {
      assert w in s.workers ==> WorkerFits(s, w);
    }
  }

  lemma ReleaseKeepsInv(s: State, a: Action)
    requires Inv(s) && Enabled(s, a) && (a.Commit? || a.Crash?)
    ensures Inv(Do(s, a))
  {
    var t := Do(s, a);
    assert WorkerFits(s, a.w);
    forall w | w in t.workers
      ensures WorkerFits(t, w)
    {
      assert WorkerFits(s, w);
    }
  }

  lemma {:induction false} InvHolds(r: Run)
    requires IsRun(r) && Inv(Origin(r))
    ensures Inv(Final(r))
  {
    if r.Then? {
      InvHolds(r.prefix);
      StepKeepsInv(Final(r.prefix), r.a);
    }
  }

  /** No row is in delivery by two workers, and only pending rows are in delivery. */
  lemma OneWorkerPerRow(r: Run)
    requires Reached(r)
    ensures var s := Final(r);
            forall v, w | v in s.workers && w in s.workers && s.workers[v].id == s.workers[w].id :: v == w
    ensures var s := Final(r);
            forall w | w in s.workers :: s.workers[w].id < |s.rows| && Pending(s.rows[s.workers[w].id])
  {
    InvHolds(r);
    var s := Final(r);
    forall w | w in s.workers ensures WorkerFits(s, w) {}
  }

  lemma HeldLocks(s: State)
    requires Inv(s)
    ensures forall id | id in s.locks :: id < |s.rows| && s.locks[id] in s.workers && WorkerFits(s, s.locks[id])
  {
    forall id | id in s.locks
      ensures s.locks[id] in s.workers && WorkerFits(s, s.locks[id])
    {
    }
  }

  // ---- accounting ----------------------------------------------------------------

  /** Deliveries of the row: `to_event`, and what follows if it does not raise. */
  function DeliveriesOf(id: RowId): (State, Action) -> nat {
    (s: State, a: Action) => if a.Publish? && a.w in s.workers && s.workers[a.w].id == id then 1 else 0
  }

  predicate Decodes(s: State, id: RowId) { id < |s.rows| && DecodeFailure(s.cfg, s.rows[id]) == None }

  /** Those of them that reach the bus. */
  function PublishesOf(id: RowId): (State, Action) -> nat {
    (s: State, a: Action) => if DeliveriesOf(id)(s, a) == 1 && Decodes(s, id) then 1 else 0
  }

  /** Crashes after the handlers ran and before the commit. */
  function LostDeliveriesOf(id: RowId): (State, Action) -> nat {
    (s: State, a: Action) =>
      if a.Crash? && a.w in s.workers && s.workers[a.w].Published? && s.workers[a.w].id == id then 1 else 0
  }

  function CommitsOf(id: RowId): (State, Action) -> nat {
    (s: State, a: Action) => if a.Commit? && a.w in s.workers && s.workers[a.w].id == id then 1 else 0
  }

  /** 1 when the row's publish has happened and its commit has not. */
  function InFlight(s: State, id: RowId): nat {
    if id in s.locks && s.locks[id] in s.workers && s.workers[s.locks[id]].Published? then 1 else 0
  }

  /** Committed deliveries, as recorded in the row itself. */
  function Recorded(s: State, id: RowId): nat {
    if id < |s.rows| then s.rows[id].attempts + (if s.rows[id].processedAt.Some? then 1 else 0) else 0
  }

  lemma CountStep(s: State, a: Action, id: RowId)
    requires Inv(s) && Enabled(s, a)
    ensures Recorded(Do(s, a), id) == Recorded(s, id) + CommitsOf(id)(s, a)
    ensures InFlight(Do(s, a), id) + CommitsOf(id)(s, a) + LostDeliveriesOf(id)(s, a)
         == InFlight(s, id) + DeliveriesOf(id)(s, a)
  {
    if !a.Insert? && !a.Tick? && !a.Claim? {
      assert WorkerFits(s, a.w);
    }
  }

  /** What a row decodes to is settled when it is inserted. */
  lemma DecodesStays(s: State, a: Action, id: RowId)
    requires Inv(s) && Enabled(s, a)
    ensures id < |s.rows| ==> (Decodes(Do(s, a), id) <==> Decodes(s, id))
    ensures |s.rows| <= |Do(s, a).rows| && Do(s, a).cfg == s.cfg
    ensures DeliveriesOf(id)(s, a) == 1 ==> id < |s.rows|
  {
    if a.Commit? || a.Publish? { assert WorkerFits(s, a.w); }
  }

  lemma {:induction false} DecodedArePublished(r: Run, id: RowId)
    requires Reached(r)
    ensures Tally(r, PublishesOf(id)) == if Decodes(Final(r), id) then Tally(r, DeliveriesOf(id)) else 0
    ensures id >= |Final(r).rows| ==> Tally(r, DeliveriesOf(id)) == 0
  {
    if r.Then? {
      DecodedArePublished(r.prefix, id);
      InvHolds(r.prefix);
      DecodesStays(Final(r.prefix), r.a, id);
      hide Inv, Do, Enabled, Decodes;
    }
  }

  /**
   * Deliveries of a row = failures recorded + 1 if processed + deliveries lost to
   * crashes + 1 if delivered and not yet committed; committed deliveries never
   * exceed MAX_ATTEMPTS; and each delivery publishes once, unless the row does not
   * decode, which never reaches the bus.
   */
  lemma {:induction false} Accounting(r: Run, id: RowId)
    requires Reached(r)
    ensures Tally(r, DeliveriesOf(id))
         == Recorded(Final(r), id) + Tally(r, LostDeliveriesOf(id)) + InFlight(Final(r), id)
    ensures Tally(r, CommitsOf(id)) == Recorded(Final(r), id) <= MAX_ATTEMPTS
    ensures Tally(r, PublishesOf(id)) == if Decodes(Final(r), id) then Tally(r, DeliveriesOf(id)) else 0
  {
    DecodedArePublished(r, id);
    InvHolds(r);
    if id < |Final(r).rows| { assert RowFits(Final(r).rows[id]); }
    if r.Then? {
      Accounting(r.prefix, id);
      InvHolds(r.prefix);
      CountStep(Final(r.prefix), r.a, id);
    }
  }

  // ---- finished rows stay as they are ------------------------------------------------

  predicate Extends(r: Run, q: Run) {
    r == q || (r.Then? && Extends(r.prefix, q))
  }

  lemma {:induction false} ExtendsIsRun(r: Run, q: Run)
    requires IsRun(r) && Extends(r, q)
    ensures IsRun(q) && Origin(r) == Origin(q)
  {
    if r != q { ExtendsIsRun(r.prefix, q); }
  }

  /** A processed or dead row never changes again, and no worker ever holds it. */
  lemma {:induction false} FinishedForGood(r: Run, q: Run, id: RowId)
    requires Reached(r) && Extends(r, q)
    requires IsRun(q) && id < |Final(q).rows| && !Pending(Final(q).rows[id])
    ensures id < |Final(r).rows| && Final(r).rows[id] == Final(q).rows[id]
    ensures id !in Final(r).locks
    ensures forall w | w in Final(r).workers :: Final(r).workers[w].id != id
    ensures forall w :: !Enabled(Final(r), Claim(w, id))
  {
    InvHolds(r);
    forall w | w in Final(r).workers ensures WorkerFits(Final(r), w) {}
    if r != q {
      FinishedForGood(r.prefix, q, id);
      InvHolds(r.prefix);
      ExtendsIsRun(r, q);
    } else {
      ExtendsIsRun(r, q);
    }
  }

  /** Nothing a row says is ever altered, only its bookkeeping. */
  predicate SameContent(r: Row, q: Row) {
    r.eventType == q.eventType && r.payload == q.payload && r.createdAt == q.createdAt
  }

  lemma {:induction false} ContentStays(r: Run, q: Run, id: RowId)
    requires Reached(r) && Extends(r, q) && IsRun(q) && id < |Final(q).rows|
    ensures id < |Final(r).rows| && SameContent(Final(r).rows[id], Final(q).rows[id])
  {
    if r != q {
      ContentStays(r.prefix, q, id);
      InvHolds(r.prefix);
      ContentStep(Final(r.prefix), r.a, id);
      hide SameContent, Inv, Do, Enabled;
      SameContentTrans(Final(r).rows[id], Final(r.prefix).rows[id], Final(q).rows[id]);
    }
  }

  lemma SameContentTrans(r: Row, p: Row, q: Row)
    requires SameContent(r, p) && SameContent(p, q)
    ensures SameContent(r, q)
  {
  }

  lemma ContentStep(s: State, a: Action, id: RowId)
    requires Inv(s) && Enabled(s, a) && id < |s.rows|
    ensures id < |Do(s, a).rows| && SameContent(Do(s, a).rows[id], s.rows[id])
  {
    if a.Commit? { assert WorkerFits(s, a.w); }
  }

  // ---- no loss ------------------------------------------------------------------------

  /** Some publish of the row ran every handler of its event type, and all of them succeeded. */
  predicate DeliveredToAll(r: Run, id: RowId)
    requires IsRun(r)
  {
    r.Then? && (DeliveredToAll(r.prefix, id) || PublishedToAll(Final(r.prefix), r.a, id))
  }

  predicate PublishedToAll(s: State, a: Action, id: RowId) {
    && a.Publish? && a.w in s.workers && s.workers[a.w].id == id && id < |s.rows|
    && DecodeFailure(s.cfg, s.rows[id]) == None
    && |a.results| == HandlerCount(s.cfg, s.rows[id].eventType)
    && forall i | 0 <= i < |a.results| :: a.results[i]
  }

  predicate MarkedProcessed(s: State, id: RowId) {
    || (id < |s.rows| && s.rows[id].processedAt.Some?)
    || (id in s.locks && s.locks[id] in s.workers && s.workers[s.locks[id]].Published?
        && s.workers[s.locks[id]].result.processedAt.Some?)
  }

  lemma {:induction false} ProcessedWasDelivered(r: Run, id: RowId)
    requires Reached(r) && MarkedProcessed(Final(r), id)
    ensures DeliveredToAll(r, id)
  {
    if r.Then? {
      var s := Final(r.prefix);
      InvHolds(r.prefix);
      if r.a.Publish? { NoFailures(r.a.results); }
      if r.a.Publish? || r.a.Commit? || r.a.Crash? { assert WorkerFits(s, r.a.w); }
      if MarkedProcessed(s, id) {
        ProcessedWasDelivered(r.prefix, id);
      } else {
        assert PublishedToAll(s, r.a, id);
      }
    }
  }

  // ---- and conversely: a good delivery is recorded as one --------------------------------

  /** Worker `w` has a delivery open in which every handler ran and succeeded. */
  predicate OpenGood(r: Run, w: WorkerId)
    requires IsRun(r)
  {
    && r.Then?
    && match r.a
       case Publish(v, _) =>
         if v == w then PublishedToAll(Final(r.prefix), r.a, Final(r.prefix).workers[w].id) else OpenGood(r.prefix, w)
       case Claim(v, _) => v != w && OpenGood(r.prefix, w)
       case Commit(v) => v != w && OpenGood(r.prefix, w)
       case Crash(v) => v != w && OpenGood(r.prefix, w)
       case _ => OpenGood(r.prefix, w)
  }

  /** Committed deliveries of the row in which every handler succeeded (`good`), or in which something was raised. */
  function CommittedOf(r: Run, id: RowId, good: bool): nat
    requires IsRun(r)
  {
    if r.Start? then 0
    else
      var s := Final(r.prefix);
      CommittedOf(r.prefix, id, good)
      + (if CommitsOf(id)(s, r.a) == 1 && OpenGood(r.prefix, r.a.w) == good then 1 else 0)
  }

  /** What a worker is about to commit says what its delivery was. */
  predicate Honest(s: State, w: WorkerId, good: bool)
    requires w in s.workers
  {
    var pc := s.workers[w];
    pc.Published? && pc.id < |s.rows| ==>
      if good then pc.result.processedAt == Some(pc.at) && pc.result.error == None && pc.result.attempts == s.rows[pc.id].attempts
      else pc.result.processedAt.None? && pc.result.error.Some? && pc.result.attempts == s.rows[pc.id].attempts + 1
  }

  /** Whether a good delivery is open after one more step. */
  lemma OpenGoodStep(r: Run, a: Action, w: WorkerId)
    requires IsRun(Then(r, a))
    ensures OpenGood(Then(r, a), w) ==
              match a
              case Publish(v, _) => if v == w then PublishedToAll(Final(r), a, Final(r).workers[w].id) else OpenGood(r, w)
              case Claim(v, _) => v != w && OpenGood(r, w)
              case Commit(v) => v != w && OpenGood(r, w)
              case Crash(v) => v != w && OpenGood(r, w)
              case _ => OpenGood(r, w)
  {
    hide PublishedToAll, Do, Enabled;
  }

  /** The step of the worker itself. */
  lemma OwnHonest(s: State, w: WorkerId, results: seq<bool>)
    requires Inv(s) && Enabled(s, Publish(w, results))
    ensures Honest(Do(s, Publish(w, results)), w, PublishedToAll(s, Publish(w, results), s.workers[w].id))
  {
    NoFailures(results);
    assert WorkerFits(s, w);
    hide Inv, Failures;
  }

  /** A step of anybody else. */
  lemma OtherHonest(s: State, a: Action, w: WorkerId, good: bool)
    requires Inv(s) && Enabled(s, a) && w in s.workers && w in Do(s, a).workers && !(a.Publish? && a.w == w)
    requires Honest(s, w, good)
    ensures Do(s, a).workers[w] == s.workers[w] && Honest(Do(s, a), w, good)
  {
    assert WorkerFits(s, w);
    if a.Commit? { assert WorkerFits(s, a.w); }
    hide Outcome;
  }

  lemma {:induction false} ResultsAreHonest(r: Run, w: WorkerId)
    requires Reached(r) && w in Final(r).workers
    ensures Final(r).workers[w].Published? ==> Honest(Final(r), w, OpenGood(r, w))
    ensures Final(r).workers[w].Claimed? ==> !OpenGood(r, w)
  {
    if r.Then? {
      var s, a := Final(r.prefix), r.a;
      InvHolds(r.prefix);
      OpenGoodStep(r.prefix, a, w);
      hide OpenGood, PublishedToAll, Inv;
      if a.Publish? && a.w == w {
        OwnHonest(s, w, a.results);
      } else if w in s.workers {
        ResultsAreHonest(r.prefix, w);
        OtherHonest(s, a, w, OpenGood(r.prefix, w));
      }
      hide Honest, Outcome;
    }
  }

  /**
   * A row is processed if and only if a delivery in which every handler ran and
   * succeeded was committed, which happens once at most; and its attempts are the
   * committed deliveries in which something was raised.
   */
  lemma {:induction false} ProcessedIffCommittedGood(r: Run, id: RowId)
    requires Reached(r)
    ensures CommittedOf(r, id, true) == if id < |Final(r).rows| && Final(r).rows[id].processedAt.Some? then 1 else 0
    ensures CommittedOf(r, id, false) == if id < |Final(r).rows| then Final(r).rows[id].attempts else 0
  {
    if r.Then? {
      var s := Final(r.prefix);
      ProcessedIffCommittedGood(r.prefix, id);
      InvHolds(r.prefix);
      CommitRecords(r.prefix, r.a, id);
      hide Inv, OpenGood;
    }
  }

  lemma CommitRecords(r: Run, a: Action, id: RowId)
    requires Reached(r) && Enabled(Final(r), a)
    ensures var s, t := Final(r), Do(Final(r), a);
            && |s.rows| <= |t.rows|
            && (id < |s.rows| && CommitsOf(id)(s, a) == 0 ==> t.rows[id] == s.rows[id])
            && (|s.rows| <= id < |t.rows| ==> t.rows[id].processedAt.None? && t.rows[id].attempts == 0)
            && (CommitsOf(id)(s, a) == 1 ==>
                  && a.Commit? && id < |s.rows| && s.rows[id].processedAt.None?
                  && if OpenGood(r, a.w) then t.rows[id].processedAt.Some? && t.rows[id].attempts == s.rows[id].attempts
                     else t.rows[id].processedAt.None? && t.rows[id].attempts == s.rows[id].attempts + 1)
  {
    InvHolds(r);
    if a.Commit? {
      assert WorkerFits(Final(r), a.w);
      ResultsAreHonest(r, a.w);
    }
    hide OpenGood;
  }

  /** Good deliveries, and those of them that a crash lost before their commit. */
  function GoodDeliveriesOf(id: RowId): (State, Action) -> nat {
    (s: State, a: Action) => if PublishedToAll(s, a, id) then 1 else 0
  }

  function LostGoodOf(r: Run, id: RowId): nat
    requires IsRun(r)
  {
    if r.Start? then 0
    else LostGoodOf(r.prefix, id)
         + (if LostDeliveriesOf(id)(Final(r.prefix), r.a) == 1 && OpenGood(r.prefix, r.a.w) then 1 else 0)
  }

  /** 1 when a good delivery of the row is open. */
  function GoodInFlight(r: Run, id: RowId): nat
    requires IsRun(r)
  {
    var s := Final(r);
    if InFlight(s, id) == 1 && OpenGood(r, s.locks[id]) then 1 else 0
  }

  lemma {:induction false} GoodAccounting(r: Run, id: RowId)
    requires Reached(r)
    ensures Tally(r, GoodDeliveriesOf(id)) == CommittedOf(r, id, true) + LostGoodOf(r, id) + GoodInFlight(r, id)
  {
    if r.Then? {
      GoodAccounting(r.prefix, id);
      GoodStep(r.prefix, r.a, id);
      hide OpenGood, PublishedToAll, Inv, Do, Enabled, InFlight, GoodInFlight;
    }
  }

  /** One step opens a good delivery, commits it, loses it or leaves it open. */
  predicate Moved(r: Run, a: Action, id: RowId)
    requires IsRun(r) && IsRun(Then(r, a))
  {
    var s := Final(r);
    GoodDeliveriesOf(id)(s, a) + GoodInFlight(r, id) ==
      (if CommitsOf(id)(s, a) == 1 && OpenGood(r, a.w) then 1 else 0)
      + (if LostDeliveriesOf(id)(s, a) == 1 && OpenGood(r, a.w) then 1 else 0)
      + GoodInFlight(Then(r, a), id)
  }

  lemma GoodStep(r: Run, a: Action, id: RowId)
    requires Reached(r) && Enabled(Final(r), a)
    ensures IsRun(Then(r, a)) && Moved(r, a, id)
  {
    InvHolds(r);
    hide Moved, Inv, Do;
    if Elsewhere(Final(r), a, id) {
      OtherMoves(r, a, id);
    } else if a.Publish? {
      PublishMoves(r, a, id);
    } else if a.Claim? {
      ClaimMoves(r, a, id);
    } else {
      ReleaseMoves(r, a, id);
    }
  }

  /** Steps that are not about this row. */
  predicate Elsewhere(s: State, a: Action, id: RowId) {
    match a
    case Claim(_, j) => j != id
    case Publish(w, _) => w in s.workers && s.workers[w].id != id
    case Commit(w) => w in s.workers && s.workers[w].id != id
    case Crash(w) => w in s.workers && s.workers[w].id != id
    case _ => true
  }

  lemma PublishMoves(r: Run, a: Action, id: RowId)
    requires Reached(r) && Enabled(Final(r), a) && a.Publish? && Inv(Final(r)) && Final(r).workers[a.w].id == id
    ensures IsRun(Then(r, a)) && Moved(r, a, id)
  {
    var s := Final(r);
    assert WorkerFits(s, a.w);
    OpenGoodStep(r, a, a.w);
    hide OpenGood, Inv, Outcome, WorkerFits, Reached, PublishedToAll;
  }

  lemma ReleaseMoves(r: Run, a: Action, id: RowId)
    requires Reached(r) && Enabled(Final(r), a) && (a.Commit? || a.Crash?) && Inv(Final(r)) && Final(r).workers[a.w].id == id
    ensures IsRun(Then(r, a)) && Moved(r, a, id)
  {
    var s := Final(r);
    assert WorkerFits(s, a.w);
    assert s.locks[id] == a.w;
    assert id !in Do(s, a).locks;
    hide OpenGood, Inv, WorkerFits, Reached;
  }

  lemma ClaimMoves(r: Run, a: Action, id: RowId)
    requires Reached(r) && Enabled(Final(r), a) && a.Claim? && a.id == id
    ensures IsRun(Then(r, a)) && Moved(r, a, id)
  {
    assert id !in Final(r).locks;
    hide OpenGood, Inv, PublishedToAll;
  }

  lemma OtherMoves(r: Run, a: Action, id: RowId)
    requires Reached(r) && Enabled(Final(r), a) && Inv(Final(r)) && Elsewhere(Final(r), a, id)
    ensures IsRun(Then(r, a)) && Moved(r, a, id)
  {
    var s := Final(r);
    hide Inv, Reached, Do, Enabled, PublishedToAll, OpenGood;
    OtherShape(s, a, id);
    if id in s.locks {
      OpenGoodStep(r, a, s.locks[id]);
    }
  }

  /** A step elsewhere leaves this row's lock and its holder alone. */
  lemma OtherShape(s: State, a: Action, id: RowId)
    requires Inv(s) && Enabled(s, a) && Elsewhere(s, a, id)
    ensures var t := Do(s, a);
            && (id in t.locks <==> id in s.locks)
            && (id in s.locks ==>
                  && t.locks[id] == s.locks[id] && s.locks[id] in s.workers && s.locks[id] in t.workers
                  && t.workers[s.locks[id]] == s.workers[s.locks[id]]
                  && (a.Claim? || a.Publish? || a.Commit? || a.Crash? ==> s.locks[id] != a.w))
            && CommitsOf(id)(s, a) == 0 && LostDeliveriesOf(id)(s, a) == 0 && GoodDeliveriesOf(id)(s, a) == 0
  {
    if a.Publish? || a.Commit? || a.Crash? { assert WorkerFits(s, a.w); }
    hide Outcome, IsNext;
  }

  /** A row delivered to all its handlers is processed, unless that delivery is still open or was lost to a crash. */
  lemma DeliveredIsProcessed(r: Run, id: RowId)
    requires Reached(r) && DeliveredToAll(r, id)
    ensures || (id < |Final(r).rows| && Final(r).rows[id].processedAt.Some?)
            || GoodInFlight(r, id) == 1
            || LostGoodOf(r, id) >= 1
  {
    DeliveredIsCounted(r, id);
    GoodAccounting(r, id);
    ProcessedIffCommittedGood(r, id);
  }

  lemma {:induction false} DeliveredIsCounted(r: Run, id: RowId)
    requires IsRun(r)
    ensures DeliveredToAll(r, id) <==> Tally(r, GoodDeliveriesOf(id)) >= 1
  {
    if r.Then? {
      DeliveredIsCounted(r.prefix, id);
      hide PublishedToAll, Do, Enabled;
    }
  }

  /** No worker is delivering, and no passing of time makes a row claimable. */
  ghost predicate Quiescent(s: State) {
    s.workers == map[] && forall d: nat, w: WorkerId, id: RowId :: !Enabled(Do(s, Tick(d)), Claim(w, id))
  }

  /** If any row satisfies the claim filter then some row is next. */
  lemma NextExists(s: State, id: RowId) returns (n: RowId)
    requires Claimable(s, id)
    ensures IsNext(s, n)
  {
    n := EarliestBelow(s, id, |s.rows|);
  }

  lemma {:induction false} EarliestBelow(s: State, id: RowId, k: nat) returns (n: RowId)
    requires Claimable(s, id) && k <= |s.rows|
    ensures Claimable(s, n) && s.rows[n].availableAt <= s.rows[id].availableAt
    ensures forall j | 0 <= j < k && Claimable(s, j) :: s.rows[n].availableAt <= s.rows[j].availableAt
  {
    n := id;
    if k > 0 {
      n := EarliestBelow(s, id, k - 1);
      if Claimable(s, k - 1) && s.rows[k - 1].availableAt < s.rows[n].availableAt {
        n := k - 1;
      }
    }
  }

  function InsertCount(): (State, Action) -> nat { (s: State, a: Action) => if a.Insert? then 1 else 0 }

  /**
   * Nothing is lost: once no row is or can become claimable, every row ever
   * inserted is either processed, all its handlers having succeeded in one
   * publish, or dead with exactly MAX_ATTEMPTS recorded failures.
   */
  lemma NoLoss(r: Run)
    requires Reached(r) && Quiescent(Final(r))
    ensures |Final(r).rows| == Tally(r, InsertCount())
    ensures forall id | 0 <= id < |Final(r).rows| ::
              var row := Final(r).rows[id];
              || (row.processedAt.Some? && DeliveredToAll(r, id))
              || (row.processedAt.None? && row.attempts == MAX_ATTEMPTS)
  {
    var s := Final(r);
    InvHolds(r);
    RowsAreInserts(r);
    forall id | 0 <= id < |s.rows|
      ensures (s.rows[id].processedAt.Some? && DeliveredToAll(r, id))
           || (s.rows[id].processedAt.None? && s.rows[id].attempts == MAX_ATTEMPTS)
    {
      assert RowFits(s.rows[id]);
      if s.rows[id].processedAt.Some? {
        ProcessedWasDelivered(r, id);
      } else if Pending(s.rows[id]) {
        PendingIsWoken(s, id);
      }
    }
  }

  lemma PendingIsWoken(s: State, id: RowId)
    requires Inv(s) && s.workers == map[] && id < |s.rows| && Pending(s.rows[id])
    ensures !Quiescent(s)
  {
    var d := if s.rows[id].availableAt <= s.clock then 0 else s.rows[id].availableAt - s.clock;
    var n := NextExists(Do(s, Tick(d)), id);
    assert Enabled(Do(s, Tick(d)), Claim(0, n));
  }

  lemma {:induction false} RowsAreInserts(r: Run)
    requires Reached(r)
    ensures |Final(r).rows| == Tally(r, InsertCount())
  {
    if r.Then? { RowsAreInserts(r.prefix); }
  }
}

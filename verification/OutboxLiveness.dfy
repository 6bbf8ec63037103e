/** Draining, fairness and back-off of the delivery protocol, over every run. */
module OutboxLiveness {
  import opened Prelude
  import opened MessageBus
  import opened OutboxModel
  import opened OutboxProtocol

  // ---- draining terminates -------------------------------------------------------

  /** Steps already taken in the delivery that currently holds the row. */
  function Stage(s: State, id: RowId): nat {
    if id in s.locks && s.locks[id] in s.workers
    then (if s.workers[s.locks[id]].Claimed? then 1 else 2)
    else 0
  }

  /** Deliveries the row may still consume. */
  function Budget(r: Row): nat { if Pending(r) then MAX_ATTEMPTS - r.attempts else 0 }

  function BudgetBelow(s: State, n: nat): nat
    requires n <= |s.rows|
  {
    if n == 0 then 0 else BudgetBelow(s, n - 1) + Budget(s.rows[n - 1])
  }

  /** The sum of MAX_ATTEMPTS - attempts over the unprocessed rows. */
  function TotalBudget(s: State): nat { BudgetBelow(s, |s.rows|) }

  /** Claim, publish and commit steps still possible without new rows and crashes. */
  function WorkOf(s: State, id: RowId): int
    requires id < |s.rows|
  {
    3 * Budget(s.rows[id]) - Stage(s, id)
  }

  function WorkBelow(s: State, n: nat): int
    requires n <= |s.rows|
  {
    if n == 0 then 0 else WorkBelow(s, n - 1) + WorkOf(s, n - 1)
  }

  function Work(s: State): int { WorkBelow(s, |s.rows|) }

  /** Two states that agree on every row but `id` differ in the sum by that row only. */
  lemma {:induction false} WorkChange(s: State, t: State, id: RowId, n: nat)
    requires n <= |s.rows| && n <= |t.rows| && id < |s.rows| && id < |t.rows|
    requires forall j | 0 <= j < n && j != id :: s.rows[j] == t.rows[j] && Stage(s, j) == Stage(t, j)
    ensures WorkBelow(t, n) - WorkBelow(s, n) == if id < n then WorkOf(t, id) - WorkOf(s, id) else 0
    ensures BudgetBelow(t, n) - BudgetBelow(s, n)
         == if id < n then Budget(t.rows[id]) - Budget(s.rows[id]) else 0
  {
    if n > 0 { WorkChange(s, t, id, n - 1); }
  }

  lemma {:induction false} WorkSame(s: State, t: State, n: nat)
    requires n <= |s.rows| && n <= |t.rows|
    requires forall j | 0 <= j < n :: s.rows[j] == t.rows[j] && Stage(s, j) == Stage(t, j)
    ensures WorkBelow(t, n) == WorkBelow(s, n) && BudgetBelow(t, n) == BudgetBelow(s, n)
  {
    if n > 0 { WorkSame(s, t, n - 1); }
  }

  lemma {:induction false} WorkNonNegative(s: State, n: nat)
    requires Inv(s) && n <= |s.rows|
    ensures WorkBelow(s, n) >= 0
  {
    if n > 0 {
      WorkNonNegative(s, n - 1);
      if n - 1 in s.locks { assert WorkerFits(s, s.locks[n - 1]); }
    }
  }

  /** A step of one worker changes one row's share of the sums. */
  lemma WorkerStep(s: State, a: Action) returns (id: RowId)
    requires Inv(s) && Enabled(s, a) && (a.Claim? || a.Publish? || a.Commit? || a.Crash?)
    ensures id < |s.rows| == |Do(s, a).rows|
    ensures Work(Do(s, a)) - Work(s) == WorkOf(Do(s, a), id) - WorkOf(s, id)
    ensures TotalBudget(Do(s, a)) - TotalBudget(s) == Budget(Do(s, a).rows[id]) - Budget(s.rows[id])
    ensures a.Claim? ==> id == a.id
    ensures !a.Claim? ==> a.w in s.workers && id == s.workers[a.w].id && WorkerFits(s, a.w)
  {
    var t := Do(s, a);
    HeldLocks(s);
    if !a.Claim? { assert WorkerFits(s, a.w); }
    id := if a.Claim? then a.id else s.workers[a.w].id;
    forall j | 0 <= j < |s.rows| && j != id
      ensures s.rows[j] == t.rows[j] && Stage(s, j) == Stage(t, j)
    {
    }
    WorkChange(s, t, id, |s.rows|);
  }

  lemma StepSpendsWork(s: State, a: Action)
    requires Inv(s) && Enabled(s, a)
    ensures a.Claim? || a.Publish? || a.Commit? ==> Work(Do(s, a)) <= Work(s) - 1
    ensures a.Tick? ==> Work(Do(s, a)) == Work(s)
    ensures a.Insert? ==> Work(Do(s, a)) == Work(s) + 3 * MAX_ATTEMPTS
    ensures a.Crash? ==> Work(Do(s, a)) <= Work(s) + 2
    ensures a.Commit? ==> TotalBudget(Do(s, a)) < TotalBudget(s)
    ensures a.Insert? ==> TotalBudget(Do(s, a)) == TotalBudget(s) + MAX_ATTEMPTS
    ensures a.Claim? || a.Publish? || a.Crash? || a.Tick? ==> TotalBudget(Do(s, a)) == TotalBudget(s)
  {
    var t := Do(s, a);
    if a.Insert? || a.Tick? {
      HeldLocks(s);
      WorkSame(s, t, |s.rows|);
    } else {
      var id := WorkerStep(s, a);
    }
  }

  function CommitCount(): (State, Action) -> nat { (s: State, a: Action) => if a.Commit? then 1 else 0 }

  function CrashCount(): (State, Action) -> nat { (s: State, a: Action) => if a.Crash? then 1 else 0 }

  function DeliverySteps(): (State, Action) -> nat {
    (s: State, a: Action) => if a.Claim? || a.Publish? || a.Commit? then 1 else 0
  }

  lemma {:induction false} CommitsSpend(r: Run)
    requires IsRun(r) && Inv(Origin(r))
    ensures Tally(r, CommitCount()) + TotalBudget(Final(r))
         <= TotalBudget(Origin(r)) + MAX_ATTEMPTS * Tally(r, InsertCount())
  {
    if r.Then? {
      CommitsSpend(r.prefix);
      InvHolds(r.prefix);
      StepSpendsWork(Final(r.prefix), r.a);
      hide Do, Enabled, Inv, Work, TotalBudget;
    }
  }

  lemma {:induction false} StepsSpend(r: Run)
    requires IsRun(r) && Inv(Origin(r))
    ensures Tally(r, DeliverySteps()) + Work(Final(r))
         <= Work(Origin(r)) + 3 * MAX_ATTEMPTS * Tally(r, InsertCount()) + 2 * Tally(r, CrashCount())
  {
    if r.Then? {
      StepsSpend(r.prefix);
      InvHolds(r.prefix);
      StepSpendsWork(Final(r.prefix), r.a);
      hide Do, Enabled, Inv, Work, TotalBudget;
    }
  }

  /**
   * Every committed delivery spends budget, so a run commits at most
   * MAX_ATTEMPTS times per inserted row, whatever the workers and crashes do.
   */
  lemma DrainTerminates(r: Run)
    requires IsRun(r) && Inv(Origin(r))
    ensures Tally(r, CommitCount()) + TotalBudget(Final(r))
         <= TotalBudget(Origin(r)) + MAX_ATTEMPTS * Tally(r, InsertCount())
    ensures Tally(r, DeliverySteps()) + Work(Final(r))
         <= Work(Origin(r)) + 3 * MAX_ATTEMPTS * Tally(r, InsertCount()) + 2 * Tally(r, CrashCount())
    ensures Work(Final(r)) >= 0
  {
    InvHolds(r);
    WorkNonNegative(Final(r), |Final(r).rows|);
    CommitsSpend(r);
    StepsSpend(r);
    hide Tally, TotalBudget, WorkBelow;
  }

  /** Decides handler `i` in the delivery of a row that has failed `attempts` times. */
  type Oracle = (RowId, nat, nat) -> bool

  /** A step of a worker or of the clock in which the handlers do what the oracle says. */
  predicate ByOracle(s: State, a: Action, oracle: Oracle) {
    match a
    case Insert(_, _, _) => false
    case Crash(_) => false
    case Publish(w, results) =>
      && w in s.workers && s.workers[w].id < |s.rows|
      && forall i | 0 <= i < |results| :: results[i] == oracle(s.workers[w].id, s.rows[s.workers[w].id].attempts, i)
    case _ => true
  }

  /** `q` continues `r` by such steps only. */
  predicate Continues(q: Run, r: Run, oracle: Oracle)
    requires IsRun(q)
  {
    q == r || (q.Then? && Continues(q.prefix, r, oracle) && ByOracle(Final(q.prefix), q.a, oracle))
  }

  /**
   * ... and it can always be finished: from any reachable state, and whatever each
   * handler does in each delivery, some schedule without inserts and crashes
   * reaches quiescence.
   */
  lemma Drains(r: Run, oracle: Oracle) returns (q: Run)
    requires IsRun(r) && Inv(Origin(r))
    ensures IsRun(q) && Continues(q, r, oracle) && Quiescent(Final(q))
    decreases Work(Final(r))
  {
    InvHolds(r);
    hide Inv, Do, Enabled, Work, Quiescent, ByOracle;
    var next := NextMove(r, oracle);
    if next == r {
      q := r;
    } else {
      q := Drains(next, oracle);
      ContinuesTrans(q, next, r, oracle);
    }
  }

  /** What a worker in the middle of a delivery does next. */
  lemma NextOf(s: State, w: WorkerId, oracle: Oracle) returns (a: Action)
    requires Inv(s) && w in s.workers
    ensures Enabled(s, a) && (a.Publish? || a.Commit?) && ByOracle(s, a, oracle)
  {
    assert WorkerFits(s, w);
    var row := s.rows[s.workers[w].id];
    a := if s.workers[w].Published? then Commit(w)
         else Publish(w, seq(HandlerCount(s.cfg, row.eventType), i requires i >= 0 => oracle(s.workers[w].id, row.attempts, i)));
  }

  /** A step towards quiescence, or `r` itself when there is none. */
  lemma NextMove(r: Run, oracle: Oracle) returns (next: Run)
    requires IsRun(r) && Inv(Origin(r))
    ensures IsRun(next) && Continues(next, r, oracle) && Origin(next) == Origin(r)
    ensures next == r ==> Quiescent(Final(r))
    ensures next != r ==> 0 <= Work(Final(next)) < Work(Final(r))
  {
    var s := Final(r);
    InvHolds(r);
    next := r;
    if w :| w in s.workers {
      var a := NextOf(s, w, oracle);
      next := Then(r, a);
    } else if d: nat, w: WorkerId, id: RowId :| Enabled(Do(s, Tick(d)), Claim(w, id)) {
      StepSpendsWork(s, Tick(d));
      next := Then(Then(r, Tick(d)), Claim(w, id));
      TickClaim(r, d, w, id, oracle);
    } else {
      assert s.workers == map[];
      return;
    }
    InvHolds(next.prefix);
    StepSpendsWork(Final(next.prefix), next.a);
    InvHolds(next);
    WorkNonNegative(Final(next), |Final(next).rows|);
  }

  lemma TickClaim(r: Run, d: nat, w: WorkerId, id: RowId, oracle: Oracle)
    requires IsRun(r) && Enabled(Do(Final(r), Tick(d)), Claim(w, id))
    ensures var q := Then(Then(r, Tick(d)), Claim(w, id));
            IsRun(q) && Continues(q, r, oracle) && Origin(q) == Origin(r) && Final(q.prefix) == Do(Final(r), Tick(d))
  {
    var p := Then(r, Tick(d));
    assert Continues(r, r, oracle);
    assert ByOracle(Final(r), Tick(d), oracle);
    assert Continues(p, r, oracle);
    assert ByOracle(Final(p), Claim(w, id), oracle);
  }

  lemma {:induction false} ContinuesTrans(q: Run, p: Run, r: Run, oracle: Oracle)
    requires IsRun(q) && IsRun(p) && Continues(q, p, oracle) && Continues(p, r, oracle)
    ensures Continues(q, r, oracle)
  {
    if q != p { ContinuesTrans(q.prefix, p, r, oracle); }
  }

  // ---- no starvation -----------------------------------------------------------------

  /**
   * Rows that can still be claimed ahead of, or together with, a row due at
   * `cut`: free pending rows due by then, and rows whose recorded but
   * uncommitted failure would make them due by then.
   */
  predicate Ahead(s: State, id: RowId, cut: int)
    requires id < |s.rows|
  {
    if id !in s.locks then Pending(s.rows[id]) && s.rows[id].availableAt <= cut
    else s.locks[id] in s.workers && s.workers[s.locks[id]].Published?
         && var res := s.workers[s.locks[id]].result; Pending(res) && res.availableAt <= cut
  }

  function AheadBelow(s: State, cut: int, n: nat): nat
    requires n <= |s.rows|
  {
    if n == 0 then 0 else AheadBelow(s, cut, n - 1) + (if Ahead(s, n - 1, cut) then 1 else 0)
  }

  function AheadCount(s: State, cut: int): nat { AheadBelow(s, cut, |s.rows|) }

  lemma {:induction false} AheadChange(s: State, t: State, cut: int, id: RowId, n: nat)
    requires n <= |s.rows| && n <= |t.rows| && id < |s.rows| && id < |t.rows|
    requires forall j | 0 <= j < n && j != id :: Ahead(s, j, cut) == Ahead(t, j, cut)
    ensures AheadBelow(t, cut, n) - AheadBelow(s, cut, n)
         == if id < n then (if Ahead(t, id, cut) then 1 else 0) - (if Ahead(s, id, cut) then 1 else 0) else 0
  {
    if n > 0 { AheadChange(s, t, cut, id, n - 1); }
  }

  lemma {:induction false} AheadSame(s: State, t: State, cut: int, n: nat)
    requires n <= |s.rows| && n <= |t.rows|
    requires forall j | 0 <= j < n :: Ahead(s, j, cut) == Ahead(t, j, cut)
    ensures AheadBelow(t, cut, n) == AheadBelow(s, cut, n)
  {
    if n > 0 { AheadSame(s, t, cut, n - 1); }
  }

  lemma {:induction false} AheadWitness(s: State, cut: int, id: RowId, n: nat)
    requires id < n <= |s.rows| && Ahead(s, id, cut)
    ensures AheadBelow(s, cut, n) >= 1
  {
    if id < n - 1 { AheadWitness(s, cut, id, n - 1); }
  }

  function ClaimCount(): (State, Action) -> nat { (s: State, a: Action) => if a.Claim? then 1 else 0 }

  /** Rows committed late, with a creation stamp no later than `cut`. */
  function LateInserts(cut: int): (State, Action) -> nat {
    (s: State, a: Action) => if a.Insert? && a.stamp <= cut then 1 else 0
  }

  /** The row is due, free and pending. */
  predicate Waiting(s: State, id: RowId) {
    Claimable(s, id) && s.rows[id].availableAt < s.clock
  }

  function ClaimsOf(id: RowId): (State, Action) -> nat {
    (s: State, a: Action) => if a.Claim? && a.id == id then 1 else 0
  }

  lemma StepAhead(s: State, a: Action, id: RowId)
    requires Inv(s) && Enabled(s, a) && Waiting(s, id) && ClaimsOf(id)(s, a) == 0
    ensures var cut := s.rows[id].availableAt; var t := Do(s, a);
            && Waiting(t, id) && t.rows[id].availableAt == cut
            && AheadCount(t, cut) + ClaimCount()(s, a)
               <= AheadCount(s, cut) + CrashCount()(s, a) + LateInserts(cut)(s, a)
  {
    var t, cut := Do(s, a), s.rows[id].availableAt;
    HeldLocks(s);
    if a.Insert? || a.Tick? {
      AheadSame(s, t, cut, |s.rows|);
    } else {
      var x := if a.Claim? then a.id else s.workers[a.w].id;
      if !a.Claim? { assert WorkerFits(s, a.w); }
      OthersStayAhead(s, a, cut, x);
      AheadChange(s, t, cut, x, |s.rows|);
    }
  }

  /** A step of one worker changes nothing about any other row. */
  lemma OthersStayAhead(s: State, a: Action, cut: int, x: RowId)
    requires Inv(s) && Enabled(s, a) && !a.Insert? && !a.Tick?
    requires x == if a.Claim? then a.id else s.workers[a.w].id
    ensures |Do(s, a).rows| == |s.rows|
    ensures forall j | 0 <= j < |s.rows| && j != x :: Ahead(s, j, cut) == Ahead(Do(s, a), j, cut)
  {
    HeldLocks(s);
    if !a.Claim? { assert WorkerFits(s, a.w); }
    var t := Do(s, a);
    assert |t.rows| == |s.rows|;
    forall j | 0 <= j < |s.rows| && j != x
      ensures Ahead(s, j, cut) == Ahead(t, j, cut)
    {
    }
  }

  /**
   * No starvation: a due, free row can be passed over by at most as many claims
   * as there are rows ahead of it, plus one for every crash and for every row
   * that commits late with an earlier stamp.  The row itself is one of those
   * ahead, so as soon as the claims reach the bound it has been claimed.
   */
  lemma {:induction false} NoStarvation(r: Run, id: RowId)
    requires IsRun(r) && Inv(Origin(r)) && Waiting(Origin(r), id)
    ensures var cut := Origin(r).rows[id].availableAt;
            Tally(r, ClaimCount()) >= AheadCount(Origin(r), cut) + Tally(r, CrashCount()) + Tally(r, LateInserts(cut))
            ==> Tally(r, ClaimsOf(id)) >= 1
    ensures var cut := Origin(r).rows[id].availableAt;
            Tally(r, ClaimsOf(id)) == 0 ==>
              && Waiting(Final(r), id) && Final(r).rows[id].availableAt == cut
              && Tally(r, ClaimCount()) + AheadCount(Final(r), cut)
                 <= AheadCount(Origin(r), cut) + Tally(r, CrashCount()) + Tally(r, LateInserts(cut))
  {
    var cut := Origin(r).rows[id].availableAt;
    if r.Then? {
      NoStarvation(r.prefix, id);
      InvHolds(r.prefix);
      if Tally(r, ClaimsOf(id)) == 0 {
        StepAhead(Final(r.prefix), r.a, id);
      }
    }
    if Tally(r, ClaimsOf(id)) == 0 {
      AheadWitness(Final(r), cut, id, |Final(r).rows|);
    }
  }

  // ---- back-off spacing -----------------------------------------------------------------

  /** Clock readings of the committed failures of a row, oldest first. */
  function FailureTimes(r: Run, id: RowId): seq<int>
    requires IsRun(r)
  {
    if r.Start? then []
    else
      var s := Final(r.prefix);
      FailureTimes(r.prefix, id) +
      (if r.a.Commit? && s.workers[r.a.w].id == id && s.workers[r.a.w].result.processedAt.None?
       then [s.workers[r.a.w].at] else [])
  }

  /** Each failure is at least one back-off after the failure before it. */
  predicate Spaced(times: seq<int>) {
    forall k | 1 <= k < |times| :: times[k] >= times[k - 1] + BackOff(k)
  }

  /** The failures of a row, its counter and its next time agree. */
  predicate HistoryFits(s: State, id: RowId, f: seq<int>) {
    && Spaced(f)
    && |f| == (if id < |s.rows| then s.rows[id].attempts else 0)
    && (f != [] ==> id < |s.rows| && s.rows[id].availableAt == f[|f| - 1] + BackOff(|f|))
  }

  lemma SpacedMore(f: seq<int>, at: int)
    requires Spaced(f) && (f != [] ==> at >= f[|f| - 1] + BackOff(|f|))
    ensures Spaced(f + [at])
  {
  }

  lemma HistoryStep(s: State, a: Action, id: RowId, f: seq<int>)
    requires Inv(s) && Enabled(s, a) && HistoryFits(s, id, f)
    ensures HistoryFits(Do(s, a), id,
              if a.Commit? && s.workers[a.w].id == id && s.workers[a.w].result.processedAt.None? then f + [s.workers[a.w].at] else f)
  {
    if a.Commit? {
      assert WorkerFits(s, a.w);
      if s.workers[a.w].id == id {
        SpacedMore(f, s.workers[a.w].at);
      }
    }
    hide Spaced, BackOff;
  }

  lemma {:induction false} FailureHistory(r: Run, id: RowId)
    requires Reached(r)
    ensures HistoryFits(Final(r), id, FailureTimes(r, id))
  {
    if r.Then? {
      FailureHistory(r.prefix, id);
      InvHolds(r.prefix);
      HistoryStep(Final(r.prefix), r.a, id, FailureTimes(r.prefix, id));
      assert FailureTimes(r.prefix, id) + [] == FailureTimes(r.prefix, id);
      hide HistoryFits, Inv, Do;
    }
  }

  lemma {:induction false} SpacedFromFirst(times: seq<int>, k: nat)
    requires Spaced(times) && 1 <= k <= |times| <= MAX_ATTEMPTS
    ensures times[k - 1] >= times[0] + (Pow2(k) - 2) * SECOND
  {
    if k > 1 {
      SpacedFromFirst(times, k - 1);
      CapNeverBinds(k - 1);
    }
  }

  /** The k-th committed failure of a row comes at least 2^k - 2 seconds after its first. */
  lemma BackOffSpacing(r: Run, id: RowId, k: nat)
    requires Reached(r) && id < |Final(r).rows| && 1 <= k <= Final(r).rows[id].attempts
    ensures k <= |FailureTimes(r, id)|
    ensures FailureTimes(r, id)[k - 1] >= FailureTimes(r, id)[0] + (Pow2(k) - 2) * SECOND
  {
    FailureHistory(r, id);
    InvHolds(r);
    assert RowFits(Final(r).rows[id]);
    SpacedFromFirst(FailureTimes(r, id), k);
  }

  /** A row dies no sooner than 1022 seconds after its first failure. */
  lemma DeathTakesTime(r: Run, id: RowId)
    requires Reached(r) && id < |Final(r).rows| && Dead(Final(r).rows[id])
    ensures var f := FailureTimes(r, id); |f| == MAX_ATTEMPTS && f[MAX_ATTEMPTS - 1] - f[0] >= 1022 * SECOND
  {
    InvHolds(r);
    assert RowFits(Final(r).rows[id]);
    FailureHistory(r, id);
    BackOffSpacing(r, id, MAX_ATTEMPTS);
    assert Pow2(10) == 1024;
  }
}

/**
 * The domain rules both services were built from (`evals/README.md`): an abstract
 * machine of invoices with a status, lines and a payment attempt per key.
 */
module InvoiceMachine {
  import opened Prelude
  import opened Codec
  import opened HalfUp
  import opened InvoiceModel

  datatype Account = Account(status: InvoiceStatus, lines: seq<FracLine>, attempts: map<string, AttemptStatus>)

  type World = map<Uuid, Account>

  datatype Command =
    | Create(id: Uuid)
    | AddLine(id: Uuid, line: FracLine)
    | Issue(id: Uuid)
    | Collect(id: Uuid, key: string, verdict: AttemptStatus)
    | Nothing

  function Collected(a: Account, key: string, verdict: AttemptStatus): Account {
    Account(if verdict == Succeeded then Paid else a.status, a.lines, a.attempts[key := verdict])
  }

  /** A command the rules do not allow changes nothing. */
  function Apply(w: World, c: Command): World {
    match c
    case Create(id) => if id in w then w else w[id := Account(Draft, [], map[])]
    case AddLine(id, l) =>
      if id in w && w[id].status == Draft && ValidFracLine(l) then w[id := w[id].(lines := w[id].lines + [l])] else w
    case Issue(id) =>
      if id in w && w[id].status == Draft && w[id].lines != [] then w[id := w[id].(status := Issued)] else w
    case Collect(id, key, verdict) =>
      if id in w && key !in w[id].attempts && w[id].status == Issued then w[id := Collected(w[id], key, verdict)] else w
    case Nothing => w
  }

  function Run(cs: seq<Command>): World {
    if cs == [] then map[] else Apply(Run(cs[..|cs| - 1]), cs[|cs| - 1])
  }

  /** The commands of a run without its stutters. */
  function Loud(cs: seq<Command>): seq<Command> {
    if cs == [] then []
    else
      var n := |cs| - 1;
      Loud(cs[..n]) + (if cs[n].Nothing? then [] else [cs[n]])
  }

  lemma LoudAppend(cs: seq<Command>, c: Command)
    ensures Loud(cs + [c]) == Loud(cs) + (if c.Nothing? then [] else [c])
  {
    assert (cs + [c])[..|cs|] == cs;
  }

  /** Stutters do not matter, wherever they stand. */
  lemma {:induction false} LoudRuns(cs: seq<Command>)
    ensures Run(Loud(cs)) == Run(cs)
  {
    if cs != [] {
      var n := |cs| - 1;
      LoudRuns(cs[..n]);
      var front := Loud(cs[..n]);
      if cs[n].Nothing? {
        assert Loud(cs) == front;
      } else {
        assert (front + [cs[n]])[..|front|] == front;
      }
      hide Apply;
    }
  }

  /** Positive quantities and so on; no empty invoice is issued; payment only after issue; paid exactly once. */
  predicate Obeys(a: Account) {
    && ValidFracLines(a.lines)
    && (a.status != Draft ==> a.lines != [])
    && (a.attempts != map[] ==> a.status != Draft)
    && (a.status == Paid <==> exists k | k in a.attempts :: a.attempts[k] == Succeeded)
    && (forall j, k | j in a.attempts && k in a.attempts && a.attempts[j] == a.attempts[k] == Succeeded :: j == k)
  }

  predicate AllObey(w: World) { forall id | id in w :: Obeys(w[id]) }

  lemma CollectedObeys(a: Account, key: string, verdict: AttemptStatus)
    requires Obeys(a) && a.status == Issued && key !in a.attempts
    ensures Obeys(Collected(a, key, verdict))
  {
    var b := Collected(a, key, verdict);
    assert key in b.attempts;
    if verdict == Succeeded {
      assert b.attempts[key] == Succeeded;
    }
    forall k | k in a.attempts
      ensures b.attempts[k] == a.attempts[k] && a.attempts[k] != Succeeded
    {
    }
  }

  lemma ApplyObeys(w: World, c: Command)
    requires AllObey(w)
    ensures AllObey(Apply(w, c))
  {
    if c.Collect? && c.id in w && c.key !in w[c.id].attempts && w[c.id].status == Issued {
      CollectedObeys(w[c.id], c.key, c.verdict);
    }
  }

  lemma {:induction false} RulesHold(cs: seq<Command>)
    ensures AllObey(Run(cs))
  {
    if cs != [] {
      RulesHold(cs[..|cs| - 1]);
      ApplyObeys(Run(cs[..|cs| - 1]), cs[|cs| - 1]);
    }
  }

  /** `b` is what `a` may have become: nothing of an issued invoice changes but its status and new keys. */
  predicate Later(a: Account, b: Account) {
    && (a.status != Draft ==> b.status != Draft && b.lines == a.lines)
    && (a.status == Paid ==> b == a)
    && (forall k | k in a.attempts :: k in b.attempts && b.attempts[k] == a.attempts[k])
    && a.lines <= b.lines
  }

  /** Once issued an invoice is not modified, once paid not at all, and a known key is only answered again. */
  lemma {:induction false} NothingIsUndone(cs: seq<Command>, n: nat, id: Uuid)
    requires n <= |cs| && id in Run(cs[..n])
    ensures id in Run(cs) && Later(Run(cs[..n])[id], Run(cs)[id])
    decreases |cs|
  {
    if n == |cs| {
      assert cs[..n] == cs;
    } else {
      var m := |cs| - 1;
      assert cs[..m][..n] == cs[..n];
      NothingIsUndone(cs[..m], n, id);
      LaterStep(Run(cs[..m]), cs[m], id);
      hide Apply, Later;
      LaterTrans(Run(cs[..n])[id], Run(cs[..m])[id], Run(cs)[id]);
    }
  }

  lemma LaterStep(w: World, c: Command, id: Uuid)
    requires id in w
    ensures id in Apply(w, c) && Later(w[id], Apply(w, c)[id])
  {
  }

  lemma LaterTrans(a: Account, b: Account, c: Account)
    requires Later(a, b) && Later(b, c)
    ensures Later(a, c)
  {
  }

  // ---- reading a service's attempts --------------------------------------------------------

  /** What the machine sees of an attempt row. */
  datatype Mark = Mark(invoiceId: Uuid, key: string, status: AttemptStatus)

  function KeyMap(ms: seq<Mark>, id: Uuid): map<string, AttemptStatus> {
    if ms == [] then map[]
    else
      var n := |ms| - 1;
      if ms[n].invoiceId == id then KeyMap(ms[..n], id)[ms[n].key := ms[n].status] else KeyMap(ms[..n], id)
  }

  predicate Known(ms: seq<Mark>, id: Uuid, key: string) {
    exists k | 0 <= k < |ms| :: ms[k].invoiceId == id && ms[k].key == key
  }

  lemma {:induction false} KeyMapKnows(ms: seq<Mark>, id: Uuid, key: string)
    ensures key in KeyMap(ms, id) <==> Known(ms, id, key)
  {
    if ms != [] {
      var n := |ms| - 1;
      KeyMapKnows(ms[..n], id, key);
      if k :| 0 <= k < n && ms[..n][k].invoiceId == id && ms[..n][k].key == key {
        assert ms[k].invoiceId == id && ms[k].key == key;
      }
      if k :| 0 <= k < |ms| && ms[k].invoiceId == id && ms[k].key == key && k < n {
        assert ms[..n][k].invoiceId == id && ms[..n][k].key == key;
      }
    }
  }

  lemma KeyMapAdded(ms: seq<Mark>, m: Mark, id: Uuid)
    ensures KeyMap(ms + [m], id) == if m.invoiceId == id then KeyMap(ms, id)[m.key := m.status] else KeyMap(ms, id)
  {
    assert (ms + [m])[..|ms|] == ms;
  }

  // ---- reading a service's tables ----------------------------------------------------------

  /** What the machine sees of an invoice row and its lines. */
  datatype Head = Head(status: InvoiceStatus, lines: seq<FracLine>)

  function WorldOf(heads: map<Uuid, Head>, ms: seq<Mark>): World {
    map id | id in heads :: Account(heads[id].status, heads[id].lines, KeyMap(ms, id))
  }

  lemma WorldSet(heads: map<Uuid, Head>, ms: seq<Mark>, id: Uuid, h: Head)
    ensures WorldOf(heads[id := h], ms) == WorldOf(heads, ms)[id := Account(h.status, h.lines, KeyMap(ms, id))]
  {
  }

  /** The machine's AddLine and Issue, told from the rows. */
  lemma WorldAddLine(heads: map<Uuid, Head>, ms: seq<Mark>, id: Uuid, l: FracLine)
    requires id in heads
    ensures Apply(WorldOf(heads, ms), AddLine(id, l))
         == if heads[id].status == Draft && ValidFracLine(l) then WorldOf(heads[id := heads[id].(lines := heads[id].lines + [l])], ms)
            else WorldOf(heads, ms)
  {
    WorldSet(heads, ms, id, heads[id].(lines := heads[id].lines + [l]));
    hide KeyMap, ValidFracLine;
  }

  lemma WorldIssue(heads: map<Uuid, Head>, ms: seq<Mark>, id: Uuid)
    requires id in heads
    ensures Apply(WorldOf(heads, ms), Issue(id))
         == if heads[id].status == Draft && heads[id].lines != [] then WorldOf(heads[id := heads[id].(status := Issued)], ms)
            else WorldOf(heads, ms)
  {
    WorldSet(heads, ms, id, heads[id].(status := Issued));
    hide KeyMap;
  }

  /** The machine's Collect, told from the rows. */
  lemma WorldCollect(heads: map<Uuid, Head>, ms: seq<Mark>, id: Uuid, key: string, verdict: AttemptStatus)
    ensures Apply(WorldOf(heads, ms), Collect(id, key, verdict))
         == if id in heads && heads[id].status == Issued && !Known(ms, id, key)
            then WorldOf(heads[id := heads[id].(status := if verdict == Succeeded then Paid else Issued)], ms + [Mark(id, key, verdict)])
            else WorldOf(heads, ms)
  {
    KeyMapKnows(ms, id, key);
    hide KeyMap, Known;
    forall i
      ensures KeyMap(ms + [Mark(id, key, verdict)], i) == if i == id then KeyMap(ms, i)[key := verdict] else KeyMap(ms, i)
    {
      KeyMapAdded(ms, Mark(id, key, verdict), i);
    }
  }

  lemma {:induction false} NoMarks(ms: seq<Mark>, id: Uuid)
    requires forall k | 0 <= k < |ms| :: ms[k].invoiceId != id
    ensures KeyMap(ms, id) == map[]
  {
    if ms != [] {
      NoMarks(ms[..|ms| - 1], id);
    }
  }
}

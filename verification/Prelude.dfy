/** Result types, counting, multisets and small arithmetic shared by the other modules. */
module Prelude {

  datatype Option<+T> = None | Some(value: T)

  datatype Result<+T, +E> = Ok(value: T) | Err(error: E)

  /** How many elements of `s` satisfy `p`. */
  function CountIf<T>(s: seq<T>, p: T -> bool): nat {
    if s == [] then 0
    else CountIf(s[..|s| - 1], p) + (if p(s[|s| - 1]) then 1 else 0)
  }

  lemma CountAppend<T>(s: seq<T>, x: T, p: T -> bool)
    ensures CountIf(s + [x], p) == CountIf(s, p) + (if p(x) then 1 else 0)
  {
    assert (s + [x])[..|s|] == s;
  }

  lemma {:induction false} CountUpdate<T>(s: seq<T>, i: nat, x: T, p: T -> bool)
    requires i < |s|
    ensures CountIf(s[i := x], p) + (if p(s[i]) then 1 else 0)
         == CountIf(s, p) + (if p(x) then 1 else 0)
  {
    var n := |s| - 1;
    if i == n {
      assert s[i := x][..n] == s[..n];
    } else {
      assert s[i := x][..n] == s[..n][i := x];
      CountUpdate(s[..n], i, x, p);
    }
  }

  lemma {:induction false} CountPositive<T>(s: seq<T>, i: nat, p: T -> bool)
    requires i < |s| && p(s[i])
    ensures CountIf(s, p) >= 1
  {
    if i < |s| - 1 {
      CountPositive(s[..|s| - 1], i, p);
    }
  }

  lemma {:induction false} CountWitness<T>(s: seq<T>, p: T -> bool) returns (i: nat)
    requires CountIf(s, p) >= 1
    ensures i < |s| && p(s[i])
  {
    i := |s| - 1;
    if !p(s[i]) {
      i := CountWitness(s[..|s| - 1], p);
    }
  }

  lemma {:induction false} CountZero<T>(s: seq<T>, p: T -> bool)
    requires forall i | 0 <= i < |s| :: !p(s[i])
    ensures CountIf(s, p) == 0
  {
    if s != [] {
      CountZero(s[..|s| - 1], p);
    }
  }

  /** No two positions satisfy `p`: the count is at most one. */
  lemma {:induction false} CountAtMostOne<T>(s: seq<T>, p: T -> bool)
    requires forall i, j | 0 <= i < j < |s| :: !(p(s[i]) && p(s[j]))
    ensures CountIf(s, p) <= 1
  {
    if s != [] {
      var n := |s| - 1;
      if p(s[n]) {
        CountZero(s[..n], p);
      } else {
        CountAtMostOne(s[..n], p);
      }
    }
  }

  lemma {:induction false} CountSame<T>(s: seq<T>, t: seq<T>, p: T -> bool)
    requires |s| == |t| && forall i | 0 <= i < |s| :: p(s[i]) == p(t[i])
    ensures CountIf(s, p) == CountIf(t, p)
  {
    if s != [] {
      var n := |s| - 1;
      CountSame(s[..n], t[..n], p);
    }
  }

  /** Two conditions that agree on every element count the same. */
  lemma {:induction false} CountAgrees<T>(s: seq<T>, p: T -> bool, q: T -> bool)
    requires forall i | 0 <= i < |s| :: p(s[i]) == q(s[i])
    ensures CountIf(s, p) == CountIf(s, q)
  {
    if s != [] {
      CountAgrees(s[..|s| - 1], p, q);
    }
  }

  lemma {:induction false} CountConcat<T>(s: seq<T>, t: seq<T>, p: T -> bool)
    ensures CountIf(s + t, p) == CountIf(s, p) + CountIf(t, p)
  {
    if t == [] {
      assert s + t == s;
    } else {
      var n := |t| - 1;
      assert (s + t)[..|s + t| - 1] == s + t[..n];
      CountConcat(s, t[..n], p);
    }
  }

  lemma {:induction false} CountBounded<T>(s: seq<T>, p: T -> bool)
    ensures CountIf(s, p) <= |s|
  {
    if s != [] {
      CountBounded(s[..|s| - 1], p);
    }
  }

  /** The last position that satisfies `p`. */
  function FindLast<T>(s: seq<T>, p: T -> bool): (k: Option<nat>)
    ensures k.Some? ==> k.value < |s| && p(s[k.value])
    ensures k.None? ==> forall j | 0 <= j < |s| :: !p(s[j])
  {
    if s == [] then None
    else
      var n := |s| - 1;
      if p(s[n]) then Some(n) else FindLast(s[..n], p)
  }

  // ---- multisets of sequences -------------------------------------------------------

  lemma MultisetRemoveAt<T>(b: seq<T>, i: nat)
    requires i < |b|
    ensures multiset(b) == multiset(b[..i] + b[i + 1..]) + multiset{b[i]}
  {
    assert b == b[..i] + [b[i]] + b[i + 1..];
  }

  lemma MultisetCancel<T>(p: multiset<T>, q: multiset<T>, x: T)
    requires p + multiset{x} == q + multiset{x}
    ensures p == q
  {
    assert p == (p + multiset{x}) - multiset{x};
    assert q == (q + multiset{x}) - multiset{x};
  }

  /** Two arrangements of the same elements: the last of `a` sits somewhere in `b`, and the rests are arrangements again. */
  lemma MultisetPeel<T>(a: seq<T>, b: seq<T>) returns (i: nat)
    requires multiset(a) == multiset(b) && a != []
    ensures i < |b| && b[i] == a[|a| - 1]
    ensures multiset(a[..|a| - 1]) == multiset(b[..i] + b[i + 1..])
  {
    var n := |a| - 1;
    assert a[n] in multiset(b);
    i :| 0 <= i < |b| && b[i] == a[n];
    MultisetRemoveAt(a, n);
    MultisetRemoveAt(b, i);
    assert a[..n] + a[n + 1..] == a[..n];
    MultisetCancel(multiset(a[..n]), multiset(b[..i] + b[i + 1..]), a[n]);
  }

  // ---- characters ---------------------------------------------------------------------

  predicate IsLetter(c: char) { 'a' <= c <= 'z' || 'A' <= c <= 'Z' }

  function UpperChar(c: char): char { if 'a' <= c <= 'z' then (c as int - 32) as char else c }

  function Upper(s: string): string { seq(|s|, i requires 0 <= i < |s| => UpperChar(s[i])) }

  // ---- products -----------------------------------------------------------------------

  lemma MulMonotone(d: nat, a: int, b: int)
    ensures a <= b ==> d * a <= d * b
  {
  }

  lemma Distribute(a: int, b: int, d: int)
    ensures (a + b) * d == a * d + b * d
  {
  }
}

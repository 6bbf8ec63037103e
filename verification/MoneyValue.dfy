/**
 * `Money` of the value-objects skill (`examples/money.py`).  An amount is a whole
 * number of units, `u` of them to the cent; every finite set of decimals has such
 * a common unit.
 */
module MoneyValue {
  import opened Prelude

  datatype MoneyError = InvalidCurrency | CurrencyMismatch

  datatype Money = Money(amount: int, currency: string)

  // ---- currencies -----------------------------------------------------------------------

  /** The character tables behind `isalpha` and `upper`; some characters have an upper case of several. */
  datatype Letters = Letters(isAlpha: char -> bool, upper: char -> string)

  /** Upper-casing an upper-cased character changes nothing, which holds of every Unicode character. */
  ghost predicate UpperIsFinal(t: Letters) {
    forall c, i | 0 <= i < |t.upper(c)| :: t.upper(t.upper(c)[i]) == [t.upper(c)[i]]
  }

  function Upper(t: Letters, s: string): string {
    if s == "" then "" else Upper(t, s[..|s| - 1]) + t.upper(s[|s| - 1])
  }

  /** `len(s) == 3 and s.isalpha()` */
  predicate IsCode(t: Letters, s: string) { |s| == 3 && forall i | 0 <= i < 3 :: t.isAlpha(s[i]) }

  /** `__post_init__`: three letters, kept in upper case. */
  function Make(t: Letters, amount: int, currency: string): Result<Money, MoneyError> {
    if IsCode(t, currency) then Ok(Money(amount, Upper(t, currency))) else Err(InvalidCurrency)
  }

  /** What every constructed value has: its currency is in upper case. */
  predicate IsUpper(t: Letters, m: Money) { Upper(t, m.currency) == m.currency }

  /** The value could be constructed from its own fields, as all its arithmetic does. */
  predicate Valid(t: Letters, m: Money) { Make(t, m.amount, m.currency) == Ok(m) }

  lemma {:induction false} UpperConcat(t: Letters, a: string, b: string)
    ensures Upper(t, a + b) == Upper(t, a) + Upper(t, b)
  {
    if b == "" {
      assert a + b == a;
    } else {
      assert (a + b)[..|a + b| - 1] == a + b[..|b| - 1];
      UpperConcat(t, a, b[..|b| - 1]);
    }
  }

  lemma {:induction false} UpperFixed(t: Letters, s: string)
    requires forall i | 0 <= i < |s| :: t.upper(s[i]) == [s[i]]
    ensures Upper(t, s) == s
  {
    if s != "" {
      UpperFixed(t, s[..|s| - 1]);
    }
  }

  lemma {:induction false} UpperTwice(t: Letters, s: string)
    requires UpperIsFinal(t)
    ensures Upper(t, Upper(t, s)) == Upper(t, s)
  {
    if s != "" {
      var front, last := s[..|s| - 1], t.upper(s[|s| - 1]);
      UpperTwice(t, front);
      UpperFixed(t, last);
      UpperConcat(t, Upper(t, front), last);
    }
  }

  /**
   * Construction normalises the currency; whether the value can ever be used
   * again is another matter: it can if and only if the upper-cased text still has
   * three letters.
   */
  lemma MadeIsValidIff(t: Letters, amount: int, currency: string)
    requires UpperIsFinal(t) && IsCode(t, currency)
    ensures Make(t, amount, currency).Ok?
    ensures var m := Make(t, amount, currency).value;
            IsUpper(t, m) && (Valid(t, m) <==> IsCode(t, Upper(t, currency)))
  {
    UpperTwice(t, currency);
  }

  /** A value that is not valid can be looked at and nothing else: every operation on it raises. */
  lemma InvalidIsStuck(t: Letters, m: Money, k: Money, f: int)
    requires IsUpper(t, m)
    ensures Neg(t, m).Ok? <==> Valid(t, m)
    ensures Mul(t, m, f).Ok? <==> Valid(t, m)
    ensures !Valid(t, m) ==> Add(t, m, k).Err? && Add(t, k, m).Err? && Sub(t, m, k).Err? && Sub(t, k, m).Err?
  {
  }

  /** The tables for the characters up to U+00FF. */
  function LatinUpper(c: char): string {
    if 'a' <= c <= 'z' || ('\U{E0}' <= c <= '\U{FE}' && c != '\U{F7}') then [(c as int - 32) as char]
    else if c == '\U{DF}' then "SS"
    else if c == '\U{B5}' then "\U{39C}"
    else if c == '\U{FF}' then "\U{178}"
    else [c]
  }

  predicate LatinAlpha(c: char) {
    || IsLetter(c) || c in "\U{AA}\U{B5}\U{BA}"
    || ('\U{C0}' <= c <= '\U{FF}' && c != '\U{D7}' && c != '\U{F7}')
  }

  function Latin(): Letters { Letters(c => LatinAlpha(c), c => LatinUpper(c)) }

  lemma LatinIsFinal()
    ensures UpperIsFinal(Latin())
  {
  }

  lemma UpperOne(t: Letters, c: char)
    ensures Upper(t, [c]) == t.upper(c)
  {
    assert [c][..0] == "";
  }

  /** Three accepted letters, the first of them a sharp s: constructed, and stuck ever after. */
  lemma SharpSIsStuck(amount: int)
    ensures UpperIsFinal(Latin()) && IsCode(Latin(), "\U{DF}ab")
    ensures Make(Latin(), amount, "\U{DF}ab") == Ok(Money(amount, "SSAB"))
    ensures Neg(Latin(), Money(amount, "SSAB")) == Err(InvalidCurrency)
  {
    LatinIsFinal();
    var t := Latin();
    var s: string, a: string, b: string := ['\U{DF}'], ['a'], ['b'];
    UpperOne(t, s[0]);
    UpperOne(t, a[0]);
    UpperOne(t, b[0]);
    UpperConcat(t, s, a);
    UpperConcat(t, s + a, b);
    hide Upper;
    assert s + a + b == "\U{DF}ab";
    assert "SS" + "A" + "B" == "SSAB";
  }

  // ---- operations -----------------------------------------------------------------------

  function FromCents(t: Letters, cents: int, currency: string, u: nat): Result<Money, MoneyError> {
    Make(t, cents * u, currency)
  }

  /** `int(x)` cuts towards zero. */
  function Truncate(x: int, u: nat): int
    requires u > 0
  {
    if x >= 0 then x / u else -((-x) / u)
  }

  function ToCents(m: Money, u: nat): int
    requires u > 0
  {
    Truncate(m.amount, u)
  }

  function Add(t: Letters, a: Money, b: Money): Result<Money, MoneyError> {
    if a.currency != b.currency then Err(CurrencyMismatch) else Make(t, a.amount + b.amount, a.currency)
  }

  function Sub(t: Letters, a: Money, b: Money): Result<Money, MoneyError> {
    if a.currency != b.currency then Err(CurrencyMismatch) else Make(t, a.amount - b.amount, a.currency)
  }

  /** By a decimal with the digits `f`: the unit of the result is the product of the two units. */
  function Mul(t: Letters, m: Money, f: int): Result<Money, MoneyError> { Make(t, m.amount * f, m.currency) }

  function Neg(t: Letters, m: Money): Result<Money, MoneyError> { Make(t, -m.amount, m.currency) }

  /** Adding up, from the left. */
  function Sum(t: Letters, ms: seq<Money>): Result<Money, MoneyError>
    requires ms != []
  {
    var n := |ms| - 1;
    if n == 0 then Ok(ms[0])
    else match Sum(t, ms[..n])
      case Ok(m) => Add(t, m, ms[n])
      case Err(e) => Err(e)
  }

  function SumCents(ms: seq<Money>, u: nat): int
    requires u > 0
  {
    if ms == [] then 0 else SumCents(ms[..|ms| - 1], u) + ToCents(ms[|ms| - 1], u)
  }

  function SumAmounts(ms: seq<Money>): int {
    if ms == [] then 0 else SumAmounts(ms[..|ms| - 1]) + ms[|ms| - 1].amount
  }

  // ---- single amounts -------------------------------------------------------------------

  /** The cents given are the cents got back. */
  lemma CentsRoundTrip(t: Letters, cents: int, currency: string, u: nat)
    requires u > 0 && IsCode(t, currency)
    ensures FromCents(t, cents, currency, u).Ok? && ToCents(FromCents(t, cents, currency, u).value, u) == cents
  {
    TruncateIs(cents * u, cents, 0, u);
  }

  /** Truncation is the one split into cents and a remainder of the amount's sign. */
  lemma TruncateIs(x: int, q: int, d: int, u: int)
    requires u > 0 && x == q * u + d && -u < d < u && (x > 0 ==> d >= 0) && (x < 0 ==> d <= 0) && (x == 0 ==> d == 0)
    ensures Truncate(x, u) == q
  {
    if x >= 0 {
      DivIs(x, q, d, u);
    } else {
      MulNegate(q, u);
      DivIs(-x, -q, -d, u);
    }
  }

  lemma MulNegate(q: int, u: int)
    ensures (-q) * u == -(q * u)
  {
  }

  lemma DivMod(x: int, u: int)
    requires u > 0
    ensures x == (x / u) * u + x % u && 0 <= x % u < u
  {
  }

  lemma QuotientBelow(k: int, n: int, u: int)
    requires u > 0 && k * u < n * u
    ensures k < n
  {
    MulMonotone(u, n, k);
  }

  lemma DivIs(x: int, q: int, d: int, u: int)
    requires u > 0 && x == q * u + d && 0 <= d < u
    ensures x / u == q
  {
    DivMod(x, u);
    Distribute(q, 1, u);
    Distribute(x / u, 1, u);
    QuotientBelow(x / u, q + 1, u);
    QuotientBelow(q, x / u + 1, u);
  }

  /** Negation works exactly on valid values, and commutes with `to_cents`. */
  lemma CentsOfNegation(t: Letters, m: Money, u: nat)
    requires u > 0 && IsUpper(t, m)
    ensures Neg(t, m).Ok? <==> Valid(t, m)
    ensures Neg(t, m).Ok? ==> ToCents(Neg(t, m).value, u) == -ToCents(m, u)
    ensures Neg(t, m).Ok? ==> Add(t, m, Neg(t, m).value) == Ok(Money(0, m.currency)) && Neg(t, Neg(t, m).value) == Ok(m)
  {
  }

  /** `to_cents` cuts what is below a cent, towards zero. */
  lemma ToCentsCuts(m: Money, u: nat)
    requires u > 0
    ensures m.amount >= 0 ==> ToCents(m, u) * u <= m.amount < ToCents(m, u) * u + u
    ensures m.amount <= 0 ==> ToCents(m, u) * u - u < m.amount <= ToCents(m, u) * u
  {
    DivMod(if m.amount >= 0 then m.amount else -m.amount, u);
    MulNegate((-m.amount) / u, u);
  }

  /** Exactly when addition works, and that subtraction undoes it, whatever the signs. */
  lemma AddSub(t: Letters, a: Money, b: Money)
    requires IsUpper(t, a) && IsUpper(t, b)
    ensures Add(t, a, b).Ok? <==> a.currency == b.currency && Valid(t, a)
    ensures Add(t, a, b).Ok? ==> Valid(t, Add(t, a, b).value) && Sub(t, Add(t, a, b).value, b) == Ok(a)
  {
  }

  // ---- the drift of a sum -----------------------------------------------------------------

  /** One amount, or valid amounts of one currency. */
  predicate Addable(t: Letters, ms: seq<Money>)
    requires ms != []
  {
    (forall i | 0 <= i < |ms| :: ms[i].currency == ms[0].currency) && (|ms| == 1 || Valid(t, ms[0]))
  }

  /** Adding up works exactly on such amounts. */
  lemma {:induction false} SumIs(t: Letters, ms: seq<Money>)
    requires ms != [] && forall i | 0 <= i < |ms| :: IsUpper(t, ms[i])
    ensures Sum(t, ms).Ok? <==> Addable(t, ms)
    ensures Sum(t, ms).Ok? ==> Sum(t, ms).value == Money(SumAmounts(ms), ms[0].currency)
  {
    var n := |ms| - 1;
    if n > 0 {
      SumIs(t, ms[..n]);
    } else {
      assert SumAmounts(ms[..0]) == 0;
    }
  }

  /** What `to_cents` drops from an amount, and from all of them. */
  function Dropped(m: Money, u: int): int
    requires u > 0
  {
    m.amount - Truncate(m.amount, u) * u
  }

  function SumDropped(ms: seq<Money>, u: int): int
    requires u > 0
  {
    if ms == [] then 0 else SumDropped(ms[..|ms| - 1], u) + Dropped(ms[|ms| - 1], u)
  }

  lemma DroppedBounds(m: Money, u: int)
    requires u > 0
    ensures -(u - 1) <= Dropped(m, u) <= u - 1
    ensures m.amount >= 0 ==> Dropped(m, u) >= 0
    ensures m.amount <= 0 ==> Dropped(m, u) <= 0
  {
    var x := m.amount;
    DivMod(x, u);
    DivMod(-x, u);
    MulNegate((-x) / u, u);
  }

  lemma {:induction false} SumSplits(ms: seq<Money>, u: nat)
    requires u > 0
    ensures SumAmounts(ms) == SumCents(ms, u) * u + SumDropped(ms, u)
  {
    if ms != [] {
      var n := |ms| - 1;
      SumSplits(ms[..n], u);
      hide Truncate;
      Distribute(SumCents(ms[..n], u), ToCents(ms[n], u), u);
    }
  }

  /** n amounts drop at most n times w; an amount of the other sign drops nothing in that direction. */
  lemma {:induction false} DroppedSum(ms: seq<Money>, u: int, w: int)
    requires u > 0 && w == u - 1
    ensures -(|ms| * w) <= SumDropped(ms, u) <= |ms| * w
    ensures forall i | 0 <= i < |ms| && ms[i].amount <= 0 :: SumDropped(ms, u) <= |ms| * w - w
    ensures forall i | 0 <= i < |ms| && ms[i].amount >= 0 :: SumDropped(ms, u) >= -(|ms| * w) + w
    ensures (forall i | 0 <= i < |ms| :: ms[i].amount >= 0) ==> SumDropped(ms, u) >= 0
  {
    if ms != [] {
      var n := |ms| - 1;
      DroppedSum(ms[..n], u, w);
      DroppedBounds(ms[n], u);
      Distribute(n, 1, w);
      hide Dropped;
      forall i | 0 <= i < n
        ensures ms[..n][i] == ms[i]
      {
      }
    }
  }

  lemma {:induction false} SumSign(ms: seq<Money>)
    requires ms != []
    ensures (forall i | 0 <= i < |ms| :: ms[i].amount < 0) ==> SumAmounts(ms) < 0
    ensures (forall i | 0 <= i < |ms| :: ms[i].amount > 0) ==> SumAmounts(ms) > 0
    ensures (forall i | 0 <= i < |ms| :: ms[i].amount >= 0) ==> SumAmounts(ms) >= 0
  {
    var n := |ms| - 1;
    if n > 0 {
      SumSign(ms[..n]);
    } else {
      assert SumAmounts(ms[..0]) == 0;
    }
  }

  /** A truncated sum of q units and a remainder f; `p` is n times u - 1. */
  lemma TruncateBand(x: int, q: int, f: int, n: int, u: int, p: int)
    requires u > 0 && n >= 1 && x == q * u + f && p == n * (u - 1)
    requires x >= 0 ==> -p + (u - 1) <= f <= p
    requires x < 0 ==> -p <= f <= p - (u - 1)
    ensures -(n - 1) <= Truncate(x, u) - q <= n - 1
    ensures x >= 0 && f >= 0 ==> Truncate(x, u) >= q
  {
    if x >= 0 {
      Band(x, q, f, n, u, p);
    } else {
      MulNegate(q, u);
      Band(-x, -q, -f, n, u, p);
    }
  }

  lemma Band(x: int, q: int, f: int, n: int, u: int, p: int)
    requires u > 0 && n >= 1 && x == q * u + f && p == n * (u - 1) && -p + (u - 1) <= f <= p
    ensures -(n - 1) <= x / u - q <= n - 1
    ensures f >= 0 ==> x / u >= q
  {
    var k := x / u - q;
    DivMod(x, u);
    Distribute(x / u, -q, u);
    MulNegate(q, u);
    assert k * u == f - x % u;
    LessOne(n, u);
    MulNegate(n, u);
    MulNegate(1, u);
    QuotientBelow(k, n, u);
    QuotientBelow(-n, k, u);
    if f >= 0 { QuotientBelow(-1, k, u); }
  }

  lemma LessOne(n: int, u: int)
    ensures n * (u - 1) == n * u - n
  {
  }

  /**
   * `to_cents` of a sum of n amounts differs from the sum of their cents by at most
   * n - 1 either way; for amounts that are not negative it is never the smaller one.
   */
  lemma TruncationDrift(t: Letters, ms: seq<Money>, u: nat)
    requires u > 0 && ms != [] && forall i | 0 <= i < |ms| :: IsUpper(t, ms[i])
    ensures Sum(t, ms).Ok? <==> Addable(t, ms)
    ensures Sum(t, ms).Ok? ==> -(|ms| - 1) <= ToCents(Sum(t, ms).value, u) - SumCents(ms, u) <= |ms| - 1
    ensures Sum(t, ms).Ok? && (forall i | 0 <= i < |ms| :: ms[i].amount >= 0) ==>
              ToCents(Sum(t, ms).value, u) >= SumCents(ms, u)
  {
    SumIs(t, ms);
    SumSplits(ms, u);
    DroppedSum(ms, u, u - 1);
    SumSign(ms);
    hide Sum, SumAmounts, SumDropped, SumCents, Truncate;
    TruncateBand(SumAmounts(ms), SumCents(ms, u), SumDropped(ms, u), |ms|, u, |ms| * (u - 1));
  }

  function Repeated(m: Money, n: nat): (r: seq<Money>)
    ensures |r| == n && forall i | 0 <= i < n :: r[i] == m
  {
    seq(n, i => m)
  }

  lemma {:induction false} RepeatedAmounts(m: Money, n: nat)
    ensures SumAmounts(Repeated(m, n)) == m.amount * n
  {
    if n > 0 {
      assert Repeated(m, n)[..n - 1] == Repeated(m, n - 1);
      RepeatedAmounts(m, n - 1);
      Distribute(n - 1, 1, m.amount);
    }
  }

  /** Multiplying by a whole number is adding that often, and any factor distributes over a sum. */
  lemma MulIsSum(t: Letters, a: Money, b: Money, n: nat, f: int)
    requires IsUpper(t, a) && IsUpper(t, b) && n >= 1
    ensures Mul(t, a, n).Ok? ==> Sum(t, Repeated(a, n)) == Mul(t, a, n)
    ensures Mul(t, a, n).Ok? ==> Mul(t, a, 0) == Ok(Money(0, a.currency)) && Mul(t, a, -(n as int)) == Neg(t, Mul(t, a, n).value)
    ensures Add(t, a, b).Ok? ==>
              && Mul(t, a, f).Ok? && Mul(t, b, f).Ok?
              && Mul(t, Add(t, a, b).value, f) == Add(t, Mul(t, a, f).value, Mul(t, b, f).value)
  {
    SumIs(t, Repeated(a, n));
    RepeatedAmounts(a, n);
    Distribute(a.amount, b.amount, f);
    MulNegate(n, a.amount);
    hide SumAmounts, Sum;
  }

  /** The bound is reached: n times the largest amount below a cent. */
  lemma DriftTight(t: Letters, n: nat, u: nat, currency: string)
    requires 1 <= n <= u && Valid(t, Money(u - 1, currency))
    ensures var ms := Repeated(Money(u - 1, currency), n);
            && Sum(t, ms) == Ok(Money(n * (u - 1), currency))
            && SumCents(ms, u) == 0 && ToCents(Sum(t, ms).value, u) == n - 1
  {
    var ms := Repeated(Money(u - 1, currency), n);
    SumIs(t, ms);
    RepeatedSum(n, u, currency);
    LessOne(n, u);
    Distribute(n, -1, u);
    DivIs(n * u - n, n - 1, u - n, u);
    assert n * u - n >= 0;
  }

  lemma {:induction false} RepeatedSum(n: nat, u: nat, currency: string)
    requires 1 <= u
    ensures var ms := Repeated(Money(u - 1, currency), n); SumAmounts(ms) == n * (u - 1) && SumCents(ms, u) == 0
  {
    if n > 0 {
      var m := Money(u - 1, currency);
      var ms := Repeated(m, n);
      assert ms[..n - 1] == Repeated(m, n - 1);
      TruncateIs(u - 1, 0, u - 1, u);
      RepeatedSum(n - 1, u, currency);
      Distribute(n - 1, 1, u - 1);
    }
  }
}

/**
 * Text forms of the values an outbox payload carries: UUIDs (section 4 of
 * RFC 9562), two-place decimals and timestamps, printed and parsed digit by digit.
 */
module Codec {
  import opened Prelude

  /** 128 bits, as their 32 hexadecimal digits. */
  type Uuid = u: seq<nat> | |u| == 32 && forall i | 0 <= i < |u| :: u[i] < 16
    witness seq(32, i => 0)

  // ---- digits ---------------------------------------------------------------

  const DIGITS := "0123456789abcdef"

  function DigitValue(c: char): Option<nat> {
    if '0' <= c <= '9' then Some(c as int - '0' as int)
    else if 'a' <= c <= 'f' then Some(c as int - 'a' as int + 10)
    else if 'A' <= c <= 'F' then Some(c as int - 'A' as int + 10)
    else None
  }

  lemma DigitRoundTrip(d: nat)
    requires d < 16
    ensures DigitValue(DIGITS[d]) == Some(d) && DIGITS[d] != '-' && DIGITS[d] != '.'
  {
  }

  /** The value of a digit string in the given base; None on a foreign character. */
  function Value(s: string, base: nat): Option<nat> {
    if s == "" then Some(0)
    else match (Value(s[..|s| - 1], base), DigitValue(s[|s| - 1]))
      case (Some(front), Some(d)) => if d < base then Some(front * base + d) else None
      case _ => None
  }

  // ---- UUID -------------------------------------------------------------------

  /** `'%032x' % value` */
  function Hex(u: Uuid): (s: string)
    ensures |s| == 32 && forall i | 0 <= i < 32 :: s[i] != '-'
  {
    var s := seq(32, i requires 0 <= i < 32 => DIGITS[u[i]]);
    assert forall i | 0 <= i < 32 :: s[i] != '-' by {
      forall i | 0 <= i < 32 ensures s[i] != '-' { DigitRoundTrip(u[i]); }
    }
    s
  }

  /** `int(text, 16)`, digit by digit. */
  function ParseHex(s: string): Option<Uuid> {
    if |s| == 32 && forall i | 0 <= i < 32 :: DigitValue(s[i]).Some?
    then Some(seq(32, i requires 0 <= i < 32 => DigitValue(s[i]).value))
    else None
  }

  function WithHyphens(h: string): string
    requires |h| == 32
  {
    h[..8] + "-" + h[8..12] + "-" + h[12..16] + "-" + h[16..20] + "-" + h[20..]
  }

  /** `str(uuid)` */
  function UuidText(u: Uuid): string { WithHyphens(Hex(u)) }

  function Strip(s: string): string {
    if s == "" then "" else Strip(s[..|s| - 1]) + (if s[|s| - 1] == '-' then "" else [s[|s| - 1]])
  }

  /** `UUID(text)`: hyphens are dropped, then exactly 32 hexadecimal digits must remain. */
  function ParseUuid(s: string): Option<Uuid> { ParseHex(Strip(s)) }

  lemma {:induction false} StripConcat(a: string, b: string)
    ensures Strip(a + b) == Strip(a) + Strip(b)
  {
    if b == "" {
      assert a + b == a;
    } else {
      assert (a + b)[..|a + b| - 1] == a + b[..|b| - 1];
      StripConcat(a, b[..|b| - 1]);
    }
  }

  lemma {:induction false} StripNone(s: string)
    requires forall i | 0 <= i < |s| :: s[i] != '-'
    ensures Strip(s) == s
  {
    if s != "" {
      StripNone(s[..|s| - 1]);
    }
  }

  lemma StripHyphens(h: string)
    requires |h| == 32 && forall i | 0 <= i < |h| :: h[i] != '-'
    ensures Strip(WithHyphens(h)) == h
  {
    var a, b, c, d, e := h[..8], h[8..12], h[12..16], h[16..20], h[20..];
    StripNone(a); StripNone(b); StripNone(c); StripNone(d); StripNone(e);
    assert Strip("-") == "";
    StripConcat(a, "-");
    StripConcat(a + "-", b);
    StripConcat(a + "-" + b, "-");
    StripConcat(a + "-" + b + "-", c);
    StripConcat(a + "-" + b + "-" + c, "-");
    StripConcat(a + "-" + b + "-" + c + "-", d);
    StripConcat(a + "-" + b + "-" + c + "-" + d, "-");
    StripConcat(a + "-" + b + "-" + c + "-" + d + "-", e);
    assert a + b + c + d + e == h;
  }

  lemma HexRoundTrip(u: Uuid)
    ensures ParseHex(Hex(u)) == Some(u)
  {
    forall i | 0 <= i < 32
      ensures DigitValue(Hex(u)[i]) == Some(u[i])
    {
      DigitRoundTrip(u[i]);
    }
    assert ParseHex(Hex(u)).value == u;
  }

  lemma UuidRoundTrip(u: Uuid)
    ensures ParseUuid(UuidText(u)) == Some(u)
  {
    HexRoundTrip(u);
    StripHyphens(Hex(u));
  }

  /** Texts are UUIDs exactly when, hyphens aside, they are 32 hexadecimal digits of either case. */
  lemma ParsesIff(s: string)
    ensures ParseUuid(s).Some? <==>
              && |Strip(s)| == 32
              && forall i | 0 <= i < 32 ::
                   var c := Strip(s)[i]; '0' <= c <= '9' || 'a' <= c <= 'f' || 'A' <= c <= 'F'
  {
    hide Strip;
  }

  /** A hexadecimal digit in lower case, and its value. */
  predicate IsDigit(c: char, d: nat) {
    if d < 10 then c as int == '0' as int + d else c as int == 'a' as int + d - 10
  }

  /** The canonical form: 36 characters, hyphens after 8, 12, 16 and 20 digits, the digits in order and in lower case. */
  lemma UuidTextShape(u: Uuid)
    ensures var s := UuidText(u);
            && |s| == 36 && s[8] == s[13] == s[18] == s[23] == '-'
            && (forall i | 0 <= i < 8 :: IsDigit(s[i], u[i]))
            && (forall i | 8 <= i < 12 :: IsDigit(s[i + 1], u[i]))
            && (forall i | 12 <= i < 16 :: IsDigit(s[i + 2], u[i]))
            && (forall i | 16 <= i < 20 :: IsDigit(s[i + 3], u[i]))
            && (forall i | 20 <= i < 32 :: IsDigit(s[i + 4], u[i]))
  {
    var h := Hex(u);
    forall i | 0 <= i < 32
      ensures IsDigit(h[i], u[i])
    {
      DigitIs(u[i]);
    }
    hide IsDigit, Hex;
  }

  lemma DigitIs(d: nat)
    requires d < 16
    ensures IsDigit(DIGITS[d], d)
  {
  }

  // ---- integers and two-place decimals ------------------------------------------

  function NatText(n: nat): (s: string)
    ensures s != ""
    ensures forall i | 0 <= i < |s| :: s[i] != '-'
  {
    DigitRoundTrip(n % 10);
    if n < 10 then [DIGITS[n]] else NatText(n / 10) + [DIGITS[n % 10]]
  }

  function ParseNat(s: string): Option<nat> {
    if s == "" then None else Value(s, 10)
  }

  lemma {:induction false} NatRoundTrip(n: nat)
    ensures ParseNat(NatText(n)) == Some(n)
  {
    DigitRoundTrip(n % 10);
    if n < 10 {
      assert NatText(n)[..0] == "";
      assert Value("", 10) == Some(0);
    } else {
      NatRoundTrip(n / 10);
      assert NatText(n)[..|NatText(n)| - 1] == NatText(n / 10);
    }
  }

  function Signed(sign: int, o: Option<nat>): Option<int> {
    if o.Some? then Some(sign * o.value) else None
  }

  /** `isoformat` and `fromisoformat` are opaque here: an integer number of microseconds stands for the text. */
  function TimeText(t: int): string { if t < 0 then "-" + NatText(-t) else NatText(t) }

  function ParseTime(s: string): Option<int> {
    if s != "" && s[0] == '-' then Signed(-1, ParseNat(s[1..])) else Signed(1, ParseNat(s))
  }

  lemma TimeRoundTrip(t: int)
    ensures ParseTime(TimeText(t)) == Some(t)
  {
    NatRoundTrip(if t < 0 then -t else t);
    if t < 0 {
      assert TimeText(t)[1..] == NatText(-t);
    }
  }

  function UnsignedDecimalText(c: nat): (s: string)
    ensures |s| > 3 && s[0] != '-'
  {
    NatText(c / 100) + "." + [DIGITS[c % 100 / 10], DIGITS[c % 10]]
  }

  /** `str(Decimal)` of a value with exponent -2, given in cents. */
  function DecimalText(c: int): string {
    if c < 0 then "-" + UnsignedDecimalText(-c) else UnsignedDecimalText(c)
  }

  function ParseUnsignedDecimal(s: string): Option<nat> {
    if |s| < 4 || s[|s| - 3] != '.' then None
    else match (ParseNat(s[..|s| - 3]), ParseNat(s[|s| - 2..]))
      case (Some(whole), Some(cents)) => Some(whole * 100 + cents)
      case _ => None
  }

  /** `Decimal(text)` on texts with two decimal places. */
  function ParseDecimal(s: string): Option<int> {
    if s != "" && s[0] == '-' then Signed(-1, ParseUnsignedDecimal(s[1..]))
    else Signed(1, ParseUnsignedDecimal(s))
  }

  /** Decimal digits without a leading zero. */
  lemma {:induction false} NatTextShape(n: nat)
    ensures forall i | 0 <= i < |NatText(n)| :: '0' <= NatText(n)[i] <= '9'
    ensures NatText(n)[0] == '0' ==> n == 0 && |NatText(n)| == 1
  {
    DigitIs(n % 10);
    if n >= 10 { NatTextShape(n / 10); }
  }

  /** A sign only below zero, digits without a leading zero, a point and two digits. */
  lemma DecimalTextShape(c: int)
    ensures var s := DecimalText(c); var k := if c < 0 then 1 else 0;
            && |s| >= k + 4 && (c < 0 <==> s[0] == '-') && s[|s| - 3] == '.'
            && (forall i | k <= i < |s| && i != |s| - 3 :: '0' <= s[i] <= '9')
            && (s[k] == '0' ==> s[k + 1] == '.')
  {
    var n := if c < 0 then -c else c;
    NatTextShape(n / 100);
    DigitIs(n % 100 / 10);
    DigitIs(n % 10);
    hide NatText;
  }

  lemma UnsignedDecimalRoundTrip(c: nat)
    ensures ParseUnsignedDecimal(UnsignedDecimalText(c)) == Some(c)
  {
    var hi, lo := c % 100 / 10, c % 10;
    NatRoundTrip(c / 100);
    TwoDigits(hi, lo);
    SplitAtPoint(NatText(c / 100), [DIGITS[hi], DIGITS[lo]]);
    hide NatText, Value, ParseNat, ParseUnsignedDecimal;
    assert c == c / 100 * 100 + hi * 10 + lo;
  }

  lemma SplitAtPoint(whole: string, cents: string)
    requires whole != "" && |cents| == 2 && ParseNat(whole).Some? && ParseNat(cents).Some?
    ensures ParseUnsignedDecimal(whole + "." + cents) == Some(ParseNat(whole).value * 100 + ParseNat(cents).value)
  {
    hide ParseNat;
    var s := whole + "." + cents;
    assert s[..|s| - 3] == whole && s[|s| - 2..] == cents;
  }

  lemma TwoDigits(hi: nat, lo: nat)
    requires hi < 10 && lo < 10
    ensures ParseNat([DIGITS[hi], DIGITS[lo]]) == Some(hi * 10 + lo)
  {
    DigitRoundTrip(hi);
    DigitRoundTrip(lo);
    var cents := [DIGITS[hi], DIGITS[lo]];
    assert cents[..1] == [DIGITS[hi]] && cents[..1][..0] == "";
    assert Value(cents[..1], 10) == Some(hi);
  }

  lemma DecimalRoundTrip(c: int)
    ensures ParseDecimal(DecimalText(c)) == Some(c)
  {
    UnsignedDecimalRoundTrip(if c < 0 then -c else c);
    if c < 0 {
      assert DecimalText(c)[1..] == UnsignedDecimalText(-c);
    }
  }
}

/**
 * Half-up decimal arithmetic on exact scaled integers.
 *
 * A price is an integer number of cents and a tax rate an integer number of
 * ten-thousandths, which is what the two- and four-place columns hold.  The
 * control service also allows quantities with two places; they are integers
 * number of hundredths.
 */
module HalfUp {
  import opened Prelude

  const RATE_ONE := 10_000   // a tax rate of 1
  const QTY_ONE := 100       // a fractional quantity of 1

  /** `x / d` rounded to the nearest integer, ties away from zero (ROUND_HALF_UP). */
  function Round(x: int, d: int): (r: int)
    requires d > 0
    ensures x >= 0 ==> 2 * x - d < 2 * d * r <= 2 * x + d
    ensures x < 0 ==> 2 * x - d <= 2 * d * r < 2 * x + d
    ensures x >= 0 ==> r >= 0
  {
    if x >= 0 then (2 * x + d) / (2 * d) else -((d - 2 * x) / (2 * d))
  }

  /** The only integer within half a unit (the upper half included) is the rounded value. */
  lemma RoundUnique(x: nat, d: int, r: int)
    requires d > 0
    requires 2 * x - d < 2 * d * r <= 2 * x + d
    ensures r == Round(x, d)
  {
    MulMonotone(2 * d, r, Round(x, d) - 1);
    MulMonotone(2 * d, Round(x, d), r - 1);
  }

  lemma RoundExact(k: nat, d: int)
    requires d > 0
    ensures Round(k * d, d) == k
  {
    RoundUnique(k * d, d, k);
  }

  lemma RoundMonotone(x: nat, y: nat, d: int)
    requires d > 0 && x <= y
    ensures Round(x, d) <= Round(y, d)
  {
    MulMonotone(2 * d, Round(y, d) + 1, Round(x, d));
    assert 2 * d * (Round(y, d) + 1) == 2 * d * Round(y, d) + 2 * d;
  }

  /** Whole units pass through the rounding unchanged. */
  lemma RoundShift(x: nat, k: nat, d: int)
    requires d > 0
    ensures Round(k * d + x, d) == k + Round(x, d)
  {
    RoundUnique(k * d + x, d, k + Round(x, d));
  }

  // ---- the service of the test run: round every line ---------------------

  /** A validated invoice line: whole quantity, price in cents, rate in 1/10000. */
  datatype Line = Line(description: string, quantity: int, unitPrice: int, taxRate: int)

  /** `InvoiceLine.new` raises unless this holds. */
  predicate ValidLine(l: Line) {
    l.quantity > 0 && l.unitPrice >= 0 && 0 <= l.taxRate <= RATE_ONE
  }

  predicate ValidLines(lines: seq<Line>) {
    forall i | 0 <= i < |lines| :: ValidLine(lines[i])
  }

  function LineSubtotal(l: Line): int {
    Round(l.unitPrice * l.quantity, 1)
  }

  function LineTax(l: Line): int {
    Round(LineSubtotal(l) * l.taxRate, RATE_ONE)
  }

  function SumSubtotals(lines: seq<Line>): int {
    if lines == [] then 0
    else SumSubtotals(lines[..|lines| - 1]) + LineSubtotal(lines[|lines| - 1])
  }

  function SumTaxes(lines: seq<Line>): int {
    if lines == [] then 0
    else SumTaxes(lines[..|lines| - 1]) + LineTax(lines[|lines| - 1])
  }

  // `Invoice.subtotal`, `Invoice.tax` and `Invoice.total`, in cents: the last
  // quantize of each property runs on a whole number of cents.
  function Subtotal(lines: seq<Line>): int { Round(SumSubtotals(lines), 1) }

  function Tax(lines: seq<Line>): int { Round(SumTaxes(lines), 1) }

  function Total(lines: seq<Line>): int { Round(Subtotal(lines) + Tax(lines), 1) }

  lemma LineBounds(l: Line)
    requires ValidLine(l)
    ensures LineSubtotal(l) == l.unitPrice * l.quantity >= 0
    ensures 0 <= LineTax(l) <= LineSubtotal(l)
  {
    var p := l.unitPrice * l.quantity;
    assert p >= 0;
    RoundExact(p, 1);
    assert p * l.taxRate <= p * RATE_ONE;
    assert 0 <= p * l.taxRate;
  }

  /** A line's tax is the exact tax, rounded half up. */
  lemma LineTaxIsHalfUp(l: Line)
    requires ValidLine(l)
    ensures var exact := l.unitPrice * l.quantity * l.taxRate;
            2 * exact - RATE_ONE < 2 * RATE_ONE * LineTax(l) <= 2 * exact + RATE_ONE
  {
    LineBounds(l);
    assert LineSubtotal(l) * l.taxRate >= 0;
  }

  /** Subtotal and tax of an invoice add up its lines, one at a time. */
  lemma SumsOfLines(lines: seq<Line>, l: Line)
    requires ValidLines(lines) && ValidLine(l)
    ensures Subtotal([]) == 0 && Tax([]) == 0
    ensures Subtotal(lines + [l]) == Subtotal(lines) + l.unitPrice * l.quantity
    ensures Tax(lines + [l]) == Tax(lines) + LineTax(l)
  {
    assert (lines + [l])[..|lines|] == lines;
    LineBounds(l);
    SumBounds(lines);
    SumBounds(lines + [l]);
    RoundExact(SumSubtotals(lines), 1);
    RoundExact(SumTaxes(lines), 1);
    RoundExact(SumSubtotals(lines + [l]), 1);
    RoundExact(SumTaxes(lines + [l]), 1);
  }

  lemma {:induction false} SumBounds(lines: seq<Line>)
    requires ValidLines(lines)
    ensures 0 <= SumTaxes(lines) <= SumSubtotals(lines)
  {
    if lines != [] {
      SumBounds(lines[..|lines| - 1]);
      LineBounds(lines[|lines| - 1]);
    }
  }

  /** Per-line form: the total is exactly subtotal plus tax and at most twice the subtotal. */
  lemma PerLineTotal(lines: seq<Line>)
    requires ValidLines(lines)
    ensures Total(lines) == Subtotal(lines) + Tax(lines)
    ensures Subtotal(lines) <= Total(lines) <= 2 * Subtotal(lines)
    ensures 0 <= Subtotal(lines)
  {
    SumBounds(lines);
    RoundExact(SumSubtotals(lines), 1);
    RoundExact(SumTaxes(lines), 1);
    RoundExact(Subtotal(lines) + Tax(lines), 1);
  }

  // ---- the control service: round once at the end -------------------------

  /** A control-service line; the quantity is in hundredths. */
  datatype FracLine = FracLine(quantity: int, unitPrice: int, taxRate: int)

  predicate ValidFracLine(l: FracLine) {
    l.quantity > 0 && l.unitPrice >= 0 && 0 <= l.taxRate <= RATE_ONE
  }

  predicate ValidFracLines(lines: seq<FracLine>) {
    forall i | 0 <= i < |lines| :: ValidFracLine(lines[i])
  }

  /** `quantity * unit_price`, in units of cent / QTY_ONE. */
  function RawAmount(l: FracLine): int { l.quantity * l.unitPrice }

  /** `quantity * unit_price * tax_rate`, in units of cent / (QTY_ONE * RATE_ONE). */
  function RawTax(l: FracLine): int { l.quantity * l.unitPrice * l.taxRate }

  function SumRawAmounts(lines: seq<FracLine>): int {
    if lines == [] then 0
    else SumRawAmounts(lines[..|lines| - 1]) + RawAmount(lines[|lines| - 1])
  }

  function SumRawTaxes(lines: seq<FracLine>): int {
    if lines == [] then 0
    else SumRawTaxes(lines[..|lines| - 1]) + RawTax(lines[|lines| - 1])
  }

  datatype Totals = Totals(subtotal: int, tax: int, total: int)

  /** `calculate_totals`: the three sums are exact and each is quantized once. */
  function CalculateTotals(lines: seq<FracLine>): Totals {
    Totals(
      Round(SumRawAmounts(lines), QTY_ONE),
      Round(SumRawTaxes(lines), QTY_ONE * RATE_ONE),
      Round(SumRawAmounts(lines) * RATE_ONE + SumRawTaxes(lines), QTY_ONE * RATE_ONE))
  }

  /** `line_to_read`: the line total is the sum of two rounded amounts. */
  function ShownLineTotal(l: FracLine): int {
    Round(Round(RawAmount(l), QTY_ONE) + Round(RawTax(l), QTY_ONE * RATE_ONE), 1)
  }

  function SumShown(lines: seq<FracLine>): int {
    if lines == [] then 0
    else SumShown(lines[..|lines| - 1]) + ShownLineTotal(lines[|lines| - 1])
  }

  lemma RawNonNegative(l: FracLine)
    requires ValidFracLine(l)
    ensures RawAmount(l) >= 0 && RawTax(l) >= 0
  {
    assert l.quantity * l.unitPrice >= 0;
  }

  lemma {:induction false} SumsNonNegative(lines: seq<FracLine>)
    requires ValidFracLines(lines)
    ensures SumRawAmounts(lines) >= 0 && SumRawTaxes(lines) >= 0
  {
    if lines != [] {
      SumsNonNegative(lines[..|lines| - 1]);
      RawNonNegative(lines[|lines| - 1]);
    }
  }

  /** `r` is the exact amount `x` / `d`, rounded half up: it is within half a unit, the upper half included. */
  predicate IsHalfUp(x: int, d: int, r: int) { 2 * x - d < 2 * d * r <= 2 * x + d }

  lemma HalfUpUnique(x: int, d: int, r: int, q: int)
    requires d > 0 && IsHalfUp(x, d, r) && IsHalfUp(x, d, q)
    ensures r == q
  {
    MulMonotone(2 * d, r, q - 1);
    MulMonotone(2 * d, q, r - 1);
    assert 2 * d * (q - 1) == 2 * d * q - 2 * d && 2 * d * (r - 1) == 2 * d * r - 2 * d;
  }

  /**
   * The shown subtotal, tax and total of any valid lines, fractional quantities
   * included, are the three exact sums rounded half up, and no other integers are.
   */
  lemma TotalsAreHalfUp(lines: seq<FracLine>, subtotal: int, tax: int, total: int)
    requires ValidFracLines(lines)
    ensures CalculateTotals(lines) == Totals(subtotal, tax, total) <==>
              && IsHalfUp(SumRawAmounts(lines), QTY_ONE, subtotal)
              && IsHalfUp(SumRawTaxes(lines), QTY_ONE * RATE_ONE, tax)
              && IsHalfUp(SumRawAmounts(lines) * RATE_ONE + SumRawTaxes(lines), QTY_ONE * RATE_ONE, total)
  {
    SumsNonNegative(lines);
    var t := CalculateTotals(lines);
    assert IsHalfUp(SumRawAmounts(lines), QTY_ONE, t.subtotal);
    assert IsHalfUp(SumRawTaxes(lines), QTY_ONE * RATE_ONE, t.tax);
    assert IsHalfUp(SumRawAmounts(lines) * RATE_ONE + SumRawTaxes(lines), QTY_ONE * RATE_ONE, t.total);
    hide IsHalfUp, CalculateTotals;
    if IsHalfUp(SumRawAmounts(lines), QTY_ONE, subtotal) { HalfUpUnique(SumRawAmounts(lines), QTY_ONE, subtotal, t.subtotal); }
    if IsHalfUp(SumRawTaxes(lines), QTY_ONE * RATE_ONE, tax) {
      HalfUpUnique(SumRawTaxes(lines), QTY_ONE * RATE_ONE, tax, t.tax);
    }
    if IsHalfUp(SumRawAmounts(lines) * RATE_ONE + SumRawTaxes(lines), QTY_ONE * RATE_ONE, total) {
      HalfUpUnique(SumRawAmounts(lines) * RATE_ONE + SumRawTaxes(lines), QTY_ONE * RATE_ONE, total, t.total);
    }
  }

  /** The exact sums, one line at a time. */
  lemma RawSums(lines: seq<FracLine>, l: FracLine)
    ensures SumRawAmounts([]) == 0 && SumRawTaxes([]) == 0
    ensures SumRawAmounts(lines + [l]) == SumRawAmounts(lines) + l.quantity * l.unitPrice
    ensures SumRawTaxes(lines + [l]) == SumRawTaxes(lines) + l.quantity * l.unitPrice * l.taxRate
  {
    assert (lines + [l])[..|lines|] == lines;
  }

  /** A shown line total is its amount and its tax, each rounded half up. */
  lemma ShownLineIsHalfUp(l: FracLine, amount: int, tax: int)
    requires ValidFracLine(l)
    requires IsHalfUp(l.quantity * l.unitPrice, QTY_ONE, amount)
    requires IsHalfUp(l.quantity * l.unitPrice * l.taxRate, QTY_ONE * RATE_ONE, tax)
    ensures ShownLineTotal(l) == amount + tax
  {
    RawNonNegative(l);
    HalfUpUnique(RawAmount(l), QTY_ONE, amount, Round(RawAmount(l), QTY_ONE));
    HalfUpUnique(RawTax(l), QTY_ONE * RATE_ONE, tax, Round(RawTax(l), QTY_ONE * RATE_ONE));
    RoundExact(amount + tax, 1);
  }

  /** One and a half pieces at 0.99: half a cent goes up, in the subtotal as in the total. */
  lemma HalfACentGoesUp()
    ensures CalculateTotals([FracLine(150, 99, 0)]) == Totals(149, 0, 149)
  {
    RawSums([], FracLine(150, 99, 0));
    assert [] + [FracLine(150, 99, 0)] == [FracLine(150, 99, 0)];
    TotalsAreHalfUp([FracLine(150, 99, 0)], 149, 0, 149);
  }

  /** Shown subtotal plus shown tax is at most one cent away from the shown total. */
  lemma SubtotalPlusTaxDrift(lines: seq<FracLine>)
    requires ValidFracLines(lines)
    ensures var t := CalculateTotals(lines); -1 <= t.subtotal + t.tax - t.total <= 1
  {
    SumsNonNegative(lines);
  }

  /** One more line never makes an invoice cheaper. */
  lemma TotalGrows(lines: seq<FracLine>, l: FracLine)
    requires ValidFracLines(lines) && ValidFracLine(l)
    ensures CalculateTotals(lines).total <= CalculateTotals(lines + [l]).total
  {
    SumsNonNegative(lines);
    RawNonNegative(l);
    assert (lines + [l])[..|lines|] == lines;
    RoundMonotone(SumRawAmounts(lines) * RATE_ONE + SumRawTaxes(lines),
                  SumRawAmounts(lines + [l]) * RATE_ONE + SumRawTaxes(lines + [l]), QTY_ONE * RATE_ONE);
  }

  /** The shown line totals against the exact sums, in units of cent / (QTY_ONE * RATE_ONE). */
  lemma {:induction false} ShownSumBounds(lines: seq<FracLine>)
    requires ValidFracLines(lines)
    ensures var exact := SumRawAmounts(lines) * RATE_ONE + SumRawTaxes(lines);
            var d := QTY_ONE * RATE_ONE;
            exact - d * |lines| <= d * SumShown(lines) <= exact + d * |lines|
  {
    if lines != [] {
      var l := lines[|lines| - 1];
      ShownSumBounds(lines[..|lines| - 1]);
      RawNonNegative(l);
      RoundExact(Round(RawAmount(l), QTY_ONE) + Round(RawTax(l), QTY_ONE * RATE_ONE), 1);
    }
  }

  /** The n shown line totals add up to within n cents of the shown total. */
  lemma LineTotalsDrift(lines: seq<FracLine>)
    requires ValidFracLines(lines)
    ensures -|lines| <= SumShown(lines) - CalculateTotals(lines).total <= |lines|
  {
    SumsNonNegative(lines);
    ShownSumBounds(lines);
    var exact := SumRawAmounts(lines) * RATE_ONE + SumRawTaxes(lines);
    NearBy(QTY_ONE * RATE_ONE, exact, SumShown(lines), CalculateTotals(lines).total, |lines|);
  }

  lemma NearBy(d: int, exact: int, shown: int, rounded: int, n: int)
    requires d > 0 && n >= 0 && exact - d * n <= d * shown <= exact + d * n
    requires 2 * exact - d < 2 * d * rounded <= 2 * exact + d
    ensures -n <= shown - rounded <= n
  {
    MulMonotone(d, n + 1, shown - rounded);
    MulMonotone(d, n + 1, rounded - shown);
    assert d * (n + 1) == d * n + d;
    assert d * (shown - rounded) == d * shown - d * rounded;
    assert d * (rounded - shown) == d * rounded - d * shown;
  }

  // ---- the two services against each other ---------------------------------

  /** The same line as the control service stores it. */
  function AsFrac(l: Line): FracLine {
    FracLine(l.quantity * QTY_ONE, l.unitPrice, l.taxRate)
  }

  function AsFracs(lines: seq<Line>): (r: seq<FracLine>)
    ensures |r| == |lines|
  {
    if lines == [] then [] else AsFracs(lines[..|lines| - 1]) + [AsFrac(lines[|lines| - 1])]
  }

  /** The exact tax of a line, in cent / RATE_ONE. */
  function ExactTax(l: Line): int { l.unitPrice * l.quantity * l.taxRate }


  function SumExactTaxes(lines: seq<Line>): int {
    if lines == [] then 0
    else SumExactTaxes(lines[..|lines| - 1]) + ExactTax(lines[|lines| - 1])
  }

  lemma {:induction false} FracSums(lines: seq<Line>)
    requires ValidLines(lines)
    ensures ValidFracLines(AsFracs(lines))
    ensures SumRawAmounts(AsFracs(lines)) == QTY_ONE * SumSubtotals(lines)
    ensures SumRawTaxes(AsFracs(lines)) == QTY_ONE * SumExactTaxes(lines)
    ensures SumExactTaxes(lines) >= 0
  {
    if lines != [] {
      var front, l := lines[..|lines| - 1], lines[|lines| - 1];
      FracSums(front);
      FracOfLine(l);
      assert AsFracs(lines)[..|front|] == AsFracs(front);
      hide RawAmount, RawTax, ExactTax, LineSubtotal, AsFrac, ValidFracLine;
    }
  }

  lemma FracOfLine(l: Line)
    requires ValidLine(l)
    ensures ValidFracLine(AsFrac(l))
    ensures RawAmount(AsFrac(l)) == QTY_ONE * LineSubtotal(l)
    ensures RawTax(AsFrac(l)) == QTY_ONE * ExactTax(l) && ExactTax(l) >= 0
  {
    LineBounds(l);
    var p := l.unitPrice * l.quantity;
    RoundExact(p, 1);
    hide Round;
    assert l.quantity * QTY_ONE * l.unitPrice == QTY_ONE * p;
    assert QTY_ONE * p * l.taxRate == QTY_ONE * (p * l.taxRate);
    assert p >= 0;
    assert p * l.taxRate >= 0;
  }

  /** n roundings of one line each: the error is in (-n/2, n/2] cents. */
  lemma {:induction false} SumTaxError(lines: seq<Line>)
    requires ValidLines(lines)
    ensures 2 * SumExactTaxes(lines) - RATE_ONE * |lines| <= 2 * RATE_ONE * SumTaxes(lines)
    ensures lines != [] ==> 2 * SumExactTaxes(lines) - RATE_ONE * |lines| < 2 * RATE_ONE * SumTaxes(lines)
    ensures 2 * RATE_ONE * SumTaxes(lines) <= 2 * SumExactTaxes(lines) + RATE_ONE * |lines|
  {
    if lines != [] {
      var l := lines[|lines| - 1];
      SumTaxError(lines[..|lines| - 1]);
      LineBounds(l);
      assert l.unitPrice * l.quantity * l.taxRate >= 0;
    }
  }

  /** Scaling numerator and denominator alike does not change the rounding. */
  lemma RoundScale(x: nat, d: int, k: int)
    requires d > 0 && k > 0
    ensures Round(k * x, k * d) == Round(x, d)
  {
    var r := Round(x, d);
    assert k * (2 * x - d) < k * (2 * d * r) <= k * (2 * x + d);
    RoundUnique(k * x, k * d, r);
  }

  /**
   * For the same n lines the two services agree on the subtotal, and their tax
   * and their total differ by at most floor(n / 2) cents.
   */
  lemma ServicesDiffer(lines: seq<Line>)
    requires ValidLines(lines)
    ensures var c := CalculateTotals(AsFracs(lines));
            && c.subtotal == Subtotal(lines)
            && -(|lines| / 2) <= Tax(lines) - c.tax <= |lines| / 2
            && -(|lines| / 2) <= Total(lines) - c.total <= |lines| / 2
            && c.total - c.tax == c.subtotal
  {
    var sub, exact := SumSubtotals(lines), SumExactTaxes(lines);
    FracSums(lines);
    SumBounds(lines);
    SumTaxError(lines);
    PerLineTotal(lines);
    RoundExact(SumSubtotals(lines), 1);
    RoundExact(SumTaxes(lines), 1);
    RoundExact(sub, QTY_ONE);
    RoundScale(exact, RATE_ONE, QTY_ONE);
    RoundScale(sub * RATE_ONE + exact, RATE_ONE, QTY_ONE);
    RoundShift(exact, sub, RATE_ONE);
  }

  /** One cent at fifty percent: each copy rounds half a cent up to one. */
  lemma {:induction false} HalfCentTaxes(lines: seq<Line>)
    requires forall i | 0 <= i < |lines| :: lines[i] == Line("", 1, 1, 5000)
    ensures SumTaxes(lines) == |lines|
    ensures SumExactTaxes(lines) == 5000 * |lines|
  {
    if lines != [] {
      HalfCentTaxes(lines[..|lines| - 1]);
      assert LineTax(lines[|lines| - 1]) == 1;
    }
  }

  /** The bound on the two services is attained for every n. */
  lemma ServicesDifferTight(n: nat)
    ensures var lines := seq(n, i => Line("", 1, 1, 5000));
            ValidLines(lines) && Tax(lines) - CalculateTotals(AsFracs(lines)).tax == n / 2
  {
    var lines := seq(n, i => Line("", 1, 1, 5000));
    HalfCentTaxes(lines);
    FracSums(lines);
    RoundExact(n, 1);
    RoundScale(n * 5000, RATE_ONE, QTY_ONE);
    RoundUnique(n * 5000, RATE_ONE, n - n / 2);
  }

  /** Half a unit at one cent and rate one: shown as one cent plus one cent of tax. */
  lemma {:induction false} HalfCentShown(lines: seq<FracLine>)
    requires forall i | 0 <= i < |lines| :: lines[i] == FracLine(50, 1, RATE_ONE)
    ensures SumShown(lines) == 2 * |lines|
    ensures SumRawAmounts(lines) == 50 * |lines| && SumRawTaxes(lines) == 500_000 * |lines|
  {
    if lines != [] {
      HalfCentShown(lines[..|lines| - 1]);
      assert ShownLineTotal(lines[|lines| - 1]) == 2;
    }
  }

  /** So is the bound on the shown line totals. */
  lemma LineTotalsDriftTight(n: nat)
    ensures var lines := seq(n, i => FracLine(50, 1, RATE_ONE));
            ValidFracLines(lines) && SumShown(lines) - CalculateTotals(lines).total == n
  {
    var lines := seq(n, i => FracLine(50, 1, RATE_ONE));
    HalfCentShown(lines);
    RoundExact(n, QTY_ONE * RATE_ONE);
  }
}

/**
 * Exact money arithmetic shared by the split calculators and the entities.
 *
 * Money is an integer number of cents and a percentage is an integer number of
 * hundredths of a percent (10000 is 100%). The source keeps both as JavaScript
 * doubles and compares sums against small epsilons; on whole cents those
 * epsilons become the integer bounds below.
 */
module Money {

  function Abs(x: int): (r: nat)
    ensures r == x || r == -x
  {
    if x < 0 then -x else x
  }

  /** 0.011 of a currency unit: the slack allowed between two money totals. */
  const ConservationSlackCents: nat := 1

  /** 100% in hundredths of a percent. */
  const OneHundredPercent: int := 10000

  /** 0.01 of a percent: the slack allowed between a percentage sum and 100%. */
  const PercentageSlack: nat := 1

  /** `Math.abs(a - b) > 0.011` is false: two totals agree to within a cent. */
  predicate Reconciles(a: int, b: int) {
    Abs(a - b) <= ConservationSlackCents
  }

  /** `Math.abs(sum - 100) > 0.01` is false. */
  predicate IsFullPercentage(sum: int) {
    Abs(sum - OneHundredPercent) <= PercentageSlack
  }

  /**
   * `Math.round(num / den)`: the integer nearest to num / den, halves going up
   * (towards positive infinity), as JavaScript's Math.round does.
   */
  function RoundHalfUp(num: int, den: int): int
    requires den > 0
  {
    (2 * num + den) / (2 * den)
  }

  /** RoundHalfUp(num, den) is the r with r - 1/2 <= num / den < r + 1/2. */
  lemma RoundHalfUpNearest(num: int, den: int)
    requires den > 0
    ensures var r := RoundHalfUp(num, den);
            2 * den * r <= 2 * num + den < 2 * den * r + 2 * den
  {
  }

  /**
   * `Math.round(((total * percentage) / 100) * 100) / 100` with the total in
   * cents and the percentage in hundredths: the exact share is
   * total * percentage / 10000 cents, rounded half up to a whole cent.
   */
  function PercentOf(total: int, percentage: int): int {
    RoundHalfUp(total * percentage, OneHundredPercent)
  }

  function DigitChar(d: int): char
    requires 0 <= d < 10
  {
    "0123456789"[d]
  }

  /** The decimal numeral of n, without leading zeros. */
  function NatToString(n: nat): (s: string)
    ensures |s| > 0
    decreases n
  {
    if n < 10 then [DigitChar(n)] else NatToString(n / 10) + [DigitChar(n % 10)]
  }

  /**
   * How JavaScript prints a number that has at most two decimals, given in
   * hundredths: `100`, `33.34`, `0.5`, `-12.05`.
   */
  function FormatHundredths(v: int): string {
    var a := Abs(v);
    var whole := NatToString(a / 100);
    var frac := a % 100;
    var sign := if v < 0 then "-" else "";
    if frac == 0 then sign + whole
    else if frac % 10 == 0 then sign + whole + "." + [DigitChar(frac / 10)]
    else sign + whole + "." + [DigitChar(frac / 10), DigitChar(frac % 10)]
  }
}

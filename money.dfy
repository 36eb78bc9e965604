/**
 * Money is kept in whole cents. JavaScript keeps dollars in floating point
 * and rounds with `toFixed(2)`; on exact cents that rounding is "nearest,
 * halves away from zero", which `RoundDiv` states.
 */
module Money {
  import opened Text

  /** The nearest whole number to `n / d`, halves away from zero. */
  function RoundDiv(n: int, d: int): (r: int)
    requires d > 0
    ensures n >= 0 ==> 2 * d * r - d <= 2 * n < 2 * d * r + d
    ensures n < 0 ==> 2 * d * r - d < 2 * n <= 2 * d * r + d
  {
    if n >= 0 then
      var r := (2 * n + d) / (2 * d);
      assert 2 * d * r <= 2 * n + d < 2 * d * r + 2 * d;
      r
    else
      var q := (-2 * n + d) / (2 * d);
      assert 2 * d * q <= -2 * n + d < 2 * d * q + 2 * d;
      -q
  }

  lemma MulNonnegative(a: int, b: int)
    requires a >= 0 && b >= 0
    ensures a * b >= 0
  {
  }

  lemma MulGap(d: int, r: int, q: int)
    requires d > 0 && r < q
    ensures 2 * d * r + 2 * d <= 2 * d * q
  {
    MulNonnegative(d, q - r - 1);
    assert d * q - d * r - d == d * (q - r - 1);
  }

  /** The two bounds of `RoundDiv` pin the result down: no other whole number satisfies them. */
  lemma RoundDivUnique(n: int, d: int, r: int)
    requires d > 0
    requires n >= 0 ==> 2 * d * r - d <= 2 * n < 2 * d * r + d
    requires n < 0 ==> 2 * d * r - d < 2 * n <= 2 * d * r + d
    ensures r == RoundDiv(n, d)
  {
    var q := RoundDiv(n, d);
    if r < q {
      MulGap(d, r, q);
    } else if r > q {
      MulGap(d, q, r);
    }
  }

  /** `(cents / 100).toFixed(2)`: optional sign, whole dollars, a point and two digits of cents. */
  function FormatCents(c: int): string {
    (if c < 0 then "-" else "") + Digits(Abs(c) / 100) + "." + Padded(Abs(c) % 100, 2)
  }

  /** A rendering `d.ff` read back in cents: the whole part times a hundred plus the two decimals. */
  predicate ReadsAsCents(s: string, c: int) {
    |s| >= 4 && s[|s| - 3] == '.' && AllDigits(s[..|s| - 3]) && AllDigits(s[|s| - 2..]) &&
    DecimalValue(s[..|s| - 3]) * 100 + DecimalValue(s[|s| - 2..]) == c
  }

  /** Whole digits, a dot and two decimal digits read back as the cents they spell. */
  lemma ReadsAsCentsOf(d: string, f: string, c: int)
    requires 1 <= |d| && |f| == 2 && AllDigits(d) && AllDigits(f)
    requires DecimalValue(d) * 100 + DecimalValue(f) == c
    ensures ReadsAsCents(d + "." + f, c)
  {
    var s := d + "." + f;
    assert s[..|s| - 3] == d;
    assert s[|s| - 2..] == f;
  }

  /** Every non-negative amount renders to a string that reads back to it. */
  lemma FormatCentsParses(c: nat)
    ensures ReadsAsCents(FormatCents(c), c)
  {
    FormatCentsReadsBack(c);
    ReadsAsCentsOf(Digits(c / 100), Padded(c % 100, 2), c);
  }

  function Abs(c: int): nat {
    if c < 0 then -c else c
  }

  /**
   * A non-negative amount formats as its whole dollars, a point and exactly two
   * cent digits, and those two digit strings read back to the amount.
   */
  lemma FormatCentsReadsBack(c: nat)
    ensures FormatCents(c) == Digits(c / 100) + "." + Padded(c % 100, 2)
    ensures |Padded(c % 100, 2)| == 2 && AllDigits(Padded(c % 100, 2))
    ensures DecimalValue(Digits(c / 100)) * 100 + DecimalValue(Padded(c % 100, 2)) == c
  {
    PaddedRoundTrip(c % 100, 2);
    assert "" + Digits(c / 100) == Digits(c / 100);
  }
}

/**
 * Calendar dates as the client uses them: a date range check and the
 * YYYY-MM-DD layout of the query parameters and of the body's date keys.
 */
module Dates {
  import opened Wrappers
  import opened Decimal

  type Month = m: int | 1 <= m <= 12 witness 1
  type Day = d: int | 1 <= d <= 31 witness 1

  datatype Date = Date(year: int, month: Month, day: Day)

  /** The zero value of a time: January 1 of year 1. */
  const ZeroDate := Date(1, 1, 1)

  predicate IsZero(d: Date) { d == ZeroDate }

  /** a is strictly later than b. */
  predicate After(a: Date, b: Date)
  {
    a.year > b.year
    || (a.year == b.year && a.month > b.month)
    || (a.year == b.year && a.month == b.month && a.day > b.day)
  }

  /** After is a strict total order on dates. */
  lemma AfterIsStrictTotalOrder(a: Date, b: Date, c: Date)
    ensures !After(a, a)
    ensures After(a, b) ==> !After(b, a)
    ensures After(a, b) && After(b, c) ==> After(a, c)
    ensures a == b || After(a, b) || After(b, a)
  {
  }

  /** The rendering of the layout "2006-01-02". */
  function Format(d: Date): (s: string)
  {
    FormatInt(d.year, 4) + "-" + FormatInt(d.month, 2) + "-" + FormatInt(d.day, 2)
  }

  /** Reads a YYYY-MM-DD string back into a date; None for anything else. */
  function Parse(s: string): (r: Option<Date>)
  {
    if |s| == 10 && s[4] == '-' && s[7] == '-'
       && AllDigits(s[..4]) && AllDigits(s[5..7]) && AllDigits(s[8..])
    then
      var y, m, d := ParseNat(s[..4]), ParseNat(s[5..7]), ParseNat(s[8..]);
      if 1 <= m <= 12 && 1 <= d <= 31 then Some(Date(y, m, d)) else None
    else None
  }

  /** For a non-negative number the sign is absent and only the padded digits remain. */
  lemma FormatNonNegative(x: nat, w: nat)
    requires 1 <= w && x < Pow10(w)
    ensures FormatInt(x, w) == PadLeft(Digits(x), w)
    ensures |FormatInt(x, w)| == w && AllDigits(FormatInt(x, w)) && ParseNat(FormatInt(x, w)) == x
  {
    PadLeftLength(x, w);
    PadLeftParse(x, w);
    assert "" + PadLeft(Digits(x), w) == PadLeft(Digits(x), w);
  }

  /** For the years the layout prints as four digits, Format and Parse are inverse. */
  lemma FormatRoundTrip(d: Date)
    requires 0 <= d.year < 10000
    ensures Parse(Format(d)) == Some(d)
  {
    var y, m, dd := FormatInt(d.year, 4), FormatInt(d.month, 2), FormatInt(d.day, 2);
    FormatNonNegative(d.year, 4);
    FormatNonNegative(d.month, 2);
    FormatNonNegative(d.day, 2);
    var s := y + "-" + m + "-" + dd;
    assert s == Format(d);
    assert |s| == 10 && s[4] == '-' && s[7] == '-';
    assert s[..4] == y;
    assert s[5..7] == m;
    assert s[8..] == dd;
  }

  /** A four-digit year renders as ten characters with dashes at positions 4 and 7. */
  lemma FormatShape(d: Date)
    requires 0 <= d.year < 10000
    ensures |Format(d)| == 10 && Format(d)[4] == '-' && Format(d)[7] == '-'
    ensures AllDigits(Format(d)[..4]) && AllDigits(Format(d)[5..7]) && AllDigits(Format(d)[8..])
  {
    FormatRoundTrip(d);
  }

  /** Two dates with the same rendering are the same date. */
  lemma FormatInjective(a: Date, b: Date)
    requires 0 <= a.year < 10000 && 0 <= b.year < 10000
    requires Format(a) == Format(b)
    ensures a == b
  {
    FormatRoundTrip(a);
    FormatRoundTrip(b);
  }
}

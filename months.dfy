/** Dates and months as the components handle them: a log belongs to a month when
    its date starts with the month's text, the timeline truncates a date to its
    first seven characters, and the month pickers step "YYYY-MM" values one
    month at a time through JavaScript's `Date`. */
module Months {

  /** `date.startsWith(month)`. */
  predicate InMonth(date: string, month: string)
  {
    |month| <= |date| && date[..|month|] == month
  }

  /** `date.slice(0, 7)`: the "YYYY-MM" part of a "YYYY-MM-DD" date. */
  function MonthOf(date: string): (r: string)
    ensures |r| == if |date| < 7 then |date| else 7
    ensures r == date[..|r|]
  {
    if |date| <= 7 then date else date[..7]
  }

  /** For a seven-character month, the two ways of tying a date to it agree. */
  lemma MonthOfAgreesWithInMonth(date: string, month: string)
    requires |month| == 7
    ensures InMonth(date, month) <==> MonthOf(date) == month
  {
  }

  predicate IsDigit(c: char)
  {
    '0' <= c <= '9'
  }

  function DigitValue(c: char): (d: int)
    requires IsDigit(c)
    ensures 0 <= d <= 9
  {
    c as int - '0' as int
  }

  function DigitChar(d: int): (c: char)
    requires 0 <= d <= 9
    ensures IsDigit(c) && DigitValue(c) == d
  {
    ('0' as int + d) as char
  }

  /** The text a month input holds: four digits, a dash and two digits. */
  predicate IsMonthText(s: string)
  {
    |s| == 7 && IsDigit(s[0]) && IsDigit(s[1]) && IsDigit(s[2]) && IsDigit(s[3])
    && s[4] == '-' && IsDigit(s[5]) && IsDigit(s[6])
  }

  /** `Number` of the part before the dash. */
  function YearPart(s: string): (y: int)
    requires IsMonthText(s)
    ensures 0 <= y <= 9999
  {
    1000 * DigitValue(s[0]) + 100 * DigitValue(s[1]) + 10 * DigitValue(s[2]) + DigitValue(s[3])
  }

  /** `Number` of the part after the dash (not necessarily 1–12). */
  function MonthPart(s: string): (m: int)
    requires IsMonthText(s)
    ensures 0 <= m <= 99
  {
    10 * DigitValue(s[5]) + DigitValue(s[6])
  }

  /** `toISOString().slice(0, 7)` of a date in the years 0000–9999. */
  function Format(year: int, month: int): (s: string)
    requires 0 <= year <= 9999 && 0 <= month <= 99
    ensures IsMonthText(s) && YearPart(s) == year && MonthPart(s) == month
  {
    var a := year / 10;
    var b := a / 10;
    var c := b / 10;
    [DigitChar(c), DigitChar(b % 10), DigitChar(a % 10), DigitChar(year % 10), '-',
     DigitChar(month / 10), DigitChar(month % 10)]
  }

  /** Reading a month text and writing it back gives the same text. */
  lemma FormatOfParts(s: string)
    requires IsMonthText(s)
    ensures Format(YearPart(s), MonthPart(s)) == s
  {
    var d0, d1, d2, d3 := DigitValue(s[0]), DigitValue(s[1]), DigitValue(s[2]), DigitValue(s[3]);
    var y, m := YearPart(s), MonthPart(s);
    DivTen(y, 100 * d0 + 10 * d1 + d2, d3);
    DivTen(100 * d0 + 10 * d1 + d2, 10 * d0 + d1, d2);
    DivTen(10 * d0 + d1, d0, d1);
    DivTen(m, DigitValue(s[5]), DigitValue(s[6]));
    var f := Format(y, m);
    assert f[0] == s[0] && f[1] == s[1] && f[2] == s[2] && f[3] == s[3];
    assert f[5] == s[5] && f[6] == s[6];
  }

  lemma DivTen(n: int, q: int, r: int)
    requires 0 <= r < 10 && n == 10 * q + r
    ensures n / 10 == q && n % 10 == r
  {
  }

  /** The year `new Date(year, …)` uses: the values 0–99 stand for 1900–1999. */
  function DateYear(year: int): int
  {
    if 0 <= year <= 99 then 1900 + year else year
  }

  /** The number of months since January of year 0 that a month text denotes. */
  function MonthIndex(s: string): int
    requires IsMonthText(s)
  {
    YearPart(s) * 12 + MonthPart(s) - 1
  }

  /** `changeMonth(delta)`: `new Date(year, month - 1 + delta, 1)` normalised and printed
      as "YYYY-MM". A text that is not a month, or a result outside the years
      0000–9999, leaves the month as it was. */
  function ShiftMonth(s: string, delta: int): (r: string)
    ensures IsMonthText(s) <==> IsMonthText(r)
    ensures !IsMonthText(s) ==> r == s
  {
    if !IsMonthText(s) then s
    else
      var k := DateYear(YearPart(s)) * 12 + MonthPart(s) - 1 + delta;
      var year := k / 12;
      if 0 <= year <= 9999 then Format(year, k % 12 + 1) else s
  }

  /** Away from the 1900 quirk and the edges of the four-digit years, shifting moves
      the month index by exactly `delta` and always lands on a month 01–12. */
  lemma {:induction false} ShiftMonthMovesIndex(s: string, delta: int)
    requires IsMonthText(s) && YearPart(s) >= 100
    requires 0 <= (MonthIndex(s) + delta) / 12 <= 9999
    ensures MonthIndex(ShiftMonth(s, delta)) == MonthIndex(s) + delta
    ensures 1 <= MonthPart(ShiftMonth(s, delta)) <= 12
  {
    var k := MonthIndex(s) + delta;
    ShiftMonthParts(s, delta);
    assert k == 12 * (k / 12) + k % 12;
  }

  /** The year and month a shift produces, as quotient and remainder of the index. */
  lemma ShiftMonthParts(s: string, delta: int)
    requires IsMonthText(s) && YearPart(s) >= 100
    requires 0 <= (MonthIndex(s) + delta) / 12 <= 9999
    ensures YearPart(ShiftMonth(s, delta)) == (MonthIndex(s) + delta) / 12
    ensures MonthPart(ShiftMonth(s, delta)) == (MonthIndex(s) + delta) % 12 + 1
  {
    assert DateYear(YearPart(s)) == YearPart(s);
  }

  /** Two month texts with the same year and month parts are the same text. */
  lemma SameParts(a: string, b: string)
    requires IsMonthText(a) && IsMonthText(b)
    requires YearPart(a) == YearPart(b) && MonthPart(a) == MonthPart(b)
    ensures a == b
  {
    FormatOfParts(a);
    FormatOfParts(b);
  }

  /** With months in 1–12, the month index determines year and month. */
  lemma IndexDeterminesParts(a: string, b: string)
    requires IsMonthText(a) && IsMonthText(b)
    requires 1 <= MonthPart(a) <= 12 && 1 <= MonthPart(b) <= 12
    requires MonthIndex(a) == MonthIndex(b)
    ensures a == b
  {
    var ya, yb := YearPart(a), YearPart(b);
    assert (ya - yb) * 12 == MonthPart(b) - MonthPart(a);
    SameParts(a, b);
  }

  /** Stepping forward and back returns the original month. */
  lemma {:induction false} ShiftMonthInverse(s: string, delta: int)
    requires IsMonthText(s) && 1 <= MonthPart(s) <= 12 && YearPart(s) >= 100
    requires 100 <= (MonthIndex(s) + delta) / 12 <= 9999
    ensures ShiftMonth(ShiftMonth(s, delta), -delta) == s
  {
    var t := ShiftMonth(s, delta);
    ShiftMonthParts(s, delta);
    ShiftMonthMovesIndex(s, delta);
    assert MonthIndex(t) + -delta == MonthIndex(s);
    ShiftMonthMovesIndex(t, -delta);
    IndexDeterminesParts(ShiftMonth(t, -delta), s);
  }

  /** December + 1 is January of the next year. */
  lemma DecemberRollsOver()
    ensures ShiftMonth("2024-12", 1) == "2025-01"
    ensures ShiftMonth("2025-01", -1) == "2024-12"
  {
    var dec, jan := "2024-12", "2025-01";
    assert IsMonthText(dec) && YearPart(dec) == 2024 && MonthPart(dec) == 12;
    assert IsMonthText(jan) && YearPart(jan) == 2025 && MonthPart(jan) == 1;
    ShiftMonthParts(dec, 1);
    ShiftMonthParts(jan, -1);
    SameParts(ShiftMonth(dec, 1), jan);
    SameParts(ShiftMonth(jan, -1), dec);
  }
}

/**
 * Calendar-date validation of `YYYY-MM-DD` strings, as `isValidDate` in
 * lib/api-service.ts does it: a shape test by regular expression, a parse by
 * the JavaScript `Date` constructor (an invalid month or day gives a NaN
 * timestamp), and a round trip through `toISOString().slice(0, 10)` that
 * must give back the input.
 *
 * The engine's date-only parser accepts months 01-12 and days 01-31 and
 * rolls a day past the end of a month over into the next month
 * ("2024-02-30" becomes 1 March); `Normalize` models that roll-over, and
 * the round trip is what rejects such inputs.
 */
module Dates {
  import opened Wrappers

  predicate IsDigit(c: char) {
    '0' <= c <= '9'
  }

  function DigitValue(c: char): (v: nat)
    requires IsDigit(c)
    ensures v <= 9
  {
    c as int - '0' as int
  }

  function DigitChar(v: nat): (c: char)
    requires v <= 9
    ensures IsDigit(c) && DigitValue(c) == v
  {
    ('0' as int + v) as char
  }

  /** The regular expression `^\d{4}-\d{2}-\d{2}$`. */
  predicate MatchesDateShape(s: string) {
    && |s| == 10
    && IsDigit(s[0]) && IsDigit(s[1]) && IsDigit(s[2]) && IsDigit(s[3])
    && s[4] == '-'
    && IsDigit(s[5]) && IsDigit(s[6])
    && s[7] == '-'
    && IsDigit(s[8]) && IsDigit(s[9])
  }

  function YearField(s: string): nat
    requires MatchesDateShape(s)
  {
    1000 * DigitValue(s[0]) + 100 * DigitValue(s[1]) + 10 * DigitValue(s[2]) + DigitValue(s[3])
  }

  function MonthField(s: string): nat
    requires MatchesDateShape(s)
  {
    10 * DigitValue(s[5]) + DigitValue(s[6])
  }

  function DayField(s: string): nat
    requires MatchesDateShape(s)
  {
    10 * DigitValue(s[8]) + DigitValue(s[9])
  }

  /** Proleptic Gregorian leap years (year 0 is one). */
  predicate IsLeapYear(y: int) {
    y % 4 == 0 && (y % 100 != 0 || y % 400 == 0)
  }

  function DaysInMonth(y: int, m: int): (n: int)
    requires 1 <= m <= 12
    ensures 28 <= n <= 31
    ensures n == 29 <==> m == 2 && IsLeapYear(y)
  {
    if m == 2 then (if IsLeapYear(y) then 29 else 28)
    else if m == 4 || m == 6 || m == 9 || m == 11 then 30
    else 31
  }

  datatype CivilDate = CivilDate(year: int, month: int, day: int)

  predicate IsCalendarDate(c: CivilDate) {
    0 <= c.year <= 9999 && 1 <= c.month <= 12 && 1 <= c.day <= DaysInMonth(c.year, c.month)
  }

  /** The day a (month, day-of-month up to 31) pair denotes, rolling past the month's end. */
  function Normalize(y: int, m: int, d: int): (c: CivilDate)
    requires 0 <= y <= 9999 && 1 <= m <= 12 && 1 <= d <= 31
    ensures IsCalendarDate(c)
    ensures c == CivilDate(y, m, d) <==> d <= DaysInMonth(y, m)
  {
    var n := DaysInMonth(y, m);
    if d <= n then CivilDate(y, m, d)
    else if m < 12 then CivilDate(y, m + 1, d - n)
    else CivilDate(y + 1, 1, d - n)
  }

  /** `new Date(s)` for a string of the right shape: `None` is the NaN timestamp. */
  function ParseIsoDate(s: string): (r: Option<CivilDate>)
    requires MatchesDateShape(s)
    ensures r.Some? ==> IsCalendarDate(r.value)
  {
    var y, m, d := YearField(s), MonthField(s), DayField(s);
    if 1 <= m <= 12 && 1 <= d <= 31 then Some(Normalize(y, m, d)) else None
  }

  function TwoDigits(v: nat): (r: string)
    requires v <= 99
  {
    [DigitChar(v / 10), DigitChar(v % 10)]
  }

  /** `date.toISOString().slice(0, 10)`: the `YYYY-MM-DD` rendering. */
  function ToIsoDateString(c: CivilDate): (r: string)
    requires IsCalendarDate(c)
  {
    [DigitChar(c.year / 1000), DigitChar(c.year / 100 % 10)]
      + TwoDigits(c.year % 100) + "-" + TwoDigits(c.month) + "-" + TwoDigits(c.day)
  }

  /** `isValidDate`. */
  predicate IsValidDate(s: string) {
    && MatchesDateShape(s)
    && var parsed := ParseIsoDate(s);
       parsed.Some? && ToIsoDateString(parsed.value) == s
  }

  /**
   * The `full-date` production of section 5.6 of RFC 3339 together with
   * the day-of-month limits of its section 5.7: four year digits, a month
   * 01-12 and a day from 01 to the length of that month.
   */
  predicate IsRfc3339FullDate(s: string) {
    && MatchesDateShape(s)
    && 1 <= MonthField(s) <= 12
    && 1 <= DayField(s) <= DaysInMonth(YearField(s), MonthField(s))
  }

  /** Rendering a calendar date and reading its fields back gives the date. */
  lemma IsoDateFields(c: CivilDate)
    requires IsCalendarDate(c)
    ensures MatchesDateShape(ToIsoDateString(c))
    ensures CivilDate(YearField(ToIsoDateString(c)), MonthField(ToIsoDateString(c)),
                      DayField(ToIsoDateString(c))) == c
  {
    var s := ToIsoDateString(c);
    var y := c.year;
    assert s[0] == DigitChar(y / 1000) && s[1] == DigitChar(y / 100 % 10);
    assert s[2] == DigitChar(y % 100 / 10) && s[3] == DigitChar(y % 100 % 10);
    assert s[5] == DigitChar(c.month / 10) && s[6] == DigitChar(c.month % 10);
    assert s[8] == DigitChar(c.day / 10) && s[9] == DigitChar(c.day % 10);
    assert 1000 * (y / 1000) + 100 * (y / 100 % 10) + 10 * (y % 100 / 10) + y % 100 % 10 == y;
  }

  lemma FourDigitsRoundTrip(a: nat, b: nat, c: nat, d: nat)
    requires a <= 9 && b <= 9 && c <= 9 && d <= 9
    ensures var y := 1000 * a + 100 * b + 10 * c + d;
      y / 1000 == a && y / 100 % 10 == b && y % 100 / 10 == c && y % 100 % 10 == d
  {
    var y := 1000 * a + 100 * b + 10 * c + d;
    assert y / 100 == 10 * a + b;
    assert y % 100 == 10 * c + d;
  }

  /** Reading the fields of a well-shaped string and rendering them gives the string back. */
  lemma FieldsIsoDate(s: string)
    requires MatchesDateShape(s)
    requires IsCalendarDate(CivilDate(YearField(s), MonthField(s), DayField(s)))
    ensures ToIsoDateString(CivilDate(YearField(s), MonthField(s), DayField(s))) == s
  {
    var d0, d1, d2, d3 := DigitValue(s[0]), DigitValue(s[1]), DigitValue(s[2]), DigitValue(s[3]);
    FourDigitsRoundTrip(d0, d1, d2, d3);
    FourDigitsRoundTrip(0, 0, DigitValue(s[5]), DigitValue(s[6]));
    FourDigitsRoundTrip(0, 0, DigitValue(s[8]), DigitValue(s[9]));
    var r := ToIsoDateString(CivilDate(YearField(s), MonthField(s), DayField(s)));
    forall i | 0 <= i < 10 && i != 4 && i != 7 ensures DigitChar(DigitValue(s[i])) == s[i] { }
    assert r[4] == s[4] && r[7] == s[7];
    assert r == s;
  }

  /**
   * `isValidDate` accepts exactly the RFC 3339 full-dates: the parse and
   * round trip reject a month outside 01-12 and a day past the end of its
   * month, and nothing else.
   */
  lemma IsValidDateIff(s: string)
    ensures IsValidDate(s) <==> IsRfc3339FullDate(s)
  {
    if MatchesDateShape(s) {
      var y, m, d := YearField(s), MonthField(s), DayField(s);
      if IsRfc3339FullDate(s) {
        FieldsIsoDate(s);
      }
      if IsValidDate(s) {
        var c := ParseIsoDate(s).value;
        IsoDateFields(c);
        assert c == CivilDate(y, m, d);
      }
    }
  }

  /** Every calendar date of years 0000-9999, rendered as `YYYY-MM-DD`, is accepted. */
  lemma IsoDateIsValid(c: CivilDate)
    requires IsCalendarDate(c)
    ensures IsValidDate(ToIsoDateString(c))
  {
    IsoDateFields(c);
    IsValidDateIff(ToIsoDateString(c));
  }

  /** Day 30 of February is rejected. */
  lemma RejectsThirtiethOfFebruary()
    ensures !IsValidDate("2024-02-30")
  {
    var s := "2024-02-30";
    IsValidDateIff(s);
    assert MonthField(s) == 2 && DayField(s) == 30;
  }

  /** Month 13 is rejected. */
  lemma RejectsMonthThirteen()
    ensures !IsValidDate("2024-13-01")
  {
    var s := "2024-13-01";
    IsValidDateIff(s);
    assert MonthField(s) == 13;
  }

  /** 29 February is accepted in a leap year only. */
  lemma LeapDay()
    ensures IsValidDate("2024-02-29") && !IsValidDate("2023-02-29")
  {
    var s, t := "2024-02-29", "2023-02-29";
    IsValidDateIff(s);
    IsValidDateIff(t);
    assert YearField(s) == 2024 && MonthField(s) == 2 && DayField(s) == 29;
    assert YearField(t) == 2023 && MonthField(t) == 2 && DayField(t) == 29;
  }
}

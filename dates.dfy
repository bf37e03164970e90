/**
 * Calendar dates as (year, month, day), the form in which the source reads a JavaScript `Date`
 * (`getFullYear`, `getMonth() + 1`, `getDate`) or writes a 'YYYY-MM-DD' string.
 * Years run from 1 to 9999, the years date-fns prints as four digits in 'yyyy-MM-dd'.
 */
module Dates {
  import opened Strings

  type Year = y: int | 1 <= y <= 9999 witness 1
  type Month = m: int | 1 <= m <= 12 witness 1
  type Day = d: int | 1 <= d <= 31 witness 1

  datatype Date = Date(year: Year, month: Month, day: Day)

  /** The years the `Date` constructor does not take literally. */
  predicate TwoDigitYear(y: int)
  {
    0 <= y <= 99
  }

  /** The full year `new Date(y, m, ...)` uses for its year argument `y`: 0 to 99 mean 1900 plus it. */
  function FullYear(y: int): (r: int)
    ensures TwoDigitYear(y) ==> r == y + 1900
    ensures !TwoDigitYear(y) ==> r == y
    ensures !TwoDigitYear(r)
  {
    if TwoDigitYear(y) then 1900 + y else y
  }

  /** Gregorian leap years. */
  predicate IsLeapYear(y: int)
  {
    y % 4 == 0 && (y % 100 != 0 || y % 400 == 0)
  }

  /** The number of days of a month (the day of date-fns' `endOfMonth`). */
  function DaysInMonth(y: int, m: Month): (r: Day)
    ensures 28 <= r
  {
    if m == 2 then (if IsLeapYear(y) then 29 else 28)
    else if m == 4 || m == 6 || m == 9 || m == 11 then 30
    else 31
  }

  /** A date that exists on the calendar (no 30 February). */
  predicate Valid(d: Date)
  {
    d.day <= DaysInMonth(d.year, d.month)
  }

  /** date-fns `startOfMonth`. */
  function StartOfMonth(year: Year, month: Month): Date
  {
    Date(year, month, 1)
  }

  /** date-fns `endOfMonth` (as a day; the time of day is not modelled). */
  function EndOfMonth(year: Year, month: Month): (r: Date)
    ensures Valid(r)
  {
    Date(year, month, DaysInMonth(year, month))
  }

  /** date-fns `format(d, 'yyyy-MM-dd')`. */
  function FormatYmd(d: Date): (r: string)
    ensures |r| == 10 && r[4] == '-' && r[7] == '-'
  {
    PadDigits(d.year, 4) + "-" + PadDigits(d.month, 2) + "-" + PadDigits(d.day, 2)
  }

  /** date-fns `format(d, 'yyyy-MM')`. */
  function FormatYm(d: Date): (r: string)
    ensures |r| == 7 && r[4] == '-'
  {
    PadDigits(d.year, 4) + "-" + PadDigits(d.month, 2)
  }

  /** Chronological order of days. */
  predicate DateLe(a: Date, b: Date)
  {
    a.year < b.year || (a.year == b.year && (a.month < b.month || (a.month == b.month && a.day <= b.day)))
  }

  /** Two dates on the same calendar day (`isSameDay` once both are set to midnight). */
  predicate SameDay(a: Date, b: Date)
  {
    a.year == b.year && a.month == b.month && a.day == b.day
  }

  /** Two dates in the same year and month (`isSameMonth`). */
  predicate SameMonth(a: Date, b: Date)
  {
    a.year == b.year && a.month == b.month
  }

  /** A number that orders dates as `getTime()` orders the midnights of those days. */
  function Ordinal(d: Date): (r: int)
    ensures r >= 0
  {
    d.year * 372 + d.month * 31 + d.day
  }

  /** The ordinal orders dates chronologically. */
  lemma OrdinalOrder(a: Date, b: Date)
    ensures Ordinal(a) <= Ordinal(b) <==> DateLe(a, b)
  {
    assert 32 <= a.month * 31 + a.day <= 403;
    assert 32 <= b.month * 31 + b.day <= 403;
  }

  /** Comparing 'yyyy-MM-dd' strings with `<=` compares the dates chronologically. */
  lemma FormatYmdOrder(a: Date, b: Date)
    ensures FormatYmd(a) == FormatYmd(b) <==> a == b
    ensures LexLe(FormatYmd(a), FormatYmd(b)) <==> DateLe(a, b)
  {
    var ya, ma, da := PadDigits(a.year, 4), PadDigits(a.month, 2), PadDigits(a.day, 2);
    var yb, mb, db := PadDigits(b.year, 4), PadDigits(b.month, 2), PadDigits(b.day, 2);
    PadDigitsOrder(a.year, b.year, 4);
    PadDigitsOrder(a.month, b.month, 2);
    PadDigitsOrder(a.day, b.day, 2);
    var ra, rb := ("-" + ma) + ("-" + da), ("-" + mb) + ("-" + db);
    assert FormatYmd(a) == ya + ra && FormatYmd(b) == yb + rb;
    LexLeConcat(ya, ra, yb, rb);
    LexLeConcat("-" + ma, "-" + da, "-" + mb, "-" + db);
    LexLeConcat("-", ma, "-", mb);
    LexLeConcat("-", da, "-", db);
  }
}

/**
 * `nextMonth` and `prevMonth` of `src/components/Calendar.tsx`: `new Date(year, month ± 1)` moves to
 * day 1 of the neighbouring month, carrying over the year. The `Date` constructor reads a year
 * argument from 0 to 99 as 1900 plus that year, and the model keeps that rule. The initial month is
 * a parameter.
 */
module CalendarNav {
  import opened Dates

  /** A JavaScript `Date` read as (full year, month 1-12, day of month). */
  datatype CalendarDate = CalendarDate(year: int, month: Month, day: Day)

  /** The months since year 0, the order the navigation steps through. */
  function MonthIndex(d: CalendarDate): int
  {
    d.year * 12 + d.month - 1
  }

  /** `new Date(getFullYear(), getMonth() + 1)`. */
  function NextMonth(d: CalendarDate): (r: CalendarDate)
    ensures r.day == 1
    ensures MonthIndex(r) == MonthIndex(d) + 1 + (if TwoDigitYear(d.year) then 1900 * 12 else 0)
    ensures d.month == 12 ==> r.year == FullYear(d.year) + 1 && r.month == 1
    ensures d.month < 12 ==> r.year == FullYear(d.year) && r.month == d.month + 1
  {
    var y := FullYear(d.year);
    if d.month == 12 then CalendarDate(y + 1, 1, 1) else CalendarDate(y, d.month + 1, 1)
  }

  /** `new Date(getFullYear(), getMonth() - 1)`. */
  function PrevMonth(d: CalendarDate): (r: CalendarDate)
    ensures r.day == 1
    ensures MonthIndex(r) == MonthIndex(d) - 1 + (if TwoDigitYear(d.year) then 1900 * 12 else 0)
    ensures d.month == 1 ==> r.year == FullYear(d.year) - 1 && r.month == 12
    ensures d.month > 1 ==> r.year == FullYear(d.year) && r.month == d.month - 1
  {
    var y := FullYear(d.year);
    if d.month == 1 then CalendarDate(y - 1, 12, 1) else CalendarDate(y, d.month - 1, 1)
  }

  /** A month is fixed by its index. */
  lemma MonthIndexDetermines(a: CalendarDate, b: CalendarDate)
    requires MonthIndex(a) == MonthIndex(b)
    ensures a.year == b.year && a.month == b.month
  {
  }

  /** Forward then back, or back then forward, returns to day 1 of the same month (of the full year),
    * except where the middle step lands on a two-digit year: December of year -1 goes forward to
    * January of year 0 and back to December 1899, and January of year 100 goes back to December of
    * year 99 and forward to January 2000. */
  lemma NavigationInverse(d: CalendarDate)
    ensures !(d.year == -1 && d.month == 12) ==> PrevMonth(NextMonth(d)) == CalendarDate(FullYear(d.year), d.month, 1)
    ensures d.year == -1 && d.month == 12 ==> PrevMonth(NextMonth(d)) == CalendarDate(1899, 12, 1)
    ensures !(d.year == 100 && d.month == 1) ==> NextMonth(PrevMonth(d)) == CalendarDate(FullYear(d.year), d.month, 1)
    ensures d.year == 100 && d.month == 1 ==> NextMonth(PrevMonth(d)) == CalendarDate(2000, 1, 1)
  {
    var f := CalendarDate(FullYear(d.year), d.month, 1);
    if !(d.year == -1 && d.month == 12) {
      MonthIndexDetermines(PrevMonth(NextMonth(d)), f);
    }
    if !(d.year == 100 && d.month == 1) {
      MonthIndexDetermines(NextMonth(PrevMonth(d)), f);
    }
  }

  datatype Move = Forward | Back

  function Navigate(d: CalendarDate, moves: seq<Move>): CalendarDate
  {
    if moves == [] then d
    else
      var prev := Navigate(d, moves[..|moves| - 1]);
      if moves[|moves| - 1] == Forward then NextMonth(prev) else PrevMonth(prev)
  }

  function Count(moves: seq<Move>, m: Move): int
  {
    if moves == [] then 0 else Count(moves[..|moves| - 1], m) + (if moves[|moves| - 1] == m then 1 else 0)
  }

  /** The number of clicks made while the shown month had a two-digit year. */
  function TwoDigitSteps(d: CalendarDate, moves: seq<Move>): int
  {
    if moves == [] then 0
    else
      TwoDigitSteps(d, moves[..|moves| - 1]) +
        (if TwoDigitYear(Navigate(d, moves[..|moves| - 1]).year) then 1 else 0)
  }

  /** After any navigation the day is 1, whatever the initial day, and the month has moved by the
    * forward steps minus the back steps, plus 1900 years for each click made from a two-digit year. */
  lemma {:induction false} NavigateMoves(d: CalendarDate, moves: seq<Move>)
    requires moves != []
    ensures Navigate(d, moves).day == 1
    ensures MonthIndex(Navigate(d, moves)) ==
      MonthIndex(d) + Count(moves, Forward) - Count(moves, Back) + 1900 * 12 * TwoDigitSteps(d, moves)
  {
    if |moves| > 1 {
      NavigateMoves(d, moves[..|moves| - 1]);
    }
  }

  /** Two concrete consequences of the two-digit-year rule. */
  lemma TwoDigitYearJumps()
    ensures NextMonth(CalendarDate(50, 6, 1)) == CalendarDate(1950, 7, 1)
    ensures Navigate(CalendarDate(100, 1, 1), [Back, Forward]) == CalendarDate(2000, 1, 1)
  {
    assert [Back, Forward][..1] == [Back];
    assert [Back][..0] == [];
  }

  /** The `currentMonth` state field. */
  class CalendarMonth {
    var currentMonth: CalendarDate

    constructor (today: CalendarDate)
      ensures currentMonth == today
    {
      currentMonth := today;
    }

    method MoveNext()
      modifies this
      ensures currentMonth == NextMonth(old(currentMonth))
    {
      currentMonth := NextMonth(currentMonth);
    }

    method MovePrev()
      modifies this
      ensures currentMonth == PrevMonth(old(currentMonth))
    {
      currentMonth := PrevMonth(currentMonth);
    }
  }
}

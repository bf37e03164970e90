/**
 * `src/components/household/HouseholdTab.tsx`: the month grid's per-day totals and the two state
 * transitions, opening the form on a day and appending the saved expense.
 */
module HouseholdTab {
  import opened Wrappers
  import opened Seqs
  import opened Dates

  /** The tab's own `Expense` record. */
  datatype HouseholdExpense = HouseholdExpense(
    id: string, date: Date, category: string, amount: int, paymentMethod: string, note: Option<string>)

  /** The tab's state fields `selectedDate`, `isModalOpen` and `expenses`. */
  datatype HouseholdState = HouseholdState(selectedDate: Option<Date>, isModalOpen: bool, expenses: seq<HouseholdExpense>)

  /** `handleDateClick`: select the day and open the form. */
  function DateClick(st: HouseholdState, day: Date): (st': HouseholdState)
    ensures st'.selectedDate == Some(day) && st'.isModalOpen
    ensures st'.expenses == st.expenses
  {
    HouseholdState(Some(day), true, st.expenses)
  }

  /** `handleAddExpense`: append the expense at the end and close the form. */
  function AddExpense(st: HouseholdState, e: HouseholdExpense): (st': HouseholdState)
    ensures st'.expenses == st.expenses + [e]
    ensures !st'.isModalOpen && st'.selectedDate == st.selectedDate
  {
    HouseholdState(st.selectedDate, false, st.expenses + [e])
  }

  /** `format(expense.date, 'yyyy-MM-dd') === format(day, 'yyyy-MM-dd')`. */
  function OnDay(day: Date): HouseholdExpense -> bool
  {
    (e: HouseholdExpense) => FormatYmd(e.date) == FormatYmd(day)
  }

  function Amount(e: HouseholdExpense): int { e.amount }

  /** The expenses listed under a day of the grid. */
  function DayExpenses(expenses: seq<HouseholdExpense>, day: Date): (r: seq<HouseholdExpense>)
    ensures forall e :: e in r <==> e in expenses && e.date == day
  {
    assert forall e: HouseholdExpense :: OnDay(day)(e) <==> e.date == day by {
      forall e: HouseholdExpense
        ensures OnDay(day)(e) <==> e.date == day
      {
        FormatYmdOrder(e.date, day);
      }
    }
    Filter(expenses, OnDay(day))
  }

  /** `totalAmount` of a day. */
  function DayTotal(expenses: seq<HouseholdExpense>, day: Date): int
  {
    SumBy(DayExpenses(expenses, day), Amount)
  }

  /** The total is printed under a day only when it is positive. */
  predicate ShowDayTotal(total: int)
  {
    total > 0
  }

  /** Appending an expense raises exactly the total of its own day, by its amount. */
  lemma DayTotalSnoc(expenses: seq<HouseholdExpense>, e: HouseholdExpense, day: Date)
    ensures DayTotal(expenses + [e], day) == DayTotal(expenses, day) + (if e.date == day then e.amount else 0)
  {
    FilterAppend(expenses, [e], OnDay(day));
    FormatYmdOrder(e.date, day);
    SumByAppend(DayExpenses(expenses, day), DayExpenses([e], day), Amount);
    assert DayExpenses([e], day) == if e.date == day then [e] else [];
    if e.date == day {
      assert SumBy([e], Amount) == SumBy([e][..0], Amount) + e.amount;
    }
  }

  /** Adding an expense through the form raises the total of its day and of no other day. */
  lemma AddExpenseDayTotals(st: HouseholdState, e: HouseholdExpense, day: Date)
    ensures DayTotal(AddExpense(st, e).expenses, day) ==
      DayTotal(st.expenses, day) + (if e.date == day then e.amount else 0)
  {
    DayTotalSnoc(st.expenses, e, day);
  }

  /** `eachDayOfInterval` over the month: its days in order. */
  function MonthDays(year: Year, month: Month): (r: seq<Date>)
    ensures |r| == DaysInMonth(year, month)
    ensures forall i :: 0 <= i < |r| ==> r[i] == Date(year, month, i + 1)
  {
    seq(DaysInMonth(year, month), (i: int) requires 0 <= i < DaysInMonth(year, month) => Date(year, month, i + 1))
  }

  /** The day totals of a list of days, added up. */
  function SumDayTotals(expenses: seq<HouseholdExpense>, days: seq<Date>): int
  {
    if days == [] then 0 else SumDayTotals(expenses, days[..|days| - 1]) + DayTotal(expenses, days[|days| - 1])
  }

  /** With no expenses every day total is 0. */
  lemma {:induction false} SumDayTotalsEmpty(days: seq<Date>)
    ensures SumDayTotals([], days) == 0
  {
    if days != [] {
      SumDayTotalsEmpty(days[..|days| - 1]);
    }
  }

  /** Over distinct days, one more expense adds its amount once if its date is among them. */
  lemma {:induction false} SumDayTotalsSnoc(expenses: seq<HouseholdExpense>, e: HouseholdExpense, days: seq<Date>)
    requires Distinct(days)
    ensures SumDayTotals(expenses + [e], days) == SumDayTotals(expenses, days) + (if e.date in days then e.amount else 0)
  {
    if days != [] {
      var init, d := days[..|days| - 1], days[|days| - 1];
      assert Distinct(init);
      SumDayTotalsSnoc(expenses, e, init);
      DayTotalSnoc(expenses, e, d);
      assert d !in init;
      assert e.date in days <==> e.date in init || e.date == d;
    }
  }

  /** A date of the selected month on one of its days. */
  function InMonth(year: Year, month: Month): HouseholdExpense -> bool
  {
    (e: HouseholdExpense) => e.date.year == year && e.date.month == month && e.date.day <= DaysInMonth(year, month)
  }

  /** The month's days are distinct, and a date is one of them exactly when it passes the month test. */
  lemma MonthDaysMembers(year: Year, month: Month, e: HouseholdExpense)
    ensures Distinct(MonthDays(year, month))
    ensures e.date in MonthDays(year, month) <==> InMonth(year, month)(e)
  {
    var days := MonthDays(year, month);
    if InMonth(year, month)(e) {
      assert days[e.date.day - 1] == e.date;
    }
  }

  /** The month's expense total after one more expense. */
  lemma MonthTotalSnoc(init: seq<HouseholdExpense>, e: HouseholdExpense, year: Year, month: Month)
    ensures SumBy(Filter(init + [e], InMonth(year, month)), Amount) ==
      SumBy(Filter(init, InMonth(year, month)), Amount) + (if InMonth(year, month)(e) then e.amount else 0)
  {
    var p := InMonth(year, month);
    FilterAppend(init, [e], p);
    SumByAppend(Filter(init, p), Filter([e], p), Amount);
    assert Filter([e], p) == if p(e) then [e] else [];
    if p(e) {
      assert SumBy([e], Amount) == SumBy([e][..0], Amount) + e.amount;
    }
  }

  /** The day totals of the month's days add up to the total of the month's expenses: each
    * expense is counted under exactly one day when it falls in the month, and under none otherwise. */
  lemma {:induction false} MonthOfDayTotals(expenses: seq<HouseholdExpense>, year: Year, month: Month)
    ensures SumDayTotals(expenses, MonthDays(year, month)) == SumBy(Filter(expenses, InMonth(year, month)), Amount)
  {
    var days := MonthDays(year, month);
    if expenses == [] {
      SumDayTotalsEmpty(days);
    } else {
      var init, e := expenses[..|expenses| - 1], expenses[|expenses| - 1];
      assert expenses == init + [e];
      MonthOfDayTotals(init, year, month);
      MonthDaysMembers(year, month, e);
      SumDayTotalsSnoc(init, e, days);
      MonthTotalSnoc(init, e, year, month);
    }
  }
}

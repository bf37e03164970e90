/**
 * `src/components/Statistics.tsx`: the month and year selections by 'yyyy-MM-dd' string range,
 * the income, expense and balance totals, and the per-category breakdown.
 */
module Statistics {
  import opened Wrappers
  import opened Seqs
  import opened Strings
  import opened Dates
  import opened Tally
  import opened ExpenseTypes

  /** `expense.date >= startStr && expense.date <= endStr`, on the row's 'yyyy-MM-dd' string. */
  function InRange(startStr: string, endStr: string): Expense -> bool
  {
    (e: Expense) => LexLe(startStr, FormatYmd(e.date)) && LexLe(FormatYmd(e.date), endStr)
  }

  /** The string range test between two formatted dates is the date range test. */
  lemma InRangeDates(lo: Date, hi: Date)
    ensures forall e: Expense :: InRange(FormatYmd(lo), FormatYmd(hi))(e) <==> DateLe(lo, e.date) && DateLe(e.date, hi)
  {
    forall e: Expense
      ensures InRange(FormatYmd(lo), FormatYmd(hi))(e) <==> DateLe(lo, e.date) && DateLe(e.date, hi)
    {
      FormatYmdOrder(lo, e.date);
      FormatYmdOrder(e.date, hi);
    }
  }

  /** The monthly range: the first and last day of the selected month, formatted. */
  function MonthRange(sel: Date): Expense -> bool
  {
    InRange(FormatYmd(StartOfMonth(sel.year, sel.month)), FormatYmd(EndOfMonth(sel.year, sel.month)))
  }

  /** The yearly range: `new Date(year, 0, 1)` and `new Date(year, 11, 31)`, formatted. The `Date`
    * constructor reads a selected year from 0 to 99 as 1900 plus it. */
  function YearRange(sel: Date): Expense -> bool
  {
    var y: Year := FullYear(sel.year);
    InRange(FormatYmd(Date(y, 1, 1)), FormatYmd(Date(y, 12, 31)))
  }

  /** A row is in the monthly range exactly when it is in the selected month on a day that month has. */
  lemma MonthRangeMeaning(sel: Date)
    ensures forall e: Expense :: MonthRange(sel)(e) <==>
      SameMonth(e.date, sel) && e.date.day <= DaysInMonth(sel.year, sel.month)
  {
    InRangeDates(StartOfMonth(sel.year, sel.month), EndOfMonth(sel.year, sel.month));
  }

  /** A row is in the yearly range exactly when it is in the full year of the selection. */
  lemma YearRangeMeaning(sel: Date)
    ensures forall e: Expense :: YearRange(sel)(e) <==> e.date.year == FullYear(sel.year)
  {
    var y: Year := FullYear(sel.year);
    InRangeDates(Date(y, 1, 1), Date(y, 12, 31));
  }

  /** `getMonthlyData`. */
  function MonthlyData(expenses: seq<Expense>, sel: Date): (r: seq<Expense>)
    ensures forall e :: e in r <==>
      e in expenses && SameMonth(e.date, sel) && e.date.day <= DaysInMonth(sel.year, sel.month)
  {
    MonthRangeMeaning(sel);
    Filter(expenses, MonthRange(sel))
  }

  /** `getYearlyData`: the rows of the selected year, or of 1900 plus it for a two-digit year. */
  function YearlyData(expenses: seq<Expense>, sel: Date): (r: seq<Expense>)
    ensures forall e :: e in r <==> e in expenses && e.date.year == FullYear(sel.year)
  {
    YearRangeMeaning(sel);
    Filter(expenses, YearRange(sel))
  }

  /** The month selection is the month filter applied to the year selection, hence a subset of it,
    * except for a selected year from 0 to 99: the year selection then holds the rows of 1900 plus
    * that year, none of which is in the month selection. */
  lemma MonthlyWithinYearly(expenses: seq<Expense>, sel: Date)
    ensures !TwoDigitYear(sel.year) ==>
      MonthlyData(expenses, sel) == Filter(YearlyData(expenses, sel), MonthRange(sel))
    ensures !TwoDigitYear(sel.year) ==>
      forall e :: e in MonthlyData(expenses, sel) ==> e in YearlyData(expenses, sel)
    ensures TwoDigitYear(sel.year) ==>
      forall e :: e in MonthlyData(expenses, sel) ==> e !in YearlyData(expenses, sel)
  {
    MonthRangeMeaning(sel);
    YearRangeMeaning(sel);
    if !TwoDigitYear(sel.year) {
      FilterOfFilter(expenses, MonthRange(sel), YearRange(sel));
    }
  }

  /** Selecting 15 July of year 50: a row of 1 July 0050 is in the month's rows but not in the
    * year's, whose range is 1950-01-01 to 1950-12-31. */
  lemma TwoDigitYearSelection()
    ensures var row := Expense("r", "u", "c", 100, ExpenseType, "", Date(50, 7, 1), None);
      row in MonthlyData([row], Date(50, 7, 15)) && row !in YearlyData([row], Date(50, 7, 15))
  {
  }

  datatype Period = MonthPeriod | YearPeriod

  /** `period === 'month' ? getMonthlyData() : getYearlyData()`. */
  function PeriodData(period: Period, expenses: seq<Expense>, sel: Date): (r: seq<Expense>)
    ensures period == MonthPeriod ==> r == MonthlyData(expenses, sel)
    ensures period == YearPeriod ==> r == YearlyData(expenses, sel)
  {
    if period == MonthPeriod then MonthlyData(expenses, sel) else YearlyData(expenses, sel)
  }

  predicate IsIncome(e: Expense) { e.kind == IncomeType }
  predicate IsExpense(e: Expense) { e.kind == ExpenseType }
  function Amount(e: Expense): int { e.amount }

  /** `income`: the 'income' rows filtered out and summed. */
  function IncomeOf(data: seq<Expense>): int
  {
    SumBy(Filter(data, IsIncome), Amount)
  }

  /** `expense`: the 'expense' rows filtered out and summed. */
  function ExpenseOf(data: seq<Expense>): int
  {
    SumBy(Filter(data, IsExpense), Amount)
  }

  /** One category's `{ income, expense }` pair. */
  datatype Split = Split(income: int, expense: int)

  /** `acc[id][expense.type] += expense.amount`. */
  function Bump(s: Split, e: Expense): Split
  {
    if e.kind == IncomeType then Split(s.income + e.amount, s.expense) else Split(s.income, s.expense + e.amount)
  }

  /** One step of the breakdown: a new category is created at `{ income: 0, expense: 0 }` and then bumped. */
  function AddSplit(d: seq<Entry<Split>>, e: Expense): seq<Entry<Split>>
  {
    if d == [] then [Entry(e.categoryId, Bump(Split(0, 0), e))]
    else if d[0].key == e.categoryId then [Entry(e.categoryId, Bump(d[0].value, e))] + d[1..]
    else [d[0]] + AddSplit(d[1..], e)
  }

  /** `categoryBreakdown` after visiting `data` left to right. */
  function Breakdown(data: seq<Expense>): seq<Entry<Split>>
  {
    if data == [] then [] else AddSplit(Breakdown(data[..|data| - 1]), data[|data| - 1])
  }

  /** What `calculateStatistics` returns. */
  datatype Stats = Stats(income: int, expense: int, balance: int, breakdown: seq<Entry<Split>>)

  /** `calculateStatistics`: the two filtered sums, their difference, and the breakdown loop. */
  method CalculateStatistics(data: seq<Expense>) returns (stats: Stats)
    ensures stats.income == IncomeOf(data) && stats.expense == ExpenseOf(data)
    ensures stats.balance == stats.income - stats.expense
    ensures stats.breakdown == Breakdown(data)
  {
    var income := IncomeOf(data);
    var expense := ExpenseOf(data);
    var acc := [];
    for i := 0 to |data|
      invariant acc == Breakdown(data[..i])
    {
      assert data[..i + 1][..i] == data[..i];
      acc := AddSplit(acc, data[i]);
    }
    assert data[..|data|] == data;
    stats := Stats(income, expense, income - expense, acc);
  }

  /** The income values of a breakdown, as a plain tally. */
  function IncomeColumn(d: seq<Entry<Split>>): (r: seq<Entry<int>>)
    ensures |r| == |d|
    ensures forall i :: 0 <= i < |d| ==> r[i] == Entry(d[i].key, d[i].value.income)
  {
    if d == [] then [] else [Entry(d[0].key, d[0].value.income)] + IncomeColumn(d[1..])
  }

  /** The expense values of a breakdown, as a plain tally. */
  function ExpenseColumn(d: seq<Entry<Split>>): (r: seq<Entry<int>>)
    ensures |r| == |d|
    ensures forall i :: 0 <= i < |d| ==> r[i] == Entry(d[i].key, d[i].value.expense)
  {
    if d == [] then [] else [Entry(d[0].key, d[0].value.expense)] + ExpenseColumn(d[1..])
  }

  function CategoryKey(e: Expense): Option<string> { Some(e.categoryId) }
  function IncomeAmountOf(e: Expense): int { if e.kind == IncomeType then e.amount else 0 }
  function ExpenseAmountOf(e: Expense): int { if e.kind == IncomeType then 0 else e.amount }

  /** One breakdown step adds the row's income and expense parts under its category in each column. */
  lemma {:induction false} AddSplitColumns(d: seq<Entry<Split>>, e: Expense)
    ensures IncomeColumn(AddSplit(d, e)) == Add(IncomeColumn(d), e.categoryId, IncomeAmountOf(e))
    ensures ExpenseColumn(AddSplit(d, e)) == Add(ExpenseColumn(d), e.categoryId, ExpenseAmountOf(e))
  {
    if d != [] && d[0].key != e.categoryId {
      AddSplitColumns(d[1..], e);
      assert IncomeColumn(d)[1..] == IncomeColumn(d[1..]);
      assert ExpenseColumn(d)[1..] == ExpenseColumn(d[1..]);
      assert IncomeColumn(AddSplit(d, e)) == [IncomeColumn(d)[0]] + IncomeColumn(AddSplit(d[1..], e));
      assert ExpenseColumn(AddSplit(d, e)) == [ExpenseColumn(d)[0]] + ExpenseColumn(AddSplit(d[1..], e));
    } else if d != [] {
      assert IncomeColumn(d)[1..] == IncomeColumn(d[1..]);
      assert ExpenseColumn(d)[1..] == ExpenseColumn(d[1..]);
    }
  }

  /** Each column of the breakdown is the tally of that part of the amounts, grouped by category. */
  lemma {:induction false} BreakdownColumns(data: seq<Expense>)
    ensures IncomeColumn(Breakdown(data)) == GroupSum(data, CategoryKey, IncomeAmountOf)
    ensures ExpenseColumn(Breakdown(data)) == GroupSum(data, CategoryKey, ExpenseAmountOf)
  {
    if data != [] {
      BreakdownColumns(data[..|data| - 1]);
      AddSplitColumns(Breakdown(data[..|data| - 1]), data[|data| - 1]);
    }
  }

  /** One entry per distinct category id: exactly the categories of the rows, each once. */
  lemma BreakdownKeys(data: seq<Expense>)
    ensures Distinct(Keys(Breakdown(data)))
    ensures forall c :: c in Keys(Breakdown(data)) <==> exists e :: e in data && e.categoryId == c
  {
    var d := Breakdown(data);
    BreakdownColumns(data);
    GroupSumKeys(data, CategoryKey, IncomeAmountOf);
    assert Keys(IncomeColumn(d)) == Keys(d);
  }

  /** The value under a category holds the income and the expense of that category's rows. */
  lemma BreakdownGet(data: seq<Expense>, c: string)
    ensures Get(IncomeColumn(Breakdown(data)), c) == SumUnder(data, CategoryKey, IncomeAmountOf, c)
    ensures Get(ExpenseColumn(Breakdown(data)), c) == SumUnder(data, CategoryKey, ExpenseAmountOf, c)
  {
    BreakdownColumns(data);
    GroupSumGet(data, CategoryKey, IncomeAmountOf, c);
    GroupSumGet(data, CategoryKey, ExpenseAmountOf, c);
  }

  /** Summing the breakdown's income over all categories gives `income`; the same holds for `expense`. */
  lemma BreakdownTotals(data: seq<Expense>)
    ensures Total(IncomeColumn(Breakdown(data))) == IncomeOf(data)
    ensures Total(ExpenseColumn(Breakdown(data))) == ExpenseOf(data)
  {
    BreakdownColumns(data);
    GroupSumTotal(data, CategoryKey, IncomeAmountOf);
    GroupSumTotal(data, CategoryKey, ExpenseAmountOf);
    SumKeyedAll(data, CategoryKey, IncomeAmountOf);
    SumKeyedAll(data, CategoryKey, ExpenseAmountOf);
    SumByFilter(data, IsIncome, Amount, IncomeAmountOf);
    SumByFilter(data, IsExpense, Amount, ExpenseAmountOf);
  }
}

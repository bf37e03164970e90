/**
 * `src/components/ExpenseChart.tsx`: the month's 'expense' rows, their per-category sums that feed the
 * pie, and the month's total expense. The rows are the formatted rows the calendar tab passes in.
 */
module ExpenseChart {
  import opened Wrappers
  import opened Seqs
  import opened Tally
  import opened Dates
  import opened CalendarTab

  /** Same year, same month and type 'expense'. */
  function ChartRow(sel: Date): ViewExpense -> bool
  {
    (e: ViewExpense) => e.date.year == sel.year && e.date.month == sel.month && e.kind == "expense"
  }

  /** `monthlyExpenses`. */
  function MonthlyExpenses(expenses: seq<ViewExpense>, sel: Date): (r: seq<ViewExpense>)
    ensures |r| <= |expenses|
    ensures forall e :: e in r <==>
      e in expenses && e.date.year == sel.year && e.date.month == sel.month && e.kind == "expense"
  {
    Filter(expenses, ChartRow(sel))
  }

  /** A row is tallied under its category name, and skipped when the name is empty. */
  function SliceKey(e: ViewExpense): (r: Option<string>)
    ensures r.Some? <==> e.category != ""
    ensures r.Some? ==> r.value == e.category
  {
    if e.category != "" then Some(e.category) else None
  }

  /** `categoryData`: the `reduce` that adds each amount under its category. */
  method CategoryData(monthly: seq<ViewExpense>) returns (d: seq<Entry<int>>)
    ensures d == GroupSum(monthly, SliceKey, Amount)
  {
    d := [];
    for i := 0 to |monthly|
      invariant d == GroupSum(monthly[..i], SliceKey, Amount)
    {
      assert monthly[..i + 1][..i] == monthly[..i];
      if monthly[i].category != "" {
        d := Add(d, monthly[i].category, monthly[i].amount);
      }
    }
    assert monthly[..|monthly|] == monthly;
  }

  /** The slices: one per non-empty category of the month's expense rows, holding the sum of their amounts. */
  lemma CategoryDataSlices(expenses: seq<ViewExpense>, sel: Date, c: string)
    ensures var d := GroupSum(MonthlyExpenses(expenses, sel), SliceKey, Amount);
      Distinct(Keys(d)) &&
      (c in Keys(d) <==> c != "" && exists e :: e in MonthlyExpenses(expenses, sel) && e.category == c) &&
      Get(d, c) == SumUnder(MonthlyExpenses(expenses, sel), SliceKey, Amount, c)
  {
    var monthly := MonthlyExpenses(expenses, sel);
    GroupSumKeys(monthly, SliceKey, Amount);
    GroupSumGet(monthly, SliceKey, Amount, c);
  }

  /** `totalExpense`: the slice values added up. */
  function TotalExpense(d: seq<Entry<int>>): int
  {
    Total(d)
  }

  /** What a row adds to the total: its amount when it is a month's 'expense' row with a category. */
  function ChartAmount(sel: Date): ViewExpense -> int
  {
    (e: ViewExpense) => if ChartRow(sel)(e) && e.category != "" then e.amount else 0
  }

  /** The total is the sum over all the given rows of what each contributes: income rows, rows of other
    * months and rows without a category contribute nothing. */
  lemma TotalExpenseOfRows(expenses: seq<ViewExpense>, sel: Date)
    ensures TotalExpense(GroupSum(MonthlyExpenses(expenses, sel), SliceKey, Amount)) == SumBy(expenses, ChartAmount(sel))
  {
    var monthly := MonthlyExpenses(expenses, sel);
    var keyed := (e: ViewExpense) => if SliceKey(e).Some? then Amount(e) else 0;
    GroupSumTotal(monthly, SliceKey, Amount);
    SumKeyedAsSumBy(monthly, SliceKey, Amount, keyed);
    SumByFilter(expenses, ChartRow(sel), keyed, ChartAmount(sel));
  }

  /** An 'income' row never changes the slices or the total. */
  lemma IncomeRowIgnored(expenses: seq<ViewExpense>, e: ViewExpense, sel: Date)
    requires e.kind != "expense"
    ensures MonthlyExpenses(expenses + [e], sel) == MonthlyExpenses(expenses, sel)
  {
    FilterAppend(expenses, [e], ChartRow(sel));
    assert Filter([e], ChartRow(sel)) == [];
  }

  /** The "no data" message is shown instead of the pie. */
  predicate NoData(monthly: seq<ViewExpense>)
  {
    |monthly| == 0
  }

  /** "No data" appears exactly when no given row is an 'expense' row of the selected month. */
  lemma NoDataIff(expenses: seq<ViewExpense>, sel: Date)
    ensures NoData(MonthlyExpenses(expenses, sel)) <==>
      forall e :: e in expenses ==> !(e.date.year == sel.year && e.date.month == sel.month && e.kind == "expense")
  {
    var monthly := MonthlyExpenses(expenses, sel);
    if !NoData(monthly) {
      assert monthly[0] in monthly;
    }
  }
}

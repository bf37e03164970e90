/**
 * `src/components/calendar/CalendarTab.tsx`: the day and month selections, the month's income and
 * expense, and the client-side half of `fetchExpenses` (the category ids requested, the id-to-category
 * map and the formatted rows).
 */
module CalendarTab {
  import opened Wrappers
  import opened Seqs
  import opened Dates
  import opened Tally
  import opened ExpenseTypes

  /** A formatted row: the category is a display name, `type` is the row's type string as fetched. */
  datatype ViewExpense = ViewExpense(id: string, date: Date, amount: int, category: string, kind: string, memo: Option<string>)

  /** `isSameDay`: both dates taken to midnight and compared. */
  predicate IsSameDay(a: Date, b: Date)
  {
    SameDay(a, b)
  }

  /** `isSameMonth`. */
  predicate IsSameMonth(a: Date, b: Date)
  {
    SameMonth(a, b)
  }

  function OnDay(sel: Date): ViewExpense -> bool
  {
    (e: ViewExpense) => IsSameDay(e.date, sel)
  }

  function InMonth(sel: Date): ViewExpense -> bool
  {
    (e: ViewExpense) => IsSameMonth(e.date, sel)
  }

  /** `daily`: the rows on the selected day, in order. */
  function Daily(expenses: seq<ViewExpense>, sel: Date): (r: seq<ViewExpense>)
    ensures forall e :: e in r <==> e in expenses && e.date == sel
  {
    Filter(expenses, OnDay(sel))
  }

  /** `monthly`: the rows in the selected year and month, in order. */
  function Monthly(expenses: seq<ViewExpense>, sel: Date): (r: seq<ViewExpense>)
    ensures forall e :: e in r <==> e in expenses && e.date.year == sel.year && e.date.month == sel.month
  {
    Filter(expenses, InMonth(sel))
  }

  /** Every daily row is a monthly row: the day selection is the day filter applied to the month selection. */
  lemma DailyWithinMonthly(expenses: seq<ViewExpense>, sel: Date)
    ensures Daily(expenses, sel) == Filter(Monthly(expenses, sel), OnDay(sel))
    ensures forall e :: e in Daily(expenses, sel) ==> e in Monthly(expenses, sel)
  {
    FilterOfFilter(expenses, OnDay(sel), InMonth(sel));
  }

  /** Both selections keep the relative order of the rows. */
  lemma SelectionsPreserveOrder(a: seq<ViewExpense>, b: seq<ViewExpense>, sel: Date)
    ensures Daily(a + b, sel) == Daily(a, sel) + Daily(b, sel)
    ensures Monthly(a + b, sel) == Monthly(a, sel) + Monthly(b, sel)
  {
    FilterAppend(a, b, OnDay(sel));
    FilterAppend(a, b, InMonth(sel));
  }

  /** `monthlyTotal`. */
  datatype MonthTotals = MonthTotals(income: int, expense: int)

  /** What a row adds to `income`: every row whose type is not 'expense'. */
  function IncomeSide(e: ViewExpense): int { if e.kind == "expense" then 0 else e.amount }

  /** What a row adds to `expense`: the 'expense' rows. */
  function ExpenseSide(e: ViewExpense): int { if e.kind == "expense" then e.amount else 0 }

  function Amount(e: ViewExpense): int { e.amount }

  /** The totals after folding `monthly`. */
  function MonthTotalsOf(monthly: seq<ViewExpense>): MonthTotals
  {
    MonthTotals(SumBy(monthly, IncomeSide), SumBy(monthly, ExpenseSide))
  }

  /** The `monthlyTotal` `reduce`, updating the accumulator row by row. */
  method MonthlyTotal(monthly: seq<ViewExpense>) returns (totals: MonthTotals)
    ensures totals == MonthTotalsOf(monthly)
  {
    var income, expense := 0, 0;
    for i := 0 to |monthly|
      invariant income == SumBy(monthly[..i], IncomeSide)
      invariant expense == SumBy(monthly[..i], ExpenseSide)
    {
      var e := monthly[i];
      assert monthly[..i + 1] == monthly[..i] + [e];
      SumBySnoc(monthly[..i], e, IncomeSide);
      SumBySnoc(monthly[..i], e, ExpenseSide);
      if e.kind == "expense" {
        expense := expense + e.amount;
      } else {
        income := income + e.amount;
      }
    }
    assert monthly[..|monthly|] == monthly;
    totals := MonthTotals(income, expense);
  }

  /** Every row lands on exactly one side: the two totals add up to the sum of all the month's amounts. */
  lemma MonthTotalsPartition(monthly: seq<ViewExpense>)
    ensures MonthTotalsOf(monthly).income + MonthTotalsOf(monthly).expense == SumBy(monthly, Amount)
  {
    SumByPlus(monthly, IncomeSide, ExpenseSide, Amount);
  }

  /** The displayed monthly net 月間収支. */
  function Net(totals: MonthTotals): int
  {
    totals.income - totals.expense
  }

  /** A row's signed contribution to the net: minus for 'expense', plus for any other type. */
  function SignedAmount(e: ViewExpense): int { if e.kind == "expense" then -e.amount else e.amount }

  function NegatedExpenseSide(e: ViewExpense): int { -ExpenseSide(e) }

  /** The net is the sum of the signed amounts. */
  lemma NetIsSignedSum(monthly: seq<ViewExpense>)
    ensures Net(MonthTotalsOf(monthly)) == SumBy(monthly, SignedAmount)
  {
    SumByPlus(monthly, IncomeSide, NegatedExpenseSide, SignedAmount);
    SumByNegate(monthly, ExpenseSide, NegatedExpenseSide);
  }

  predicate IsIncomeKind(e: ViewExpense) { e.kind == "income" }
  predicate IsExpenseKind(e: ViewExpense) { e.kind == "expense" }
  function IncomeKindAmount(e: ViewExpense): int { if e.kind == "income" then e.amount else 0 }

  /** What a row of neither type contributes: the month's income counts it, the day panel does not. */
  function OtherKindAmount(e: ViewExpense): int
  {
    if e.kind == "income" || e.kind == "expense" then 0 else e.amount
  }

  /** 収入合計 of the 本日の収支 panel: the month's 'income' rows filtered out and summed. */
  function PanelIncome(monthly: seq<ViewExpense>): int
  {
    SumBy(Filter(monthly, IsIncomeKind), Amount)
  }

  /** 支出合計 of that panel: the month's 'expense' rows filtered out and summed. */
  function PanelExpense(monthly: seq<ViewExpense>): int
  {
    SumBy(Filter(monthly, IsExpenseKind), Amount)
  }

  /** The panel's expense is the month's expense; its income misses exactly the rows of any other
    * type, which `monthlyTotal` counts as income. So its 差引 equals 月間収支 less those rows. */
  lemma PanelAgreesWithMonthTotals(monthly: seq<ViewExpense>)
    ensures PanelExpense(monthly) == MonthTotalsOf(monthly).expense
    ensures PanelIncome(monthly) + SumBy(monthly, OtherKindAmount) == MonthTotalsOf(monthly).income
    ensures PanelIncome(monthly) - PanelExpense(monthly) + SumBy(monthly, OtherKindAmount) ==
      Net(MonthTotalsOf(monthly))
  {
    SumByFilter(monthly, IsIncomeKind, Amount, IncomeKindAmount);
    SumByFilter(monthly, IsExpenseKind, Amount, ExpenseSide);
    SumByPlus(monthly, IncomeKindAmount, OtherKindAmount, IncomeSide);
  }

  /** The `category_id` of every fetched row, in order. */
  function CategoryIdsOf(rows: seq<Expense>): (r: seq<string>)
    ensures |r| == |rows|
    ensures forall i :: 0 <= i < |rows| ==> r[i] == rows[i].categoryId
  {
    seq(|rows|, (i: int) requires 0 <= i < |rows| => rows[i].categoryId)
  }

  /** `Array.from(new Set(expensesData.map(e => e.category_id)))`. */
  function CategoryIds(rows: seq<Expense>): (r: seq<string>)
    ensures Distinct(r)
    ensures |r| <= |rows|
    ensures forall c :: c in r <==> exists e :: e in rows && e.categoryId == c
  {
    var ids := CategoryIdsOf(rows);
    assert forall c :: c in ids <==> exists e :: e in rows && e.categoryId == c by {
      forall c
        ensures c in ids <==> exists e :: e in rows && e.categoryId == c
      {
        if c in ids {
          var i :| 0 <= i < |ids| && ids[i] == c;
          assert rows[i] in rows;
        }
        if exists e :: e in rows && e.categoryId == c {
          var e :| e in rows && e.categoryId == c;
          var i :| 0 <= i < |rows| && rows[i] == e;
          assert ids[i] == c;
        }
      }
    }
    Dedup(ids)
  }

  /** The id-to-category map after visiting `cats` left to right. */
  function CategoryMapOf(cats: seq<Category>): seq<Entry<Category>>
  {
    if cats == [] then [] else Put(CategoryMapOf(cats[..|cats| - 1]), cats[|cats| - 1].id, cats[|cats| - 1])
  }

  /** `categoryMap`: the `reduce` that stores each category under its id. */
  method CategoryMap(cats: seq<Category>) returns (m: seq<Entry<Category>>)
    ensures m == CategoryMapOf(cats)
  {
    m := [];
    for i := 0 to |cats|
      invariant m == CategoryMapOf(cats[..i])
    {
      assert cats[..i + 1][..i] == cats[..i];
      m := Put(m, cats[i].id, cats[i]);
    }
    assert cats[..|cats|] == cats;
  }

  /** Looking an id up finds the last category with that id, and nothing when no category has it. */
  lemma {:induction false} CategoryMapLookup(cats: seq<Category>, id: string)
    ensures Lookup(CategoryMapOf(cats), id).None? <==> forall i :: 0 <= i < |cats| ==> cats[i].id != id
    ensures Lookup(CategoryMapOf(cats), id).Some? ==>
      exists i :: 0 <= i < |cats| && cats[i] == Lookup(CategoryMapOf(cats), id).value && cats[i].id == id &&
        forall j :: i < j < |cats| ==> cats[j].id != id
  {
    if cats != [] {
      var init, c := cats[..|cats| - 1], cats[|cats| - 1];
      CategoryMapLookup(init, id);
      PutLookup(CategoryMapOf(init), c.id, c, id);
      if c.id != id && Lookup(CategoryMapOf(init), id).Some? {
        var i :| 0 <= i < |init| && init[i] == Lookup(CategoryMapOf(init), id).value && init[i].id == id &&
          forall j :: i < j < |init| ==> init[j].id != id;
        assert cats[i] == init[i];
      }
    }
  }

  /** One formatted row: the mapped category name or 'Unknown', and an empty memo dropped. */
  function FormatExpense(e: Expense, categoryMap: seq<Entry<Category>>): (v: ViewExpense)
    ensures v.id == e.id && v.date == e.date && v.amount == e.amount
    ensures v.kind == (if e.kind == IncomeType then "income" else "expense")
    ensures Lookup(categoryMap, e.categoryId).Some? && Lookup(categoryMap, e.categoryId).value.name != "" ==>
      v.category == Lookup(categoryMap, e.categoryId).value.name
    ensures Lookup(categoryMap, e.categoryId).None? || Lookup(categoryMap, e.categoryId).value.name == "" ==>
      v.category == "Unknown"
    ensures v.memo.None? <==> e.memo == ""
    ensures v.memo.Some? ==> v.memo.value == e.memo
  {
    var name := match Lookup(categoryMap, e.categoryId)
      case Some(c) => if c.name != "" then c.name else "Unknown"
      case None => "Unknown";
    ViewExpense(e.id, e.date, e.amount, name, if e.kind == IncomeType then "income" else "expense",
                if e.memo == "" then None else Some(e.memo))
  }

  /** `formattedExpenses`. */
  function FormattedExpenses(rows: seq<Expense>, categoryMap: seq<Entry<Category>>): (r: seq<ViewExpense>)
    ensures |r| == |rows|
    ensures forall i :: 0 <= i < |rows| ==> r[i] == FormatExpense(rows[i], categoryMap)
  {
    seq(|rows|, (i: int) requires 0 <= i < |rows| => FormatExpense(rows[i], categoryMap))
  }

  /** Formatted rows are all 'income' or 'expense', so on them the panel's 差引 is 月間収支. */
  lemma PanelNetOfFormatted(rows: seq<Expense>, categoryMap: seq<Entry<Category>>, sel: Date)
    ensures var monthly := Monthly(FormattedExpenses(rows, categoryMap), sel);
      PanelIncome(monthly) - PanelExpense(monthly) == Net(MonthTotalsOf(monthly))
  {
    var monthly := Monthly(FormattedExpenses(rows, categoryMap), sel);
    PanelAgreesWithMonthTotals(monthly);
    SumByZero(monthly, OtherKindAmount);
  }

  /** A formatted row falls back to 'Unknown' exactly when no fetched category has its id, or the last
    * category with that id has an empty name or is itself named 'Unknown'. */
  lemma FormattedCategoryKnown(e: Expense, cats: seq<Category>)
    ensures var found := Lookup(CategoryMapOf(cats), e.categoryId);
      FormatExpense(e, CategoryMapOf(cats)).category == "Unknown" <==>
        (forall i :: 0 <= i < |cats| ==> cats[i].id != e.categoryId) ||
        (found.Some? && (found.value.name == "" || found.value.name == "Unknown"))
  {
    CategoryMapLookup(cats, e.categoryId);
  }
}

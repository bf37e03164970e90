/**
 * `src/components/statistics/StatisticsTab.tsx`: the month selection, the per-category and per-month
 * tallies, the total, the rounded average and the top category. The tab's own list is never filled,
 * so every computation here takes the list as an input.
 */
module StatisticsTab {
  import opened Wrappers
  import opened Seqs
  import opened Dates
  import opened Tally
  import opened Sorting
  import opened HouseholdTab

  /** `getYear(date) === selectedYear && date.getMonth() === selectedMonth`; months count from 0. */
  function Selected(selectedYear: int, selectedMonth: int): HouseholdExpense -> bool
  {
    (e: HouseholdExpense) => e.date.year == selectedYear && e.date.month - 1 == selectedMonth
  }

  /** `filteredExpenses`: the rows of the selected year and month, in order. */
  function FilteredExpenses(expenses: seq<HouseholdExpense>, selectedYear: int, selectedMonth: int): (r: seq<HouseholdExpense>)
    ensures |r| <= |expenses|
    ensures forall e :: e in r <==> e in expenses && e.date.year == selectedYear && e.date.month == selectedMonth + 1
  {
    Filter(expenses, Selected(selectedYear, selectedMonth))
  }

  /** The selection keeps the relative order: selecting from a concatenation concatenates the selections. */
  lemma FilteredAppend(a: seq<HouseholdExpense>, b: seq<HouseholdExpense>, selectedYear: int, selectedMonth: int)
    ensures FilteredExpenses(a + b, selectedYear, selectedMonth) ==
      FilteredExpenses(a, selectedYear, selectedMonth) + FilteredExpenses(b, selectedYear, selectedMonth)
  {
    FilterAppend(a, b, Selected(selectedYear, selectedMonth));
  }

  function CategoryKey(e: HouseholdExpense): Option<string> { Some(e.category) }
  function MonthKey(e: HouseholdExpense): Option<string> { Some(FormatYm(e.date)) }

  /** `categoryData`: the `reduce` that adds each amount under its category. */
  method CategoryData(filtered: seq<HouseholdExpense>) returns (d: seq<Entry<int>>)
    ensures d == GroupSum(filtered, CategoryKey, Amount)
  {
    d := [];
    for i := 0 to |filtered|
      invariant d == GroupSum(filtered[..i], CategoryKey, Amount)
    {
      assert filtered[..i + 1][..i] == filtered[..i];
      d := Add(d, filtered[i].category, filtered[i].amount);
    }
    assert filtered[..|filtered|] == filtered;
  }

  /** `monthlyData`: the `reduce` that adds each amount under its 'yyyy-MM' month. */
  method MonthlyData(filtered: seq<HouseholdExpense>) returns (d: seq<Entry<int>>)
    ensures d == GroupSum(filtered, MonthKey, Amount)
  {
    d := [];
    for i := 0 to |filtered|
      invariant d == GroupSum(filtered[..i], MonthKey, Amount)
    {
      assert filtered[..i + 1][..i] == filtered[..i];
      d := Add(d, FormatYm(filtered[i].date), filtered[i].amount);
    }
    assert filtered[..|filtered|] == filtered;
  }

  /** The total shown under 総支出. */
  function TotalOf(filtered: seq<HouseholdExpense>): int
  {
    SumBy(filtered, Amount)
  }

  /** The value under a category is its rows' sum, and the values add up to the total. */
  lemma CategoryDataSums(filtered: seq<HouseholdExpense>, c: string)
    ensures Get(GroupSum(filtered, CategoryKey, Amount), c) == SumUnder(filtered, CategoryKey, Amount, c)
    ensures Total(GroupSum(filtered, CategoryKey, Amount)) == TotalOf(filtered)
  {
    GroupSumGet(filtered, CategoryKey, Amount, c);
    GroupSumTotal(filtered, CategoryKey, Amount);
    SumKeyedAll(filtered, CategoryKey, Amount);
  }

  /** All selected rows share one year and month, so `monthlyData` has at most one key, and its value is the total. */
  lemma MonthlyDataSingleKey(expenses: seq<HouseholdExpense>, selectedYear: Year, selectedMonth: int)
    requires 0 <= selectedMonth < 12
    ensures var filtered := FilteredExpenses(expenses, selectedYear, selectedMonth);
      GroupSum(filtered, MonthKey, Amount) ==
        if filtered == [] then [] else [Entry(FormatYm(Date(selectedYear, selectedMonth + 1, 1)), TotalOf(filtered))]
  {
    var filtered := FilteredExpenses(expenses, selectedYear, selectedMonth);
    var key := FormatYm(Date(selectedYear, selectedMonth + 1, 1));
    forall i | 0 <= i < |filtered|
      ensures MonthKey(filtered[i]) == Some(key)
    {
      assert filtered[i] in filtered;
    }
    GroupSumSingleKey(filtered, MonthKey, Amount, key);
  }

  /** `Math.round(total / (count || 1))`, rounding halves up as `Math.round` does. */
  function Average(total: int, count: nat): (r: int)
    ensures var d := if count == 0 then 1 else count;
      2 * d * r - d <= 2 * total < 2 * d * r + d
  {
    var d := if count == 0 then 1 else count;
    (2 * total + d) / (2 * d)
  }

  /** An empty month shows an average of 0. */
  lemma AverageOfEmpty(expenses: seq<HouseholdExpense>, selectedYear: int, selectedMonth: int)
    requires FilteredExpenses(expenses, selectedYear, selectedMonth) == []
    ensures Average(TotalOf(FilteredExpenses(expenses, selectedYear, selectedMonth)), 0) == 0
  {
  }

  function EntryValue(e: Entry<int>): int { e.value }

  /** The top category: the entries sorted by value, largest first (stably), then the first key, or
    * '-'. So it is the key of the first entry with the largest value. */
  method TopCategory(d: seq<Entry<int>>) returns (name: string)
    ensures |d| == 0 ==> name == "-"
    ensures |d| > 0 ==>
      exists i :: 0 <= i < |d| && (forall j :: 0 <= j < |d| ==> d[j].value <= d[i].value) &&
        (forall j :: 0 <= j < i ==> d[j].value < d[i].value) &&
        name == (if d[i].key == "" then "-" else d[i].key)
  {
    if |d| == 0 {
      return "-";
    }
    var a := new Entry<int>[|d|](i requires 0 <= i < |d| => d[i]);
    assert a[..] == d;
    SortDescending(a, EntryValue);
    FirstOfStableSort(d, a[..]);
    name := if a[0].key == "" then "-" else a[0].key;
  }

  /** The head of a stable descending sort of `d` is the first entry of `d` with the largest value. */
  lemma FirstOfStableSort(d: seq<Entry<int>>, s: seq<Entry<int>>)
    requires |s| > 0 && multiset(s) == multiset(d)
    requires SortedDescending(s, EntryValue) && SameTies(s, d, EntryValue)
    ensures exists i :: (0 <= i < |d| && d[i] == s[0] &&
      (forall j :: 0 <= j < |d| ==> d[j].value <= d[i].value) &&
      (forall j :: 0 <= j < i ==> d[j].value < d[i].value))
  {
    assert s[0] in multiset(s);
    forall j | 0 <= j < |d|
      ensures d[j].value <= s[0].value
    {
      assert d[j] in multiset(s);
      var k :| 0 <= k < |s| && s[k] == d[j];
      if k > 0 {
        assert EntryValue(s[k]) <= EntryValue(s[0]);
      }
    }
    StableHead(s, d, EntryValue);
  }

  /** The year choices: five consecutive years centred on the current one. */
  function YearChoices(currentYear: int): (r: seq<int>)
    ensures |r| == 5
    ensures r[2] == currentYear
    ensures forall i :: 0 <= i < 4 ==> r[i + 1] == r[i] + 1
  {
    seq(5, (i: int) => currentYear - 2 + i)
  }
}

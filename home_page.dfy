/**
 * `src/app/page.tsx`: the expense list edits (append on submit, delete by id), the selected day's
 * rows and totals, and the empty-credential guard in front of login and sign-up.
 */
module HomePage {
  import opened Seqs
  import opened Dates
  import opened Wrappers
  import opened ExpenseTypes

  /** `Omit<Expense, 'id' | 'date'>`: what the form submits. */
  datatype ExpenseInput = ExpenseInput(
    userId: string, categoryId: string, amount: int, kind: CategoryType, memo: string, paymentMethod: Option<string>)

  /** `handleExpenseSubmit`: the new expense gets the given id and the selected date and goes at the end. */
  function Submit(expenses: seq<Expense>, id: string, selectedDate: Date, data: ExpenseInput): (r: seq<Expense>)
    ensures |r| == |expenses| + 1
    ensures r[..|expenses|] == expenses
    ensures r[|expenses|].id == id && r[|expenses|].date == selectedDate
    ensures r[|expenses|] == Expense(id, data.userId, data.categoryId, data.amount, data.kind, data.memo, selectedDate, data.paymentMethod)
  {
    expenses + [Expense(id, data.userId, data.categoryId, data.amount, data.kind, data.memo, selectedDate, data.paymentMethod)]
  }

  function HasOtherId(id: string): Expense -> bool
  {
    (e: Expense) => e.id != id
  }

  /** `handleExpenseDelete`: keep, in order, the entries with a different id. */
  function Delete(expenses: seq<Expense>, id: string): (r: seq<Expense>)
    ensures |r| <= |expenses|
    ensures forall e :: e in r <==> e in expenses && e.id != id
  {
    Filter(expenses, HasOtherId(id))
  }

  /** Deleting an id no entry has leaves the list as it was. */
  lemma DeleteAbsent(expenses: seq<Expense>, id: string)
    requires forall i :: 0 <= i < |expenses| ==> expenses[i].id != id
    ensures Delete(expenses, id) == expenses
  {
    FilterAll(expenses, HasOtherId(id));
  }

  /** Deleting twice is deleting once. */
  lemma DeleteIdempotent(expenses: seq<Expense>, id: string)
    ensures Delete(Delete(expenses, id), id) == Delete(expenses, id)
  {
    var once := Delete(expenses, id);
    forall i | 0 <= i < |once|
      ensures once[i].id != id
    {
      assert once[i] in once;
    }
    DeleteAbsent(once, id);
  }

  /** Deleting the id just submitted gives back the list before the submission, when that id was new. */
  lemma DeleteUndoesSubmit(expenses: seq<Expense>, id: string, selectedDate: Date, data: ExpenseInput)
    requires forall i :: 0 <= i < |expenses| ==> expenses[i].id != id
    ensures Delete(Submit(expenses, id, selectedDate, data), id) == expenses
  {
    var e := Submit(expenses, id, selectedDate, data)[|expenses|];
    assert Submit(expenses, id, selectedDate, data) == expenses + [e];
    FilterAppend(expenses, [e], HasOtherId(id));
    DeleteAbsent(expenses, id);
    assert Filter([e], HasOtherId(id)) == [];
  }

  /** Same full year, month and date. */
  function OnDate(date: Date): Expense -> bool
  {
    (e: Expense) => e.date.year == date.year && e.date.month == date.month && e.date.day == date.day
  }

  /** `getDailyExpenses`. */
  function DailyExpenses(expenses: seq<Expense>, date: Date): (r: seq<Expense>)
    ensures forall e :: e in r <==> e in expenses && e.date == date
  {
    Filter(expenses, OnDate(date))
  }

  predicate IsIncome(e: Expense) { e.kind == IncomeType }
  predicate IsExpense(e: Expense) { e.kind == ExpenseType }
  function Amount(e: Expense): int { e.amount }

  /** `totalIncome`. */
  function TotalIncome(daily: seq<Expense>): int
  {
    SumBy(Filter(daily, IsIncome), Amount)
  }

  /** `totalExpense`. */
  function TotalExpense(daily: seq<Expense>): int
  {
    SumBy(Filter(daily, IsExpense), Amount)
  }

  function IncomePart(e: Expense): int { if e.kind == IncomeType then e.amount else 0 }
  function ExpensePart(e: Expense): int { if e.kind == ExpenseType then e.amount else 0 }

  /** Every row is income or expense, so the day's two totals add up to the sum of its amounts. */
  lemma DailyTotalsPartition(daily: seq<Expense>)
    ensures TotalIncome(daily) + TotalExpense(daily) == SumBy(daily, Amount)
  {
    SumByFilter(daily, IsIncome, Amount, IncomePart);
    SumByFilter(daily, IsExpense, Amount, ExpensePart);
    SumByPlus(daily, IncomePart, ExpensePart, Amount);
  }

  /** A submitted expense raises the selected day's matching total by its amount and leaves the other one. */
  lemma SubmitDailyTotals(expenses: seq<Expense>, id: string, selectedDate: Date, data: ExpenseInput)
    ensures var after := DailyExpenses(Submit(expenses, id, selectedDate, data), selectedDate);
      var before := DailyExpenses(expenses, selectedDate);
      TotalIncome(after) == TotalIncome(before) + (if data.kind == IncomeType then data.amount else 0) &&
      TotalExpense(after) == TotalExpense(before) + (if data.kind == ExpenseType then data.amount else 0)
  {
    var e := Submit(expenses, id, selectedDate, data)[|expenses|];
    assert Submit(expenses, id, selectedDate, data) == expenses + [e];
    FilterAppend(expenses, [e], OnDate(selectedDate));
    assert Filter([e], OnDate(selectedDate)) == [e];
    var before := DailyExpenses(expenses, selectedDate);
    FilterAppend(before, [e], IsIncome);
    FilterAppend(before, [e], IsExpense);
    SumByAppend(Filter(before, IsIncome), Filter([e], IsIncome), Amount);
    SumByAppend(Filter(before, IsExpense), Filter([e], IsExpense), Amount);
    assert SumBy([e], Amount) == SumBy([e][..0], Amount) + e.amount;
  }

  /** What a login or sign-up attempt does first. */
  datatype CredentialStep = AlertMissing | Proceed

  /** `if (!email || !password)`: an empty string is falsy, so either field empty stops with an alert. */
  function CredentialGuard(email: string, password: string): (r: CredentialStep)
    ensures r == AlertMissing <==> email == [] || password == []
  {
    if email == "" || password == "" then AlertMissing else Proceed
  }
}

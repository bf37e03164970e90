/** `src/components/assets/AssetsSummary.tsx`: income and expense totals and their balance. */
module AssetsSummary {
  import opened Seqs
  import opened Ledger

  /** The `{ income, expense }` accumulator. */
  datatype Totals = Totals(income: int, expense: int)

  /** The totals after folding `txs`: 収入 amounts into income, 支払い amounts into expense. */
  function TotalsOf(txs: seq<Transaction>): Totals
  {
    Totals(SumBy(txs, IncomeAmount), SumBy(txs, PaymentAmount))
  }

  /** `calculateTotals`: the `reduce` that updates the accumulator row by row. */
  method CalculateTotals(txs: seq<Transaction>) returns (totals: Totals)
    ensures totals == TotalsOf(txs)
  {
    var income, expense := 0, 0;
    for i := 0 to |txs|
      invariant income == SumBy(txs[..i], IncomeAmount)
      invariant expense == SumBy(txs[..i], PaymentAmount)
    {
      var t := txs[i];
      assert txs[..i + 1] == txs[..i] + [t];
      SumBySnoc(txs[..i], t, IncomeAmount);
      SumBySnoc(txs[..i], t, PaymentAmount);
      if t.kind == Income {
        income := income + t.amount;
      } else if t.kind == Payment {
        expense := expense + t.amount;
      }
    }
    assert txs[..|txs|] == txs;
    totals := Totals(income, expense);
  }

  /** `balance`. */
  function SummaryBalance(totals: Totals): int
  {
    totals.income - totals.expense
  }

  /** A row's signed contribution: +amount for 収入, -amount for 支払い, 0 otherwise. */
  function SignedAmount(t: Transaction): int
  {
    match t.kind
    case Income => t.amount
    case Payment => -t.amount
    case _ => 0
  }

  /** The balance is the sum of the signed amounts, so 貯金, 振替 and other types never affect it. */
  lemma BalanceIsSignedSum(txs: seq<Transaction>)
    ensures SummaryBalance(TotalsOf(txs)) == SumBy(txs, SignedAmount)
  {
    SumByPlus(txs, IncomeAmount, NegatedPayment, SignedAmount);
    SumByNegate(txs, PaymentAmount, NegatedPayment);
  }

  function NegatedPayment(t: Transaction): int
  {
    -PaymentAmount(t)
  }

  /** An empty list gives income = expense = balance = 0. */
  lemma EmptyTotals()
    ensures TotalsOf([]) == Totals(0, 0) && SummaryBalance(TotalsOf([])) == 0
  {
  }

  /** Appending one row changes at most one of the two totals, by exactly that row's amount. */
  lemma TotalsStep(txs: seq<Transaction>, t: Transaction)
    ensures var a, b := TotalsOf(txs), TotalsOf(txs + [t]);
      && (t.kind == Income ==> b == Totals(a.income + t.amount, a.expense))
      && (t.kind == Payment ==> b == Totals(a.income, a.expense + t.amount))
      && (t.kind != Income && t.kind != Payment ==> b == a)
  {
    SumBySnoc(txs, t, IncomeAmount);
    SumBySnoc(txs, t, PaymentAmount);
  }
}

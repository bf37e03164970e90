/**
 * `src/components/assets/AssetsTab.tsx`: expense rows turned into ledger transactions and the
 * three-field balance fold, whose accumulator is stored as it is.
 */
module ExpenseAssetsTab {
  import opened Wrappers
  import opened Seqs
  import opened Ledger
  import opened ExpenseTypes

  /** `expenseToTransaction`. */
  function ExpenseToTransaction(e: Expense): (t: Transaction)
    ensures t.id == e.id && t.date == e.date && t.amount == e.amount
    ensures t.kind == (if e.kind == IncomeType then Income else Payment)
    ensures t.paymentMethod == None && t.fromAccount == None && t.toAccount == None
    ensures t.note == (if e.memo == "" then None else Some(e.memo))
  {
    Transaction(
      e.id, e.date, if e.kind == IncomeType then Income else Payment, e.amount,
      None, None, None, if e.memo == "" then None else Some(e.memo))
  }

  /** `expenses.map(expenseToTransaction)`. */
  function ToTransactions(es: seq<Expense>): (r: seq<Transaction>)
    ensures |r| == |es|
    ensures forall i :: 0 <= i < |es| ==> r[i] == ExpenseToTransaction(es[i])
  {
    seq(|es|, i requires 0 <= i < |es| => ExpenseToTransaction(es[i]))
  }

  /** What one transaction adds to the accumulator's `available`: 収入 adds, 支払い and 貯金 subtract. */
  function AvailableDelta(t: Transaction): int
  {
    IncomeAmount(t) - PaymentAmount(t) - SavingsAmount(t)
  }

  /** The accumulator after folding `txs`, each field summed on its own. */
  function Balance(txs: seq<Transaction>): AssetBalance
  {
    AssetBalance(
      SumBy(txs, IncomeAmount) - SumBy(txs, PaymentAmount),
      SumBy(txs, SavingsAmount),
      SumBy(txs, AvailableDelta))
  }

  /** `calculateBalance`: the `reduce` over the rows, its accumulator updated field by field. */
  method CalculateBalance(txs: seq<Transaction>) returns (b: AssetBalance)
    ensures b == Balance(txs)
    ensures b.available == b.total - b.savings
  {
    var total, savings, available := 0, 0, 0;
    for i := 0 to |txs|
      invariant total == SumBy(txs[..i], IncomeAmount) - SumBy(txs[..i], PaymentAmount)
      invariant savings == SumBy(txs[..i], SavingsAmount)
      invariant available == SumBy(txs[..i], AvailableDelta)
      invariant available == total - savings
    {
      var t := txs[i];
      assert txs[..i + 1] == txs[..i] + [t];
      SumBySnoc(txs[..i], t, IncomeAmount);
      SumBySnoc(txs[..i], t, PaymentAmount);
      SumBySnoc(txs[..i], t, SavingsAmount);
      SumBySnoc(txs[..i], t, AvailableDelta);
      match t.kind
      case Income =>
        total := total + t.amount;
        available := available + t.amount;
      case Savings =>
        savings := savings + t.amount;
        available := available - t.amount;
      case Payment =>
        total := total - t.amount;
        available := available - t.amount;
      case Transfer =>
      case Other(_) =>
    }
    assert txs[..|txs|] == txs;
    b := AssetBalance(total, savings, available);
  }

  /** For every list, `available` is `total - savings`. */
  lemma {:induction false} AvailableIsTotalMinusSavings(txs: seq<Transaction>)
    ensures Balance(txs).available == Balance(txs).total - Balance(txs).savings
  {
    if txs != [] {
      AvailableIsTotalMinusSavings(txs[..|txs| - 1]);
    }
  }

  /** One more row: 収入 adds to total and available, 支払い subtracts from both, 貯金 adds to savings
    * and subtracts from available, and 振替 or any other type changes nothing. */
  lemma BalanceStep(txs: seq<Transaction>, t: Transaction)
    ensures var b, b' := Balance(txs), Balance(txs + [t]);
      match t.kind
      case Income => b' == AssetBalance(b.total + t.amount, b.savings, b.available + t.amount)
      case Payment => b' == AssetBalance(b.total - t.amount, b.savings, b.available - t.amount)
      case Savings => b' == AssetBalance(b.total, b.savings + t.amount, b.available - t.amount)
      case _ => b' == b
  {
    SumBySnoc(txs, t, IncomeAmount);
    SumBySnoc(txs, t, PaymentAmount);
    SumBySnoc(txs, t, SavingsAmount);
    SumBySnoc(txs, t, AvailableDelta);
  }

  /** The balance is a plain sum: reordering the rows does not change it. */
  lemma BalancePermutation(s: seq<Transaction>, t: seq<Transaction>)
    requires multiset(s) == multiset(t)
    ensures Balance(s) == Balance(t)
  {
    SumByPermutation(s, t, IncomeAmount);
    SumByPermutation(s, t, PaymentAmount);
    SumByPermutation(s, t, SavingsAmount);
    SumByPermutation(s, t, AvailableDelta);
  }

  /** On the fetch path every row is 収入 or 支払い, so savings stays 0 and available equals total. */
  lemma FetchPathBalance(es: seq<Expense>)
    ensures Balance(ToTransactions(es)).savings == 0
    ensures Balance(ToTransactions(es)).available == Balance(ToTransactions(es)).total
  {
    var txs := ToTransactions(es);
    forall t | t in txs
      ensures SavingsAmount(t) == 0
    {
      var i :| 0 <= i < |txs| && txs[i] == t;
    }
    SumByZero(txs, SavingsAmount);
    AvailableIsTotalMinusSavings(txs);
  }
}

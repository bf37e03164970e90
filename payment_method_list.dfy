/** `src/components/assets/PaymentMethodList.tsx`: payment totals grouped by payment method. */
module PaymentMethodList {
  import opened Wrappers
  import opened Seqs
  import opened Tally
  import opened Ledger

  /** The method a row is summed under: only 支払い rows with a non-empty method qualify. */
  function MethodKey(t: Transaction): (r: Option<string>)
    ensures r.Some? <==> t.kind == Payment && t.paymentMethod.Some? && t.paymentMethod.value != ""
    ensures r.Some? ==> r == t.paymentMethod
  {
    if t.kind == Payment && t.paymentMethod.Some? && t.paymentMethod.value != "" then t.paymentMethod else None
  }

  function TxAmount(t: Transaction): int
  {
    t.amount
  }

  /** `calculatePaymentMethodSummary`: the `reduce` that adds each qualifying amount under its method. */
  method CalculatePaymentMethodSummary(txs: seq<Transaction>) returns (summary: seq<Entry<int>>)
    ensures summary == GroupSum(txs, MethodKey, TxAmount)
  {
    summary := [];
    for i := 0 to |txs|
      invariant summary == GroupSum(txs[..i], MethodKey, TxAmount)
    {
      var t := txs[i];
      assert txs[..i + 1][..i] == txs[..i];
      if t.kind == Payment && t.paymentMethod.Some? && t.paymentMethod.value != "" {
        summary := Add(summary, t.paymentMethod.value, t.amount);
      }
    }
    assert txs[..|txs|] == txs;
  }

  /** The value under method `m` is the sum of the amounts of the qualifying rows paid with `m`. */
  lemma SummaryValue(txs: seq<Transaction>, m: string)
    ensures Get(GroupSum(txs, MethodKey, TxAmount), m) == SumUnder(txs, MethodKey, TxAmount, m)
    ensures m == "" ==> Get(GroupSum(txs, MethodKey, TxAmount), m) == 0
  {
    GroupSumGet(txs, MethodKey, TxAmount, m);
    if m == "" {
      SumUnderEmptyMethod(txs);
    }
  }

  lemma {:induction false} SumUnderEmptyMethod(txs: seq<Transaction>)
    ensures SumUnder(txs, MethodKey, TxAmount, "") == 0
  {
    if txs != [] {
      SumUnderEmptyMethod(txs[..|txs| - 1]);
    }
  }

  /** Each method occurs once, and the methods are exactly those of the qualifying rows. */
  lemma SummaryKeys(txs: seq<Transaction>)
    ensures Distinct(Keys(GroupSum(txs, MethodKey, TxAmount)))
    ensures forall m :: m in Keys(GroupSum(txs, MethodKey, TxAmount)) <==>
      exists t :: t in txs && t.kind == Payment && t.paymentMethod == Some(m) && m != ""
  {
    GroupSumKeys(txs, MethodKey, TxAmount);
  }

  /** The amount a row adds to the summary: its amount when it qualifies, 0 otherwise. */
  function QualifyingAmount(t: Transaction): int
  {
    if t.kind == Payment && t.paymentMethod.Some? && t.paymentMethod.value != "" then t.amount else 0
  }

  /** The values add up to the total amount of the qualifying rows. */
  lemma SummaryTotal(txs: seq<Transaction>)
    ensures Total(GroupSum(txs, MethodKey, TxAmount)) == SumBy(txs, QualifyingAmount)
  {
    GroupSumTotal(txs, MethodKey, TxAmount);
    SumKeyedAsSumBy(txs, MethodKey, TxAmount, QualifyingAmount);
  }

  /** `hasData`: the summary has a key exactly when some row qualifies. */
  function HasData(summary: seq<Entry<int>>): bool
  {
    |Keys(summary)| > 0
  }

  /** `hasData` is false exactly when no row qualifies. */
  lemma HasDataIff(txs: seq<Transaction>)
    ensures HasData(GroupSum(txs, MethodKey, TxAmount)) <==> exists t :: t in txs && MethodKey(t).Some?
  {
    var d := GroupSum(txs, MethodKey, TxAmount);
    GroupSumKeys(txs, MethodKey, TxAmount);
    if exists t :: t in txs && MethodKey(t).Some? {
      var t :| t in txs && MethodKey(t).Some?;
      assert MethodKey(t).value in Keys(d);
    }
  }
}

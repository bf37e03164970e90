/**
 * The ledger records of `src/types/transaction.ts` and `src/types/asset.ts`, and the four
 * Japanese ledger labels 収入 (income), 支払い (payment), 貯金 (savings) and 振替 (transfer).
 */
module Ledger {
  import opened Wrappers
  import opened Dates

  const INCOME_LABEL: string := "収入"
  const PAYMENT_LABEL: string := "支払い"
  const SAVINGS_LABEL: string := "貯金"
  const TRANSFER_LABEL: string := "振替"

  /** A ledger type: one of the four labels, or any other string, which every fold ignores. */
  datatype LedgerType = Income | Payment | Savings | Transfer | Other(text: string)

  /** The four known labels. */
  predicate KnownLabel(s: string)
  {
    s == INCOME_LABEL || s == PAYMENT_LABEL || s == SAVINGS_LABEL || s == TRANSFER_LABEL
  }

  /** A ledger type whose `Other` label is not one of the four known labels. */
  predicate Canonical(t: LedgerType)
  {
    t.Other? ==> !KnownLabel(t.text)
  }

  /** The label string a ledger type is written as. */
  function LabelOf(t: LedgerType): string
  {
    match t
    case Income => INCOME_LABEL
    case Payment => PAYMENT_LABEL
    case Savings => SAVINGS_LABEL
    case Transfer => TRANSFER_LABEL
    case Other(s) => s
  }

  /** Reading a label: the switch of the balance folds, where unknown strings fall through. */
  function ParseLabel(s: string): (t: LedgerType)
    ensures LabelOf(t) == s
    ensures Canonical(t)
    ensures t.Other? <==> !KnownLabel(s)
  {
    if s == INCOME_LABEL then Income
    else if s == PAYMENT_LABEL then Payment
    else if s == SAVINGS_LABEL then Savings
    else if s == TRANSFER_LABEL then Transfer
    else Other(s)
  }

  /** Writing a canonical ledger type and reading it back gives it again. */
  lemma ParseLabelOf(t: LedgerType)
    requires Canonical(t)
    ensures ParseLabel(LabelOf(t)) == t
  {
  }

  /** `Transaction`; the optional fields are `None` when undefined. */
  datatype Transaction = Transaction(
    id: string, date: Date, kind: LedgerType, amount: int,
    fromAccount: Option<string>, toAccount: Option<string>,
    paymentMethod: Option<string>, note: Option<string>)

  /** `AssetBalance`. */
  datatype AssetBalance = AssetBalance(total: int, savings: int, available: int)

  /** The all-zero balance every fold starts from. */
  const ZERO_BALANCE: AssetBalance := AssetBalance(0, 0, 0)

  /** The amount of a 収入 entry, 0 for any other. */
  function IncomePart(kind: LedgerType, amount: int): int
  {
    if kind == Income then amount else 0
  }

  /** The amount of a 支払い entry, 0 for any other. */
  function PaymentPart(kind: LedgerType, amount: int): int
  {
    if kind == Payment then amount else 0
  }

  /** The amount of a 貯金 entry, 0 for any other. */
  function SavingsPart(kind: LedgerType, amount: int): int
  {
    if kind == Savings then amount else 0
  }

  /** The income amount of a transaction. */
  function IncomeAmount(t: Transaction): int
  {
    IncomePart(t.kind, t.amount)
  }

  /** The payment amount of a transaction. */
  function PaymentAmount(t: Transaction): int
  {
    PaymentPart(t.kind, t.amount)
  }

  /** The savings amount of a transaction. */
  function SavingsAmount(t: Transaction): int
  {
    SavingsPart(t.kind, t.amount)
  }
}

/**
 * `src/components/AssetsTab.tsx`: rows of the `expenses` and `transactions` tables merged into one
 * ledger, the DB label and Japanese label maps, the update-payload whitelist, the table each
 * delete, insert and update goes to, the default-category fallback and the stored balance.
 */
module MergedAssetsTab {
  import opened Wrappers
  import opened Seqs
  import opened Strings
  import opened Dates
  import opened Ledger
  import opened ExpenseTypes
  import opened Sorting

  /** A row as the remote query returns it; `None` stands for a null or missing column. */
  datatype DbRow = DbRow(
    id: string, date: Date, dbType: string, amount: int, categoryId: Option<string>,
    paymentMethod: Option<string>, fromAccount: Option<string>, toAccount: Option<string>,
    memo: Option<string>, note: Option<string>)

  /** A row of the merged list: the ledger type is read from the normalised label. */
  datatype Row = Row(
    id: string, date: Date, kind: LedgerType, amount: int, categoryId: Option<string>,
    paymentMethod: string, fromAccount: Option<string>, toAccount: Option<string>,
    memo: Option<string>, note: Option<string>)

  // ---------------------------------------------------------------------------------------------
  // Label maps

  /** An `expenses` row's label: 'income' and 'expense' become 収入 and 支払い. */
  function ExpenseLabel(db: string): string
  {
    if db == "income" then INCOME_LABEL else if db == "expense" then PAYMENT_LABEL else db
  }

  /** A `transactions` row's label: 'savings' and 'transfer' become 貯金 and 振替. */
  function TransactionLabel(db: string): string
  {
    if db == "savings" then SAVINGS_LABEL else if db == "transfer" then TRANSFER_LABEL else db
  }

  /** The label map of `cleanUpdateData`: the four Japanese labels back to their DB names. */
  function ToDbLabel(lbl: string): string
  {
    if lbl == INCOME_LABEL then "income"
    else if lbl == PAYMENT_LABEL then "expense"
    else if lbl == SAVINGS_LABEL then "savings"
    else if lbl == TRANSFER_LABEL then "transfer"
    else lbl
  }

  /** Normalising an `expenses` row. */
  function MapExpenseRow(r: DbRow): (m: Row)
    ensures m.id == r.id && m.date == r.date && m.amount == r.amount && m.categoryId == r.categoryId
    ensures m.fromAccount == r.fromAccount && m.toAccount == r.toAccount
    ensures m.memo == r.memo && m.note == r.note
    ensures r.paymentMethod.Some? ==> m.paymentMethod == r.paymentMethod.value
    ensures r.paymentMethod.None? ==> m.paymentMethod == ""
    ensures r.dbType == "income" ==> m.kind == Income
    ensures r.dbType == "expense" ==> m.kind == Payment
    ensures r.dbType != "income" && r.dbType != "expense" ==> LabelOf(m.kind) == r.dbType
  {
    Row(r.id, r.date, ParseLabel(ExpenseLabel(r.dbType)), r.amount, r.categoryId,
        r.paymentMethod.GetOr(""), r.fromAccount, r.toAccount, r.memo, r.note)
  }

  /** Normalising a `transactions` row; its category is cleared. */
  function MapTransactionRow(r: DbRow): (m: Row)
    ensures m.id == r.id && m.date == r.date && m.amount == r.amount && m.categoryId == None
    ensures m.fromAccount == r.fromAccount && m.toAccount == r.toAccount
    ensures m.memo == r.memo && m.note == r.note
    ensures r.paymentMethod.Some? ==> m.paymentMethod == r.paymentMethod.value
    ensures r.paymentMethod.None? ==> m.paymentMethod == ""
    ensures r.dbType == "savings" ==> m.kind == Savings
    ensures r.dbType == "transfer" ==> m.kind == Transfer
    ensures r.dbType != "savings" && r.dbType != "transfer" ==> LabelOf(m.kind) == r.dbType
  {
    Row(r.id, r.date, ParseLabel(TransactionLabel(r.dbType)), r.amount, None,
        r.paymentMethod.GetOr(""), r.fromAccount, r.toAccount, r.memo, r.note)
  }

  /** For every DB label that is not itself a Japanese label, mapping it back undoes the expense map. */
  lemma ExpenseLabelRoundTrip(db: string)
    requires !KnownLabel(db)
    ensures ToDbLabel(ExpenseLabel(db)) == db
  {
  }

  /** For every DB label that is not itself a Japanese label, mapping it back undoes the transaction map. */
  lemma TransactionLabelRoundTrip(db: string)
    requires !KnownLabel(db)
    ensures ToDbLabel(TransactionLabel(db)) == db
  {
  }

  /** Writing the ledger type of a fetched row back with `ToDbLabel` gives the stored DB label. */
  lemma FetchedKindWritesBack(r: DbRow)
    requires !KnownLabel(r.dbType)
    ensures ToDbLabel(LabelOf(MapExpenseRow(r).kind)) == r.dbType
    ensures ToDbLabel(LabelOf(MapTransactionRow(r).kind)) == r.dbType
  {
    ExpenseLabelRoundTrip(r.dbType);
    TransactionLabelRoundTrip(r.dbType);
  }

  // ---------------------------------------------------------------------------------------------
  // `cleanUpdateData`

  /** A field value of the update payload; a key missing from the map is `undefined`. */
  datatype Value = Text(text: string) | Number(number: int) | Null

  /** The keys the update payload may carry. */
  const ALLOWED: seq<string> :=
    ["category_id", "payment_method", "amount", "type", "date", "note", "memo", "from_account", "to_account"]

  /** The `type` field: a Japanese label becomes its DB name, anything else passes through. */
  function CleanTypeValue(v: Value): (r: Value)
    ensures v.Text? ==> r == Text(ToDbLabel(v.text))
    ensures !v.Text? ==> r == v
  {
    if v.Text? then Text(ToDbLabel(v.text)) else v
  }

  /** `cleanUpdateData`: copies the allowed keys that are present, translating the `type` field. */
  method CleanUpdateData(data: map<string, Value>) returns (result: map<string, Value>)
    ensures forall k :: k in result <==> k in ALLOWED && k in data
    ensures forall k :: k in result && k != "type" ==> result[k] == data[k]
    ensures "type" in result ==> result["type"] == CleanTypeValue(data["type"])
  {
    result := map[];
    for i := 0 to |ALLOWED|
      invariant forall k :: k in result <==> k in ALLOWED[..i] && k in data
      invariant forall k :: k in result && k != "type" ==> result[k] == data[k]
      invariant "type" in result ==> result["type"] == CleanTypeValue(data["type"])
    {
      var key := ALLOWED[i];
      assert ALLOWED[..i + 1] == ALLOWED[..i] + [key];
      if key in data {
        if key == "type" {
          result := result[key := CleanTypeValue(data[key])];
        } else {
          result := result[key := data[key]];
        }
      }
    }
    assert ALLOWED[..|ALLOWED|] == ALLOWED;
  }

  // ---------------------------------------------------------------------------------------------
  // Table routing

  datatype Table = ExpensesTable | TransactionsTable

  /** What saving a row does. */
  datatype SaveAction = Update(table: Table) | Insert(table: Table)

  /** Labels whose rows live in `expenses`. */
  predicate ExpenseTableLabel(lbl: string)
  {
    lbl == INCOME_LABEL || lbl == PAYMENT_LABEL
  }

  /** Labels whose rows live in `transactions`. */
  predicate TransactionTableLabel(lbl: string)
  {
    lbl == SAVINGS_LABEL || lbl == TRANSFER_LABEL
  }

  /** `handleDelete`: the table a row is deleted from, given its (possibly undefined) label. */
  function DeleteTable(lbl: Option<string>): (t: Table)
    ensures t == TransactionsTable <==> lbl.Some? && TransactionTableLabel(lbl.value)
  {
    if lbl.Some? && TransactionTableLabel(lbl.value) then TransactionsTable else ExpensesTable
  }

  /** The insert branch of `handleSave`: `expenses` only for 収入 and 支払い. */
  function InsertTable(lbl: string): (t: Table)
    ensures t == ExpensesTable <==> ExpenseTableLabel(lbl)
  {
    if ExpenseTableLabel(lbl) then ExpensesTable else TransactionsTable
  }

  /** `handleSave` as written: an id already in the list is always updated in `expenses`. */
  function SaveTarget(id: string, lbl: string, listedIds: seq<string>): (a: SaveAction)
    ensures a.Update? <==> id != "" && id in listedIds
    ensures a.Update? ==> a.table == ExpensesTable
    ensures a.Insert? ==> a.table == InsertTable(lbl)
  {
    if id != "" && id in listedIds then Update(ExpensesTable) else Insert(InsertTable(lbl))
  }

  /** The table `handleSave` should update: the one the row is deleted from, and fetched from. */
  function SaveTargetRouted(id: string, lbl: string, listedIds: seq<string>): (a: SaveAction)
    ensures a.Update? <==> id != "" && id in listedIds
    ensures a.Update? ==> a.table == DeleteTable(Some(lbl))
    ensures a.Insert? ==> a == SaveTarget(id, lbl, listedIds)
  {
    if id != "" && id in listedIds then Update(DeleteTable(Some(lbl))) else Insert(InsertTable(lbl))
  }

  /** Given the row's type, delete sends a fetched row back to the table it was read from. */
  lemma DeleteFindsFetchedRow(r: DbRow)
    ensures r.dbType == "income" || r.dbType == "expense" ==>
      DeleteTable(Some(LabelOf(MapExpenseRow(r).kind))) == ExpensesTable
    ensures r.dbType == "savings" || r.dbType == "transfer" ==>
      DeleteTable(Some(LabelOf(MapTransactionRow(r).kind))) == TransactionsTable
  {
  }

  /** The delete the transaction list makes: `onDelete(transaction.id)` passes no type, so
    * `handleDelete(id, undefined)` always goes to `expenses`. */
  function DeleteFromList(r: Row): (t: Table)
    ensures t == ExpensesTable
  {
    DeleteTable(None)
  }

  /** As written, deleting a listed 貯金 or 振替 row, which was fetched from `transactions`, is sent to
    * `expenses`, the table it is not in; given the row's type, the delete would find it. */
  lemma DeleteFromListMisses(r: DbRow)
    requires r.dbType == "savings" || r.dbType == "transfer"
    ensures DeleteFromList(MapTransactionRow(r)) == ExpensesTable
    ensures DeleteTable(Some(LabelOf(MapTransactionRow(r).kind))) == TransactionsTable
  {
    DeleteFindsFetchedRow(r);
  }

  /** The as-written update of a listed 貯金 or 振替 row targets `expenses`, the table it is not in. */
  lemma SaveTargetMisroutesTransactions(id: string, lbl: string, listedIds: seq<string>)
    requires id != "" && id in listedIds && TransactionTableLabel(lbl)
    ensures SaveTarget(id, lbl, listedIds) == Update(ExpensesTable)
    ensures DeleteTable(Some(lbl)) == TransactionsTable
    ensures InsertTable(lbl) == TransactionsTable
  {
  }

  /** A concrete case: a listed 貯金 row with id "t1". */
  lemma SaveTargetMisroutesExample()
    ensures SaveTarget("t1", SAVINGS_LABEL, ["t1"]).table != DeleteTable(Some(SAVINGS_LABEL))
  {
    SaveTargetMisroutesTransactions("t1", SAVINGS_LABEL, ["t1"]);
  }

  /** With the routed save, update, insert and delete agree on the table for every known label. */
  lemma SaveTargetRoutedAgrees(id: string, lbl: string, listedIds: seq<string>)
    requires KnownLabel(lbl)
    ensures SaveTargetRouted(id, lbl, listedIds).table == DeleteTable(Some(lbl))
    ensures InsertTable(lbl) == DeleteTable(Some(lbl))
  {
  }

  // ---------------------------------------------------------------------------------------------
  // Insert payloads

  /** JavaScript truthiness of an optional string: present and non-empty. */
  predicate Truthy(s: Option<string>)
  {
    s.Some? && s.value != ""
  }

  /** `a || b || ''`. */
  function OrElse(a: Option<string>, b: Option<string>): (r: string)
    ensures Truthy(a) ==> r == a.value
    ensures !Truthy(a) && Truthy(b) ==> r == b.value
    ensures r == "" <==> !Truthy(a) && !Truthy(b)
  {
    if Truthy(a) then a.value else if Truthy(b) then b.value else ""
  }

  /** `a || null`. */
  function OrNull(a: Option<string>): (r: Option<string>)
    ensures r.Some? <==> Truthy(a)
    ensures r.Some? ==> r == a
  {
    if Truthy(a) then a else None
  }

  /** The `insertData` object for `expenses`. */
  datatype ExpenseInsert = ExpenseInsert(
    userId: string, categoryId: string, amount: int, dbType: string, memo: string, date: Date,
    paymentMethod: Option<string>)

  /** The `txInsertData` object for `transactions`. */
  datatype TransactionInsert = TransactionInsert(
    userId: string, amount: int, dbType: string, date: Date, fromAccount: Option<string>,
    toAccount: Option<string>, note: string, paymentMethod: Option<string>)

  /** The two insert payloads, each naming its table. */
  datatype InsertPayload = IntoExpenses(expense: ExpenseInsert) | IntoTransactions(transaction: TransactionInsert)

  /** `typeValue`: the `expenses` DB label of 収入 and 支払い, `None` for every other label. */
  function ExpenseTypeValue(lbl: string): (r: Option<string>)
    ensures r.Some? <==> ExpenseTableLabel(lbl)
    ensures r.Some? ==> r.value == ToDbLabel(lbl)
  {
    if lbl == INCOME_LABEL then Some("income") else if lbl == PAYMENT_LABEL then Some("expense") else None
  }

  /** The `transactions` DB label of an inserted row: 貯金 and 振替 translated, anything else as is. */
  function TransactionTypeValue(lbl: string): string
  {
    if lbl == SAVINGS_LABEL then "savings" else if lbl == TRANSFER_LABEL then "transfer" else lbl
  }

  /** A name the fallback of `getDefaultCategoryId` accepts. */
  predicate FallbackName(name: string)
  {
    Contains(name, "その他") || Contains(name, "未分類")
  }

  /** `getDefaultCategoryId`: the first category of the requested type, else the first with a catch-all
    * name, else the first category, else ''. */
  function DefaultCategoryId(kind: CategoryType, cats: seq<Category>): (r: string)
    ensures (exists i :: 0 <= i < |cats| && cats[i].kind == kind) ==>
      exists i :: 0 <= i < |cats| && cats[i].kind == kind && r == cats[i].id &&
        forall j :: 0 <= j < i ==> cats[j].kind != kind
    ensures (forall i :: 0 <= i < |cats| ==> cats[i].kind != kind) &&
            (exists i :: 0 <= i < |cats| && FallbackName(cats[i].name)) ==>
      exists i :: 0 <= i < |cats| && FallbackName(cats[i].name) && r == cats[i].id &&
        forall j :: 0 <= j < i ==> !FallbackName(cats[j].name)
    ensures (forall i :: 0 <= i < |cats| ==> cats[i].kind != kind && !FallbackName(cats[i].name)) ==>
      r == if |cats| == 0 then "" else cats[0].id
  {
    var found := Find(cats, (c: Category) => c.kind == kind);
    if found.Some? then found.value.id
    else
      var fallback := Find(cats, (c: Category) => FallbackName(c.name));
      if fallback.Some? then fallback.value.id
      else if |cats| == 0 then "" else cats[0].id
  }

  /** The insert branch of `handleSave` for a row `t` that is not in the list. */
  function InsertPayloadOf(t: Row, userId: string, cats: seq<Category>): (p: InsertPayload)
    ensures p.IntoExpenses? <==> InsertTable(LabelOf(t.kind)) == ExpensesTable
    ensures p.IntoExpenses? ==>
      && p.expense.userId == userId && p.expense.amount == t.amount && p.expense.date == t.date
      && p.expense.dbType == ToDbLabel(LabelOf(t.kind))
      && p.expense.memo == OrElse(t.memo, t.note)
      && (Truthy(t.categoryId) ==> p.expense.categoryId == t.categoryId.value)
      && (!Truthy(t.categoryId) ==>
            p.expense.categoryId == DefaultCategoryId(if LabelOf(t.kind) == INCOME_LABEL then IncomeType else ExpenseType, cats))
      && p.expense.paymentMethod == (if t.paymentMethod != "" then Some(t.paymentMethod) else None)
    ensures p.IntoTransactions? ==>
      && p.transaction.userId == userId && p.transaction.amount == t.amount && p.transaction.date == t.date
      && p.transaction.dbType == TransactionTypeValue(LabelOf(t.kind))
      && p.transaction.fromAccount == OrNull(t.fromAccount) && p.transaction.toAccount == OrNull(t.toAccount)
      && p.transaction.note == OrElse(t.memo, t.note)
      && p.transaction.paymentMethod == (if t.paymentMethod != "" then Some(t.paymentMethod) else None)
  {
    var lbl := LabelOf(t.kind);
    var pm := if t.paymentMethod != "" then Some(t.paymentMethod) else None;
    match ExpenseTypeValue(lbl)
    case None =>
      IntoTransactions(TransactionInsert(
        userId, t.amount, TransactionTypeValue(lbl), t.date, OrNull(t.fromAccount), OrNull(t.toAccount),
        OrElse(t.memo, t.note), pm))
    case Some(typeValue) =>
      var kind := if typeValue == "income" then IncomeType else ExpenseType;
      var categoryId := if Truthy(t.categoryId) then t.categoryId.value else DefaultCategoryId(kind, cats);
      IntoExpenses(ExpenseInsert(userId, categoryId, t.amount, typeValue, OrElse(t.memo, t.note), t.date, pm))
  }

  /** The `expenses` row the database stores for an insert payload, under the id it assigns. */
  function StoredExpense(id: string, e: ExpenseInsert): DbRow
  {
    DbRow(id, e.date, e.dbType, e.amount, Some(e.categoryId), e.paymentMethod, None, None, Some(e.memo), None)
  }

  /** The `transactions` row the database stores for an insert payload, under the id it assigns. */
  function StoredTransaction(id: string, x: TransactionInsert): DbRow
  {
    DbRow(id, x.date, x.dbType, x.amount, None, x.paymentMethod, x.fromAccount, x.toAccount, None, Some(x.note))
  }

  /** Inserting a row and fetching it again gives back its ledger type, amount, date and payment method,
    * unless its label is the bare DB name 'savings' or 'transfer', which the fetch translates. */
  lemma InsertThenFetch(t: Row, userId: string, cats: seq<Category>, id: string)
    requires Canonical(t.kind)
    requires LabelOf(t.kind) != "savings" && LabelOf(t.kind) != "transfer"
    ensures var m := match InsertPayloadOf(t, userId, cats)
                     case IntoExpenses(e) => MapExpenseRow(StoredExpense(id, e))
                     case IntoTransactions(x) => MapTransactionRow(StoredTransaction(id, x));
      m.kind == t.kind && m.amount == t.amount && m.date == t.date && m.paymentMethod == t.paymentMethod
  {
    ParseLabelOf(t.kind);
  }

  // ---------------------------------------------------------------------------------------------
  // Balance

  function RowIncome(r: Row): int { IncomePart(r.kind, r.amount) }
  function RowPayment(r: Row): int { PaymentPart(r.kind, r.amount) }
  function RowSavings(r: Row): int { SavingsPart(r.kind, r.amount) }

  /** The balance shown after `calculateBalance`: `available` is replaced by `total + savings`. */
  function StoredBalance(rows: seq<Row>): AssetBalance
  {
    var total := SumBy(rows, RowIncome) - SumBy(rows, RowPayment);
    var savings := SumBy(rows, RowSavings);
    AssetBalance(total, savings, total + savings)
  }

  /** `calculateBalance`: the `reduce` over the rows, then the override of `available`. */
  method CalculateBalance(rows: seq<Row>) returns (b: AssetBalance)
    ensures b == StoredBalance(rows)
    ensures b.available == b.total + b.savings
  {
    var total, savings, available := 0, 0, 0;
    for i := 0 to |rows|
      invariant total == SumBy(rows[..i], RowIncome) - SumBy(rows[..i], RowPayment)
      invariant savings == SumBy(rows[..i], RowSavings)
      invariant available == total - savings
    {
      var r := rows[i];
      assert rows[..i + 1] == rows[..i] + [r];
      SumBySnoc(rows[..i], r, RowIncome);
      SumBySnoc(rows[..i], r, RowPayment);
      SumBySnoc(rows[..i], r, RowSavings);
      match r.kind
      case Income =>
        total := total + r.amount;
        available := available + r.amount;
      case Savings =>
        savings := savings + r.amount;
        available := available - r.amount;
      case Payment =>
        total := total - r.amount;
        available := available - r.amount;
      case Transfer =>
      case Other(_) =>
    }
    assert rows[..|rows|] == rows;
    b := AssetBalance(total, savings, total + savings);
  }

  /** One more row: 収入 adds to total, 支払い subtracts from it, 貯金 adds to savings, and 振替 or any
    * other type changes nothing; `available` follows as `total + savings`. */
  lemma StoredBalanceStep(rows: seq<Row>, r: Row)
    ensures var b, b' := StoredBalance(rows), StoredBalance(rows + [r]);
      && b'.available == b'.total + b'.savings
      && match r.kind
         case Income => b'.total == b.total + r.amount && b'.savings == b.savings
         case Payment => b'.total == b.total - r.amount && b'.savings == b.savings
         case Savings => b'.total == b.total && b'.savings == b.savings + r.amount
         case _ => b' == b
  {
    SumBySnoc(rows, r, RowIncome);
    SumBySnoc(rows, r, RowPayment);
    SumBySnoc(rows, r, RowSavings);
  }

  /** An empty list gives the zero balance. */
  lemma StoredBalanceEmpty()
    ensures StoredBalance([]) == ZERO_BALANCE
  {
  }

  /** Reordering the rows does not change the balance. */
  lemma StoredBalancePermutation(s: seq<Row>, t: seq<Row>)
    requires multiset(s) == multiset(t)
    ensures StoredBalance(s) == StoredBalance(t)
  {
    SumByPermutation(s, t, RowIncome);
    SumByPermutation(s, t, RowPayment);
    SumByPermutation(s, t, RowSavings);
  }

  // ---------------------------------------------------------------------------------------------
  // Merge and sort

  function MapExpenseRows(rows: seq<DbRow>): (r: seq<Row>)
    ensures |r| == |rows|
    ensures forall i :: 0 <= i < |rows| ==> r[i] == MapExpenseRow(rows[i])
  {
    seq(|rows|, i requires 0 <= i < |rows| => MapExpenseRow(rows[i]))
  }

  function MapTransactionRows(rows: seq<DbRow>): (r: seq<Row>)
    ensures |r| == |rows|
    ensures forall i :: 0 <= i < |rows| ==> r[i] == MapTransactionRow(rows[i])
  {
    seq(|rows|, i requires 0 <= i < |rows| => MapTransactionRow(rows[i]))
  }

  /** The sort key: later dates have larger keys. */
  function DateKey(r: Row): int
  {
    Ordinal(r.date)
  }

  /** The merge of both normalised lists and the in-place sort by date, latest first. */
  method MergeAndSort(expenses: seq<DbRow>, transactions: seq<DbRow>) returns (all: seq<Row>)
    ensures multiset(all) == multiset(MapExpenseRows(expenses) + MapTransactionRows(transactions))
    ensures forall i, j :: 0 <= i < j < |all| ==> DateLe(all[j].date, all[i].date)
    ensures SameTies(all, MapExpenseRows(expenses) + MapTransactionRows(transactions), DateKey)
  {
    var merged := MapExpenseRows(expenses) + MapTransactionRows(transactions);
    var a := new Row[|merged|](i requires 0 <= i < |merged| => merged[i]);
    assert a[..] == merged;
    SortDescending(a, DateKey);
    all := a[..];
    forall i, j | 0 <= i < j < |all|
      ensures DateLe(all[j].date, all[i].date)
    {
      assert DateKey(all[j]) <= DateKey(all[i]);
      OrdinalOrder(all[j].date, all[i].date);
    }
  }

  /** The balance of the sorted list is the balance of the two fetched lists. */
  lemma MergedBalance(all: seq<Row>, expenses: seq<DbRow>, transactions: seq<DbRow>)
    requires multiset(all) == multiset(MapExpenseRows(expenses) + MapTransactionRows(transactions))
    ensures StoredBalance(all).total ==
      StoredBalance(MapExpenseRows(expenses)).total + StoredBalance(MapTransactionRows(transactions)).total
    ensures StoredBalance(all).savings ==
      StoredBalance(MapExpenseRows(expenses)).savings + StoredBalance(MapTransactionRows(transactions)).savings
  {
    var e, x := MapExpenseRows(expenses), MapTransactionRows(transactions);
    StoredBalancePermutation(all, e + x);
    SumByAppend(e, x, RowIncome);
    SumByAppend(e, x, RowPayment);
    SumByAppend(e, x, RowSavings);
  }
}

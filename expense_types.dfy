/** The records of `src/types/expense.ts` and its two default category catalogs. */
module ExpenseTypes {
  import opened Wrappers
  import opened Dates
  import opened Seqs
  import opened Uuid
  import opened CatalogIds

  /** `CategoryType`: 'expense' | 'income'. */
  datatype CategoryType = ExpenseType | IncomeType

  /** `Category`. */
  datatype Category = Category(id: string, name: string, kind: CategoryType, userId: string, color: string, icon: Option<string>)

  /** `Expense`: one income or expense row of the `expenses` table; `date` is its 'YYYY-MM-DD' day. */
  datatype Expense = Expense(
    id: string, userId: string, categoryId: string, amount: int, kind: CategoryType,
    memo: string, date: Date, paymentMethod: Option<string>)

  // The catalog entries, one constant per line of the source arrays.

  const EXPENSE_0: Category := Category(EXPENSE_0_ID, "サブスク", ExpenseType, "", "#FF6384", Some("credit-card"))
  const EXPENSE_1: Category := Category(EXPENSE_1_ID, "ネットショッピング", ExpenseType, "", "#36A2EB", Some("shopping-bag"))
  const EXPENSE_2: Category := Category(EXPENSE_2_ID, "家賃", ExpenseType, "", "#FFCE56", Some("home"))
  const EXPENSE_3: Category := Category(EXPENSE_3_ID, "通信費", ExpenseType, "", "#4BC0C0", Some("wifi"))
  const EXPENSE_4: Category := Category(EXPENSE_4_ID, "ガス", ExpenseType, "", "#9966FF", Some("fire"))
  const EXPENSE_5: Category := Category(EXPENSE_5_ID, "水道", ExpenseType, "", "#FF9F40", Some("water"))
  const EXPENSE_6: Category := Category(EXPENSE_6_ID, "電気代", ExpenseType, "", "#FF6384", Some("bolt"))
  const EXPENSE_7: Category := Category(EXPENSE_7_ID, "病院", ExpenseType, "", "#36A2EB", Some("hospital"))
  const EXPENSE_8: Category := Category(EXPENSE_8_ID, "スポーツ", ExpenseType, "", "#FFCE56", Some("running"))
  const EXPENSE_9: Category := Category(EXPENSE_9_ID, "レジャー", ExpenseType, "", "#4BC0C0", Some("umbrella-beach"))
  const EXPENSE_10: Category := Category(EXPENSE_10_ID, "ダイエット", ExpenseType, "", "#9966FF", Some("weight"))
  const EXPENSE_11: Category := Category(EXPENSE_11_ID, "薬局", ExpenseType, "", "#FF9F40", Some("pills"))
  const EXPENSE_12: Category := Category(EXPENSE_12_ID, "生活用品", ExpenseType, "", "#FF6384", Some("shopping-basket"))
  const EXPENSE_13: Category := Category(EXPENSE_13_ID, "交際費", ExpenseType, "", "#36A2EB", Some("users"))
  const EXPENSE_14: Category := Category(EXPENSE_14_ID, "交通費", ExpenseType, "", "#FFCE56", Some("car"))
  const EXPENSE_15: Category := Category(EXPENSE_15_ID, "コンビニ", ExpenseType, "", "#4BC0C0", Some("store"))
  const EXPENSE_16: Category := Category(EXPENSE_16_ID, "ファッション", ExpenseType, "", "#9966FF", Some("tshirt"))
  const EXPENSE_17: Category := Category(EXPENSE_17_ID, "美容", ExpenseType, "", "#FF9F40", Some("spa"))
  const EXPENSE_18: Category := Category(EXPENSE_18_ID, "食費", ExpenseType, "", "#FF6384", Some("utensils"))

  const INCOME_0: Category := Category(INCOME_0_ID, "給与", IncomeType, "", "#4CAF50", Some("money-bill"))
  const INCOME_1: Category := Category(INCOME_1_ID, "ボーナス", IncomeType, "", "#8BC34A", Some("gift"))
  const INCOME_2: Category := Category(INCOME_2_ID, "副業収入", IncomeType, "", "#CDDC39", Some("briefcase"))
  const INCOME_3: Category := Category(INCOME_3_ID, "フリーランス収入", IncomeType, "", "#FFC107", Some("laptop-code"))
  const INCOME_4: Category := Category(INCOME_4_ID, "投資収入", IncomeType, "", "#FF9800", Some("chart-line"))
  const INCOME_5: Category := Category(INCOME_5_ID, "配当金", IncomeType, "", "#FF5722", Some("hand-holding-usd"))
  const INCOME_6: Category := Category(INCOME_6_ID, "不動産収入", IncomeType, "", "#795548", Some("building"))
  const INCOME_7: Category := Category(INCOME_7_ID, "年金", IncomeType, "", "#9E9E9E", Some("user-tie"))
  const INCOME_8: Category := Category(INCOME_8_ID, "利子収入", IncomeType, "", "#607D8B", Some("percent"))
  const INCOME_9: Category := Category(INCOME_9_ID, "株式売却益", IncomeType, "", "#2196F3", Some("chart-bar"))
  const INCOME_10: Category := Category(INCOME_10_ID, "臨時収入", IncomeType, "", "#03A9F4", Some("star"))
  const INCOME_11: Category := Category(INCOME_11_ID, "贈与・お祝い", IncomeType, "", "#00BCD4", Some("gift"))
  const INCOME_12: Category := Category(INCOME_12_ID, "保険金", IncomeType, "", "#009688", Some("shield-alt"))
  const INCOME_13: Category := Category(INCOME_13_ID, "税金還付", IncomeType, "", "#4CAF50", Some("money-check"))
  const INCOME_14: Category := Category(INCOME_14_ID, "その他収入", IncomeType, "", "#FF5722", Some("plus-circle"))

  /** `DEFAULT_EXPENSE_CATEGORIES`. */
  const DEFAULT_EXPENSE_CATEGORIES: seq<Category> := [
    EXPENSE_0, EXPENSE_1, EXPENSE_2, EXPENSE_3, EXPENSE_4, EXPENSE_5,
    EXPENSE_6, EXPENSE_7, EXPENSE_8, EXPENSE_9, EXPENSE_10, EXPENSE_11,
    EXPENSE_12, EXPENSE_13, EXPENSE_14, EXPENSE_15, EXPENSE_16, EXPENSE_17,
    EXPENSE_18]

  /** `DEFAULT_INCOME_CATEGORIES`. */
  const DEFAULT_INCOME_CATEGORIES: seq<Category> := [
    INCOME_0, INCOME_1, INCOME_2, INCOME_3, INCOME_4, INCOME_5,
    INCOME_6, INCOME_7, INCOME_8, INCOME_9, INCOME_10, INCOME_11,
    INCOME_12, INCOME_13, INCOME_14]

  /** The ids of a list of categories, in order. */
  function Ids(cats: seq<Category>): (r: seq<string>)
    ensures |r| == |cats| && forall i :: 0 <= i < |cats| ==> r[i] == cats[i].id
  {
    seq(|cats|, i requires 0 <= i < |cats| => cats[i].id)
  }

  /** The names of a list of categories, in order. */
  function Names(cats: seq<Category>): (r: seq<string>)
    ensures |r| == |cats| && forall i :: 0 <= i < |cats| ==> r[i] == cats[i].name
  {
    seq(|cats|, i requires 0 <= i < |cats| => cats[i].name)
  }

  /** The expense catalog's ids are the listed ones, in order. */
  lemma ExpenseIdsListed()
    ensures Ids(DEFAULT_EXPENSE_CATEGORIES) == EXPENSE_IDS
  {
  }

  /** The expense catalog: 19 defaults, all of type 'expense' and owned by nobody yet. */
  lemma ExpenseCatalogShape()
    ensures |DEFAULT_EXPENSE_CATEGORIES| == 19
    ensures forall i :: 0 <= i < |DEFAULT_EXPENSE_CATEGORIES| ==>
      DEFAULT_EXPENSE_CATEGORIES[i].kind == ExpenseType && DEFAULT_EXPENSE_CATEGORIES[i].userId == ""
  {
  }

  /** The income catalog's ids are the listed ones, in order. */
  lemma IncomeIdsListed()
    ensures Ids(DEFAULT_INCOME_CATEGORIES) == INCOME_IDS
  {
  }

  /** The income catalog: 15 defaults, all of type 'income' and owned by nobody yet. */
  lemma IncomeCatalogShape()
    ensures |DEFAULT_INCOME_CATEGORIES| == 15
    ensures forall i :: 0 <= i < |DEFAULT_INCOME_CATEGORIES| ==>
      DEFAULT_INCOME_CATEGORIES[i].kind == IncomeType && DEFAULT_INCOME_CATEGORIES[i].userId == ""
  {
  }

  /** Within the expense catalog no name occurs twice. */
  lemma ExpenseNamesDistinct()
    ensures Distinct(Names(DEFAULT_EXPENSE_CATEGORIES))
  {
  }

  /** Within the expense catalog no id occurs twice. */
  lemma ExpenseIdsDistinct()
    ensures Distinct(Ids(DEFAULT_EXPENSE_CATEGORIES))
  {
    ExpenseIdsListed();
    ExpenseIdListDistinct();
  }

  /** Within the income catalog no name occurs twice. */
  lemma IncomeNamesDistinct()
    ensures Distinct(Names(DEFAULT_INCOME_CATEGORIES))
  {
  }

  /** Within the income catalog no id occurs twice. */
  lemma IncomeIdsDistinct()
    ensures Distinct(Ids(DEFAULT_INCOME_CATEGORIES))
  {
    IncomeIdsListed();
    IncomeIdListDistinct();
  }

  /** Across the catalogs five ids are shared, so the two together do not have distinct ids. */
  lemma CatalogIdsCollide()
    ensures DEFAULT_EXPENSE_CATEGORIES[0].id == DEFAULT_INCOME_CATEGORIES[7].id
    ensures DEFAULT_EXPENSE_CATEGORIES[1].id == DEFAULT_INCOME_CATEGORIES[11].id
    ensures DEFAULT_EXPENSE_CATEGORIES[2].id == DEFAULT_INCOME_CATEGORIES[8].id
    ensures DEFAULT_EXPENSE_CATEGORIES[3].id == DEFAULT_INCOME_CATEGORIES[9].id
    ensures DEFAULT_EXPENSE_CATEGORIES[4].id == DEFAULT_INCOME_CATEGORIES[10].id
    ensures !Distinct(Ids(DEFAULT_EXPENSE_CATEGORIES + DEFAULT_INCOME_CATEGORIES))
  {
    var all := Ids(DEFAULT_EXPENSE_CATEGORIES + DEFAULT_INCOME_CATEGORIES);
    assert all[0] == all[19 + 7];
  }

  /** Every expense default id has 36 characters, 32 of them besides its dashes. */
  lemma ExpenseIdsHave32Characters()
    ensures forall i :: 0 <= i < |DEFAULT_EXPENSE_CATEGORIES| ==>
      |DEFAULT_EXPENSE_CATEGORIES[i].id| == 36 && |StripDashes(DEFAULT_EXPENSE_CATEGORIES[i].id)| == 32
  {
    ExpenseIdsListed();
    ExpenseIdListGrouped();
    forall i | 0 <= i < |DEFAULT_EXPENSE_CATEGORIES|
      ensures |DEFAULT_EXPENSE_CATEGORIES[i].id| == 36 && |StripDashes(DEFAULT_EXPENSE_CATEGORIES[i].id)| == 32
    {
      FiveGroupsStrip(DEFAULT_EXPENSE_CATEGORIES[i].id);
    }
  }

  /** Every income default id has 36 characters, 32 of them besides its dashes. */
  lemma IncomeIdsHave32Characters()
    ensures forall i :: 0 <= i < |DEFAULT_INCOME_CATEGORIES| ==>
      |DEFAULT_INCOME_CATEGORIES[i].id| == 36 && |StripDashes(DEFAULT_INCOME_CATEGORIES[i].id)| == 32
  {
    IncomeIdsListed();
    IncomeIdListGrouped();
    forall i | 0 <= i < |DEFAULT_INCOME_CATEGORIES|
      ensures |DEFAULT_INCOME_CATEGORIES[i].id| == 36 && |StripDashes(DEFAULT_INCOME_CATEGORIES[i].id)| == 32
    {
      FiveGroupsStrip(DEFAULT_INCOME_CATEGORIES[i].id);
    }
  }

  /** The id on line 30 of the catalog is grouped 4-4-4-12-8; `normalizeUUID` changes it into canonical form. */
  lemma NonCanonicalIdRegrouped()
    ensures !IsCanonical(DEFAULT_EXPENSE_CATEGORIES[6].id)
    ensures IsCanonical(NormalizeUuid(DEFAULT_EXPENSE_CATEGORIES[6].id))
    ensures NormalizeUuid(DEFAULT_EXPENSE_CATEGORIES[6].id) != DEFAULT_EXPENSE_CATEGORIES[6].id
  {
    assert DEFAULT_EXPENSE_CATEGORIES[6].id == EXPENSE_6_ID;
    ExpenseId6Regrouped();
  }
}

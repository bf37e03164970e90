/**
 * `getDefaultCategories` in `src/app/sign-up/page.tsx`: the per-user copy of both default catalogs that
 * sign-up inserts in a single request.
 */
module SignUp {
  import opened Seqs
  import opened ExpenseTypes

  /** `cats.map(cat => ({ ...cat, user_id: userId }))`. */
  function OwnedBy(cats: seq<Category>, userId: string): (r: seq<Category>)
    ensures |r| == |cats|
    ensures forall i :: 0 <= i < |cats| ==> r[i] == cats[i].(userId := userId)
  {
    seq(|cats|, (i: int) requires 0 <= i < |cats| => cats[i].(userId := userId))
  }

  /** `getDefaultCategories`: the expense defaults, then the income defaults, each owned by the new user. */
  function DefaultCategories(userId: string): (r: seq<Category>)
    ensures |r| == |DEFAULT_EXPENSE_CATEGORIES| + |DEFAULT_INCOME_CATEGORIES|
  {
    OwnedBy(DEFAULT_EXPENSE_CATEGORIES, userId) + OwnedBy(DEFAULT_INCOME_CATEGORIES, userId)
  }

  /** 19 + 15 entries in catalog order; only the owner differs from the catalog's entry. */
  lemma DefaultCategoriesShape(userId: string)
    ensures |DefaultCategories(userId)| == 34
    ensures forall i :: 0 <= i < 19 ==>
      DefaultCategories(userId)[i] == DEFAULT_EXPENSE_CATEGORIES[i].(userId := userId)
    ensures forall i :: 0 <= i < 15 ==>
      DefaultCategories(userId)[19 + i] == DEFAULT_INCOME_CATEGORIES[i].(userId := userId)
    ensures forall i :: 0 <= i < 34 ==> DefaultCategories(userId)[i].userId == userId
  {
    ExpenseCatalogShape();
    IncomeCatalogShape();
  }

  /** The copy keeps every field but the owner: id, name, type, colour and icon come from the catalog. */
  lemma DefaultCategoriesCopyFields(userId: string, i: int)
    requires 0 <= i < 34
    ensures var c := DefaultCategories(userId)[i];
      var src := if i < 19 then DEFAULT_EXPENSE_CATEGORIES[i] else DEFAULT_INCOME_CATEGORIES[i - 19];
      c.id == src.id && c.name == src.name && c.kind == src.kind && c.color == src.color && c.icon == src.icon
  {
    DefaultCategoriesShape(userId);
  }

  /** The ids are copied, so the five shared catalog ids each occur twice in the one insert payload. */
  lemma DefaultCategoriesDuplicateIds(userId: string)
    ensures var r := DefaultCategories(userId);
      r[0].id == r[19 + 7].id && r[1].id == r[19 + 11].id && r[2].id == r[19 + 8].id &&
      r[3].id == r[19 + 9].id && r[4].id == r[19 + 10].id
    ensures !Distinct(Ids(DefaultCategories(userId)))
  {
    DefaultCategoriesShape(userId);
    CatalogIdsCollide();
    var ids := Ids(DefaultCategories(userId));
    assert ids[0] == ids[19 + 7];
  }
}

/**
 * `src/hooks/useCategories.ts`: the category list and its editing state. Each handler builds a new list
 * with spread, `map` or `filter` and writes it to the `categories` state field; the writes to storage
 * are not modelled. The default list is a parameter of the mount step.
 */
module CategoryHook {
  import opened Wrappers
  import opened Seqs
  import opened ExpenseTypes

  /** `Partial<Category>`: a field that is `None` is absent from the patch. */
  datatype Patch = Patch(
    id: Option<string>, name: Option<string>, kind: Option<CategoryType>,
    userId: Option<string>, color: Option<string>, icon: Option<string>)

  /** `{}`. */
  const NO_CHANGE := Patch(None, None, None, None, None, None)

  /** A whole category as a patch: every field present. */
  function PatchOf(c: Category): (p: Patch)
    ensures p != NO_CHANGE
  {
    Patch(Some(c.id), Some(c.name), Some(c.kind), Some(c.userId), Some(c.color), c.icon)
  }

  /** `{ ...category, ...data }`: each field of the patch that is present replaces the category's own. */
  function Merge(c: Category, p: Patch): (r: Category)
    ensures p.id.Some? ==> r.id == p.id.value
    ensures p.id.None? ==> r.id == c.id
    ensures p.name.Some? ==> r.name == p.name.value
    ensures p.name.None? ==> r.name == c.name
    ensures p.kind.Some? ==> r.kind == p.kind.value
    ensures p.kind.None? ==> r.kind == c.kind
    ensures p.userId.Some? ==> r.userId == p.userId.value
    ensures p.userId.None? ==> r.userId == c.userId
    ensures p.color.Some? ==> r.color == p.color.value
    ensures p.color.None? ==> r.color == c.color
    ensures p.icon.Some? ==> r.icon == p.icon
    ensures p.icon.None? ==> r.icon == c.icon
  {
    Category(p.id.GetOr(c.id), p.name.GetOr(c.name), p.kind.GetOr(c.kind),
             p.userId.GetOr(c.userId), p.color.GetOr(c.color), if p.icon.Some? then p.icon else c.icon)
  }

  /** An empty patch changes nothing, and merging a patch twice is merging it once. */
  lemma MergeLaws(c: Category, p: Patch)
    ensures Merge(c, NO_CHANGE) == c
    ensures Merge(Merge(c, p), p) == Merge(c, p)
  {
  }

  /** Merging a whole category replaces the old one, except an icon the new one lacks. */
  lemma MergeWhole(c: Category, d: Category)
    ensures d.icon.Some? ==> Merge(c, PatchOf(d)) == d
    ensures d.icon.None? ==> Merge(c, PatchOf(d)) == d.(icon := c.icon)
  {
  }

  /** `Omit<Category, 'id'>`: what `addCategory` receives. */
  datatype CategoryInput = CategoryInput(name: string, kind: CategoryType, userId: string, color: string, icon: Option<string>)

  /** The category `addCategory` builds from its input and the generated id. */
  function WithId(input: CategoryInput, id: string): (c: Category)
    ensures c.id == id && c.name == input.name && c.kind == input.kind
    ensures c.userId == input.userId && c.color == input.color && c.icon == input.icon
  {
    Category(id, input.name, input.kind, input.userId, input.color, input.icon)
  }

  /** `categories.map(category => category.id === id ? { ...category, ...data } : category)`. */
  function UpdateList(cs: seq<Category>, id: string, data: Patch): (r: seq<Category>)
    ensures |r| == |cs|
    ensures forall i :: 0 <= i < |cs| ==> r[i] == if cs[i].id == id then Merge(cs[i], data) else cs[i]
  {
    seq(|cs|, (i: int) requires 0 <= i < |cs| => if cs[i].id == id then Merge(cs[i], data) else cs[i])
  }

  /** An update with the empty patch, or for an id no entry has, leaves the list as it was. */
  lemma UpdateListUnchanged(cs: seq<Category>, id: string, data: Patch)
    requires data == NO_CHANGE || forall i :: 0 <= i < |cs| ==> cs[i].id != id
    ensures UpdateList(cs, id, data) == cs
  {
  }

  /** Applying the same update twice is applying it once, as long as the patch does not change the id. */
  lemma UpdateListIdempotent(cs: seq<Category>, id: string, data: Patch)
    requires data.id.None? || data.id == Some(id)
    ensures UpdateList(UpdateList(cs, id, data), id, data) == UpdateList(cs, id, data)
  {
    var once := UpdateList(cs, id, data);
    forall i | 0 <= i < |cs|
      ensures UpdateList(once, id, data)[i] == once[i]
    {
      MergeLaws(cs[i], data);
    }
  }

  function HasOtherId(id: string): Category -> bool
  {
    (c: Category) => c.id != id
  }

  /** `categories.filter(category => category.id !== id)`. */
  function DeleteList(cs: seq<Category>, id: string): (r: seq<Category>)
    ensures |r| <= |cs|
    ensures forall c :: c in r <==> c in cs && c.id != id
  {
    Filter(cs, HasOtherId(id))
  }

  /** Deleting the same id again is a no-op. */
  lemma DeleteListIdempotent(cs: seq<Category>, id: string)
    ensures DeleteList(DeleteList(cs, id), id) == DeleteList(cs, id)
  {
    var once := DeleteList(cs, id);
    forall i | 0 <= i < |once|
      ensures HasOtherId(id)(once[i])
    {
      assert once[i] in once;
    }
    FilterAll(once, HasOtherId(id));
  }

  /** The list chosen on mount: the saved list, or the defaults when nothing was saved. */
  function InitialList(saved: seq<Category>, defaults: seq<Category>): (r: seq<Category>)
    ensures |saved| == 0 ==> r == defaults
    ensures |saved| > 0 ==> r == saved
  {
    if |saved| == 0 then defaults else saved
  }

  /** The hook's three state fields. */
  class CategoriesState {
    var categories: seq<Category>
    var isEditing: Option<string>
    var editData: Patch

    /** Nothing is being edited exactly when the edit data is empty; otherwise it carries the edited id. */
    predicate Valid()
      reads this
    {
      (isEditing.None? <==> editData == NO_CHANGE) &&
      (isEditing.Some? ==> editData.id == isEditing)
    }

    /** The initial state: no categories, nothing being edited. */
    constructor ()
      ensures Valid()
      ensures categories == [] && isEditing == None && editData == NO_CHANGE
    {
      categories := [];
      isEditing := None;
      editData := NO_CHANGE;
    }

    /** The mount effect. */
    method Mount(saved: seq<Category>, defaults: seq<Category>)
      requires Valid()
      modifies this
      ensures Valid()
      ensures categories == InitialList(saved, defaults)
      ensures isEditing == old(isEditing) && editData == old(editData)
    {
      categories := InitialList(saved, defaults);
    }

    /** `addCategory`: the new category, with the generated id, goes at the end. */
    method AddCategory(input: CategoryInput, id: string)
      requires Valid()
      modifies this
      ensures Valid()
      ensures categories == old(categories) + [WithId(input, id)]
      ensures isEditing == old(isEditing) && editData == old(editData)
    {
      categories := categories + [WithId(input, id)];
    }

    /** `updateCategory`: merge the patch into the entries with the id, then leave editing. */
    method UpdateCategory(id: string, data: Patch)
      requires Valid()
      modifies this
      ensures Valid()
      ensures categories == UpdateList(old(categories), id, data)
      ensures isEditing == None && editData == NO_CHANGE
    {
      categories := UpdateList(categories, id, data);
      isEditing := None;
      editData := NO_CHANGE;
    }

    /** `deleteCategory`. */
    method DeleteCategory(id: string)
      requires Valid()
      modifies this
      ensures Valid()
      ensures categories == DeleteList(old(categories), id)
      ensures isEditing == old(isEditing) && editData == old(editData)
    {
      categories := DeleteList(categories, id);
    }

    /** `startEditing`: remember the id and copy the whole category into the edit data. */
    method StartEditing(c: Category)
      requires Valid()
      modifies this
      ensures Valid()
      ensures isEditing == Some(c.id) && editData == PatchOf(c)
      ensures categories == old(categories)
    {
      isEditing := Some(c.id);
      editData := PatchOf(c);
    }

    /** `cancelEditing`. */
    method CancelEditing()
      requires Valid()
      modifies this
      ensures Valid()
      ensures isEditing == None && editData == NO_CHANGE
      ensures categories == old(categories)
    {
      isEditing := None;
      editData := NO_CHANGE;
    }
  }
}

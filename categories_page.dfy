/**
 * The "Asset Categories" page: its search filter, the new-category form and
 * the edit payload.
 */
module Categories {
  import opened Wrappers
  import opened Text
  import opened Lists
  import opened Forms
  import opened Models

  /** A category as the list endpoint returns it. */
  datatype CategoryView = CategoryView(id: string, name: string, description: Option<string>)

  /** The search keeps a category whose name, or non-empty description, contains the term. */
  predicate CategoryMatches(c: CategoryView, term: string) {
    || ContainsCI(c.name, term)
    || (c.description.Some? && c.description.value != "" && ContainsCI(c.description.value, term))
  }

  /** `filteredCategories`. */
  function FilteredCategories(s: seq<CategoryView>, term: string): (r: seq<CategoryView>)
    ensures SubSeq(r, s)
    ensures forall c :: c in r ==> c in s && CategoryMatches(c, term)
    ensures forall c :: c in s && CategoryMatches(c, term) ==> c in r
    ensures forall c :: c in s ==> multiset(r)[c] == if CategoryMatches(c, term) then multiset(s)[c] else 0
  {
    Filter(s, c => CategoryMatches(c, term))
  }

  /** The "Showing shown of total categories" footer. */
  function CategoriesFooter(s: seq<CategoryView>, term: string): (c: Counts)
    ensures c.total == |s| && c.shown == |FilteredCategories(s, term)|
    ensures c.shown == c.total <==> forall x :: x in s ==> CategoryMatches(x, term)
  {
    Footer(s, c => CategoryMatches(c, term))
  }

  /** Without a description only the name is searched. */
  lemma NullDescriptionNeverMatches(c: CategoryView, term: string)
    requires c.description.None?
    ensures CategoryMatches(c, term) <==> ContainsCI(c.name, term)
  {
  }

  /** An empty search shows every category. */
  lemma EmptySearchShowsAllCategories(s: seq<CategoryView>)
    ensures FilteredCategories(s, "") == s
  {
    forall c | c in s ensures CategoryMatches(c, "") {
      ContainsCIEmpty(c.name);
    }
  }

  /** Typing more of the term only removes categories. */
  lemma CategorySearchNarrows(s: seq<CategoryView>, term: string, more: string)
    ensures SubSeq(FilteredCategories(s, term + more), FilteredCategories(s, term))
  {
    forall c | c in s && CategoryMatches(c, term + more) ensures CategoryMatches(c, term) {
      if ContainsCI(c.name, term + more) {
        ContainsCINarrowing(c.name, term, more);
      } else {
        ContainsCINarrowing(c.description.value, term, more);
      }
    }
    FilterMonotone(s, c => CategoryMatches(c, term + more), c => CategoryMatches(c, term));
  }

  /** The new-category dialog's fields, posted as they are. */
  datatype CategoryForm = CategoryForm(name: string, description: string)

  const EmptyCategoryForm := CategoryForm("", "")

  /**
   * The page checks no field and an empty name is not null: a blank form
   * creates a category named "", and a second blank form is refused only
   * because that name is taken.
   */
  lemma BlankFormsCollideOnName(categories: map<Id, AssetCategory>, id1: Id, id2: Id)
    requires id1 !in categories && id2 !in categories && id1 != id2
    requires !KeyTaken(categories, CategoryName, "")
    ensures var first := InsertCategory(categories, id1, Some(EmptyCategoryForm.name), Some(EmptyCategoryForm.description));
      && first.Ok? && first.value[id1] == AssetCategory("", Some(""))
      && InsertCategory(first.value, id2, Some(EmptyCategoryForm.name), Some(EmptyCategoryForm.description)) == Err(UniqueViolation("name"))
  {
    var first := InsertCategory(categories, id1, Some(""), Some(""));
    assert CategoryName(first.value[id1]) == "";
  }

  /** The body `handleEditCategory` posts: exactly the name and the description. */
  datatype CategoryEdit = CategoryEdit(name: string, description: Option<string>)

  function ApplyCategoryEdit(c: CategoryView, d: CategoryEdit): CategoryView {
    c.(name := d.name, description := d.description)
  }

  /** The edit payload, copied from the edited row: written back it gives that row again. */
  function CategoryEditOf(c: CategoryView): (d: CategoryEdit)
    ensures ApplyCategoryEdit(c, d) == c
  {
    CategoryEdit(c.name, c.description)
  }

  /** The page's dialog state. */
  class CategoriesPage {
    var newCategory: CategoryForm
    var addOpen: bool
    var editing: Option<CategoryView>
    var editOpen: bool

    constructor ()
      ensures newCategory == EmptyCategoryForm && !addOpen && editing.None? && !editOpen
    {
      newCategory := EmptyCategoryForm;
      addOpen := false;
      editing := None;
      editOpen := false;
    }

    /** `handleAddCategory`: post the form; on success close the dialog and empty the form. */
    method AddCategory(posted: bool) returns (sent: CategoryForm, toast: Toast)
      modifies this
      ensures sent == old(newCategory)
      ensures editing == old(editing) && editOpen == old(editOpen)
      ensures posted ==> toast == Success("Category created successfully") && newCategory == EmptyCategoryForm && !addOpen
      ensures !posted ==> toast == Failure("Failed to create category") && newCategory == old(newCategory) && addOpen == old(addOpen)
    {
      sent := newCategory;
      if !posted {
        return sent, Failure("Failed to create category");
      }
      toast := Success("Category created successfully");
      addOpen := false;
      newCategory := EmptyCategoryForm;
    }

    /** `handleEditCategory`: nothing without a row being edited; on success close the dialog and drop the row. */
    method EditCategory(posted: bool) returns (sent: Option<(Id, CategoryEdit)>, toast: Option<Toast>)
      modifies this
      ensures newCategory == old(newCategory) && addOpen == old(addOpen)
      ensures old(editing).None? ==> sent.None? && toast.None? && editing == old(editing) && editOpen == old(editOpen)
      ensures old(editing).Some? ==> sent == Some((old(editing).value.id, CategoryEditOf(old(editing).value)))
      ensures old(editing).Some? && posted ==> toast == Some(Success("Category updated successfully")) && editing.None? && !editOpen
      ensures old(editing).Some? && !posted ==>
        toast == Some(Failure("Failed to update category")) && editing == old(editing) && editOpen == old(editOpen)
    {
      if editing.None? {
        return None, None;
      }
      var c := editing.value;
      sent := Some((c.id, CategoryEditOf(c)));
      if !posted {
        return sent, Some(Failure("Failed to update category"));
      }
      toast := Some(Success("Category updated successfully"));
      editOpen := false;
      editing := None;
    }
  }
}

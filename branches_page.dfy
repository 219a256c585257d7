/**
 * The "Branches" page: its search filter, the new-branch form and
 * the edit payload.
 */
module Branches {
  import opened Wrappers
  import opened Text
  import opened Lists
  import opened Forms
  import opened Models

  /** A branch as the list endpoint returns it. */
  datatype BranchView = BranchView(id: string, name: string, location: Option<string>)

  /** The search keeps a branch whose name, or non-empty location, contains the term. */
  predicate BranchMatches(b: BranchView, term: string) {
    || ContainsCI(b.name, term)
    || (b.location.Some? && b.location.value != "" && ContainsCI(b.location.value, term))
  }

  /** `filteredBranches`. */
  function FilteredBranches(s: seq<BranchView>, term: string): (r: seq<BranchView>)
    ensures SubSeq(r, s)
    ensures forall b :: b in r ==> b in s && BranchMatches(b, term)
    ensures forall b :: b in s && BranchMatches(b, term) ==> b in r
    ensures forall b :: b in s ==> multiset(r)[b] == if BranchMatches(b, term) then multiset(s)[b] else 0
  {
    Filter(s, b => BranchMatches(b, term))
  }

  /** The "Showing shown of total branches" footer. */
  function BranchesFooter(s: seq<BranchView>, term: string): (b: Counts)
    ensures b.total == |s| && b.shown == |FilteredBranches(s, term)|
    ensures b.shown == b.total <==> forall x :: x in s ==> BranchMatches(x, term)
  {
    Footer(s, b => BranchMatches(b, term))
  }

  /** Without a location only the name is searched. */
  lemma NullLocationNeverMatches(b: BranchView, term: string)
    requires b.location.None?
    ensures BranchMatches(b, term) <==> ContainsCI(b.name, term)
  {
  }

  /** An empty search shows every branch. */
  lemma EmptySearchShowsAllBranches(s: seq<BranchView>)
    ensures FilteredBranches(s, "") == s
  {
    forall b | b in s ensures BranchMatches(b, "") {
      ContainsCIEmpty(b.name);
    }
  }

  /** Typing more of the term only removes branches. */
  lemma BranchSearchNarrows(s: seq<BranchView>, term: string, more: string)
    ensures SubSeq(FilteredBranches(s, term + more), FilteredBranches(s, term))
  {
    forall b | b in s && BranchMatches(b, term + more) ensures BranchMatches(b, term) {
      if ContainsCI(b.name, term + more) {
        ContainsCINarrowing(b.name, term, more);
      } else {
        ContainsCINarrowing(b.location.value, term, more);
      }
    }
    FilterMonotone(s, b => BranchMatches(b, term + more), b => BranchMatches(b, term));
  }

  /** The new-branch dialog's fields, posted as they are. */
  datatype BranchForm = BranchForm(name: string, location: string)

  const EmptyBranchForm := BranchForm("", "")

  /**
   * The page checks no field and an empty name is not null: a blank form
   * creates a branch named "", and a second blank form is refused only
   * because that name is taken.
   */
  lemma BlankFormsCollideOnName(branches: map<Id, Branch>, id1: Id, id2: Id)
    requires id1 !in branches && id2 !in branches && id1 != id2
    requires !KeyTaken(branches, BranchName, "")
    ensures var first := InsertBranch(branches, id1, Some(EmptyBranchForm.name), Some(EmptyBranchForm.location));
      && first.Ok? && first.value[id1] == Branch("", Some(""))
      && InsertBranch(first.value, id2, Some(EmptyBranchForm.name), Some(EmptyBranchForm.location)) == Err(UniqueViolation("name"))
  {
    var first := InsertBranch(branches, id1, Some(""), Some(""));
    assert BranchName(first.value[id1]) == "";
  }

  /** The body `handleEditBranch` posts: exactly the name and the location. */
  datatype BranchEdit = BranchEdit(name: string, location: Option<string>)

  function ApplyBranchEdit(b: BranchView, d: BranchEdit): BranchView {
    b.(name := d.name, location := d.location)
  }

  /** The edit payload, copied from the edited row: written back it gives that row again. */
  function BranchEditOf(b: BranchView): (d: BranchEdit)
    ensures ApplyBranchEdit(b, d) == b
  {
    BranchEdit(b.name, b.location)
  }

  /** The page's dialog state. */
  class BranchesPage {
    var newBranch: BranchForm
    var addOpen: bool
    var editing: Option<BranchView>
    var editOpen: bool

    constructor ()
      ensures newBranch == EmptyBranchForm && !addOpen && editing.None? && !editOpen
    {
      newBranch := EmptyBranchForm;
      addOpen := false;
      editing := None;
      editOpen := false;
    }

    /** `handleAddBranch`: post the form; on success close the dialog and empty the form. */
    method AddBranch(posted: bool) returns (sent: BranchForm, toast: Toast)
      modifies this
      ensures sent == old(newBranch)
      ensures editing == old(editing) && editOpen == old(editOpen)
      ensures posted ==> toast == Success("Branch created successfully") && newBranch == EmptyBranchForm && !addOpen
      ensures !posted ==> toast == Failure("Failed to create branch") && newBranch == old(newBranch) && addOpen == old(addOpen)
    {
      sent := newBranch;
      if !posted {
        return sent, Failure("Failed to create branch");
      }
      toast := Success("Branch created successfully");
      addOpen := false;
      newBranch := EmptyBranchForm;
    }

    /** `handleEditBranch`: nothing without a row being edited; on success close the dialog and drop the row. */
    method EditBranch(posted: bool) returns (sent: Option<(Id, BranchEdit)>, toast: Option<Toast>)
      modifies this
      ensures newBranch == old(newBranch) && addOpen == old(addOpen)
      ensures old(editing).None? ==> sent.None? && toast.None? && editing == old(editing) && editOpen == old(editOpen)
      ensures old(editing).Some? ==> sent == Some((old(editing).value.id, BranchEditOf(old(editing).value)))
      ensures old(editing).Some? && posted ==> toast == Some(Success("Branch updated successfully")) && editing.None? && !editOpen
      ensures old(editing).Some? && !posted ==>
        toast == Some(Failure("Failed to update branch")) && editing == old(editing) && editOpen == old(editOpen)
    {
      if editing.None? {
        return None, None;
      }
      var b := editing.value;
      sent := Some((b.id, BranchEditOf(b)));
      if !posted {
        return sent, Some(Failure("Failed to update branch"));
      }
      toast := Some(Success("Branch updated successfully"));
      editOpen := false;
      editing := None;
    }
  }
}

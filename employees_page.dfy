/**
 * The "Employees" page: its search filter, the new-employee form, the edit
 * payload and the branch shown in the detail dialog.
 */
module Employees {
  import opened Wrappers
  import opened Text
  import opened Lists
  import opened Forms
  import opened Models

  datatype BranchSummary = BranchSummary(name: string)

  /** An employee as the list endpoint returns it, with its joined branch. */
  datatype EmployeeView = EmployeeView(
    id: string,
    employee_code: string,
    full_name: string,
    email: Option<string>,
    phone: Option<string>,
    designation: Option<string>,
    department: Option<string>,
    branch_id: Option<string>,
    is_active: bool,
    branch: Option<BranchSummary>)

  // ------------------------------------------------------------------ search

  /** The search keeps an employee whose name, code or (present) email contains the term. */
  predicate EmployeeMatches(e: EmployeeView, term: string) {
    || ContainsCI(e.full_name, term)
    || ContainsCI(e.employee_code, term)
    || (e.email.Some? && ContainsCI(e.email.value, term))
  }

  /** `filteredEmployees`. */
  function FilteredEmployees(s: seq<EmployeeView>, term: string): (r: seq<EmployeeView>)
    ensures SubSeq(r, s)
    ensures forall e :: e in r ==> e in s && EmployeeMatches(e, term)
    ensures forall e :: e in s && EmployeeMatches(e, term) ==> e in r
    ensures forall e :: e in s ==> multiset(r)[e] == if EmployeeMatches(e, term) then multiset(s)[e] else 0
  {
    Filter(s, e => EmployeeMatches(e, term))
  }

  /** The "Showing shown of total employees" footer. */
  function EmployeesFooter(s: seq<EmployeeView>, term: string): (c: Counts)
    ensures c.total == |s| && c.shown == |FilteredEmployees(s, term)|
    ensures c.shown == c.total <==> forall e :: e in s ==> EmployeeMatches(e, term)
  {
    Footer(s, e => EmployeeMatches(e, term))
  }

  /** A missing email never matches: only name and code are searched then. */
  lemma NullEmailNeverMatches(e: EmployeeView, term: string)
    requires e.email.None?
    ensures EmployeeMatches(e, term) <==> ContainsCI(e.full_name, term) || ContainsCI(e.employee_code, term)
  {
  }

  /** An empty search shows every employee. */
  lemma EmptySearchShowsAllEmployees(s: seq<EmployeeView>)
    ensures FilteredEmployees(s, "") == s
  {
    forall e | e in s ensures EmployeeMatches(e, "") {
      ContainsCIEmpty(e.full_name);
    }
  }

  /** Typing more of the term only removes employees. */
  lemma EmployeeSearchNarrows(s: seq<EmployeeView>, term: string, more: string)
    ensures SubSeq(FilteredEmployees(s, term + more), FilteredEmployees(s, term))
  {
    forall e | e in s && EmployeeMatches(e, term + more) ensures EmployeeMatches(e, term) {
      if ContainsCI(e.full_name, term + more) {
        ContainsCINarrowing(e.full_name, term, more);
      } else if ContainsCI(e.employee_code, term + more) {
        ContainsCINarrowing(e.employee_code, term, more);
      } else {
        ContainsCINarrowing(e.email.value, term, more);
      }
    }
    FilterMonotone(s, e => EmployeeMatches(e, term + more), e => EmployeeMatches(e, term));
  }

  // -------------------------------------------------------- the detail dialog

  const NotAssigned := "Not assigned"

  /** `Branch?.name || branch_id || "Not assigned"`. */
  function BranchDisplay(e: EmployeeView): (r: string)
    ensures r != ""
    ensures e.branch.Some? && e.branch.value.name != "" ==> r == e.branch.value.name
    ensures (e.branch.None? || e.branch.value.name == "") && e.branch_id.Some? && e.branch_id.value != "" ==> r == e.branch_id.value
    ensures (e.branch.None? || e.branch.value.name == "") && (e.branch_id.None? || e.branch_id.value == "") ==> r == NotAssigned
  {
    var name := if e.branch.Some? then Some(e.branch.value.name) else None;
    OrElse(name, OrElse(e.branch_id, NotAssigned))
  }

  // ----------------------------------------------------------- the two forms

  /** The new-employee dialog's fields. */
  datatype EmployeeForm = EmployeeForm(
    employee_code: string,
    full_name: string,
    email: string,
    phone: string,
    designation: string,
    department: string,
    branch_id: string,
    is_active: bool)

  const DefaultEmployeeForm := EmployeeForm("", "", "", "", "", "", "", true)

  /** Every field of an insert body is present: none is sent as null or left out. */
  predicate AllGiven(v: EmployeeValues) {
    && v.employee_code.Some? && v.full_name.Some? && v.email.Some? && v.phone.Some?
    && v.designation.Some? && v.department.Some? && v.branch_id.Some? && v.is_active.Some?
  }

  /** The form a fully present insert body was read from. */
  function FormOfPosted(v: EmployeeValues): EmployeeForm
    requires AllGiven(v)
  {
    EmployeeForm(v.employee_code.value, v.full_name.value, v.email.value, v.phone.value, v.designation.value,
                 v.department.value, v.branch_id.value, v.is_active.value)
  }

  /**
   * `createEmployee(newEmployee)` posts the form as it is: every field
   * reaches the insert, empty or not, and the form can be read back from it.
   */
  function PostedEmployee(f: EmployeeForm): (v: EmployeeValues)
    ensures AllGiven(v) && FormOfPosted(v) == f
  {
    EmployeeValues(Some(f.employee_code), Some(f.full_name), Some(f.email), Some(f.phone), Some(f.designation),
                   Some(f.department), Some(f.branch_id), Some(f.is_active))
  }

  /** Every fully present body is the one some form posts. */
  lemma PostedOfFormOfPosted(v: EmployeeValues)
    requires AllGiven(v)
    ensures PostedEmployee(FormOfPosted(v)) == v
  {
  }

  /**
   * The page checks no field, and an empty string is not null: a blank form
   * posts branch_id "", which names no branch, so the insert is always refused;
   * when the key and code are free, it is refused for that branch key.
   */
  lemma BlankEmployeeFormIsRefused(employees: map<Id, Employee>, id: Id, branchIds: set<Id>)
    requires "" !in branchIds
    ensures InsertEmployee(employees, id, PostedEmployee(DefaultEmployeeForm), branchIds).Err?
    ensures id !in employees && !KeyTaken(employees, EmployeeCode, "") ==>
      InsertEmployee(employees, id, PostedEmployee(DefaultEmployeeForm), branchIds) == Err(ForeignKeyViolation("branch_id"))
  {
    var v := PostedEmployee(DefaultEmployeeForm);
    assert v.branch_id == Some("");
  }

  /** The body `handleEditEmployee` posts: the eight editable fields. */
  datatype EmployeeEdit = EmployeeEdit(
    employee_code: string,
    full_name: string,
    email: Option<string>,
    phone: Option<string>,
    designation: Option<string>,
    department: Option<string>,
    branch_id: Option<string>,
    is_active: bool)

  /** The fields an edit writes back onto the row it came from. */
  function ApplyEmployeeEdit(e: EmployeeView, d: EmployeeEdit): EmployeeView {
    e.(employee_code := d.employee_code, full_name := d.full_name, email := d.email, phone := d.phone,
       designation := d.designation, department := d.department, branch_id := d.branch_id, is_active := d.is_active)
  }

  /** The edit payload, copied from the edited row: written back it gives that row again. */
  function EmployeeEditOf(e: EmployeeView): (d: EmployeeEdit)
    ensures ApplyEmployeeEdit(e, d) == e
  {
    EmployeeEdit(e.employee_code, e.full_name, e.email, e.phone, e.designation, e.department, e.branch_id, e.is_active)
  }

  /** The page's dialog state. */
  class EmployeesPage {
    var newEmployee: EmployeeForm
    var addOpen: bool
    var editing: Option<EmployeeView>
    var editOpen: bool

    constructor ()
      ensures newEmployee == DefaultEmployeeForm && !addOpen && editing.None? && !editOpen
    {
      newEmployee := DefaultEmployeeForm;
      addOpen := false;
      editing := None;
      editOpen := false;
    }

    /** `handleAddEmployee`: post the form; on success close the dialog and reset the form. */
    method AddEmployee(posted: bool) returns (sent: EmployeeValues, toast: Toast)
      modifies this
      ensures sent == PostedEmployee(old(newEmployee))
      ensures editing == old(editing) && editOpen == old(editOpen)
      ensures posted ==> toast == Success("Employee created successfully") && newEmployee == DefaultEmployeeForm && !addOpen
      ensures !posted ==> toast == Failure("Failed to create employee") && newEmployee == old(newEmployee) && addOpen == old(addOpen)
    {
      sent := PostedEmployee(newEmployee);
      if !posted {
        return sent, Failure("Failed to create employee");
      }
      toast := Success("Employee created successfully");
      addOpen := false;
      newEmployee := DefaultEmployeeForm;
    }

    /** `handleEditEmployee`: nothing without a row being edited; on success close the dialog and drop the row. */
    method EditEmployee(posted: bool) returns (sent: Option<(Id, EmployeeEdit)>, toast: Option<Toast>)
      modifies this
      ensures newEmployee == old(newEmployee) && addOpen == old(addOpen)
      ensures old(editing).None? ==> sent.None? && toast.None? && editing == old(editing) && editOpen == old(editOpen)
      ensures old(editing).Some? ==> sent == Some((old(editing).value.id, EmployeeEditOf(old(editing).value)))
      ensures old(editing).Some? && posted ==> toast == Some(Success("Employee updated successfully")) && editing.None? && !editOpen
      ensures old(editing).Some? && !posted ==>
        toast == Some(Failure("Failed to update employee")) && editing == old(editing) && editOpen == old(editOpen)
    {
      if editing.None? {
        return None, None;
      }
      var e := editing.value;
      sent := Some((e.id, EmployeeEditOf(e)));
      if !posted {
        return sent, Some(Failure("Failed to update employee"));
      }
      toast := Some(Success("Employee updated successfully"));
      editOpen := false;
      editing := None;
    }
  }
}

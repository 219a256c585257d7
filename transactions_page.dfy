/**
 * The "Asset Transactions" page: its search filter, the badge colour of a
 * transaction type, and the new-transaction dialog, which validates its form
 * and posts one of the three lifecycle requests.
 */
module Transactions {
  import opened Wrappers
  import opened Text
  import opened Lists
  import opened Forms
  import opened Models
  import TransactionRoutes
  import LedgerProperties

  /** The joined rows the transaction list shows with each transaction. */
  datatype AssetSummary = AssetSummary(asset_code: string, name: string)
  datatype EmployeeSummary = EmployeeSummary(full_name: string)
  datatype BranchSummary = BranchSummary(name: string)

  /** A transaction as the list endpoint returns it. */
  datatype TransactionView = TransactionView(
    id: string,
    asset_id: string,
    transaction_type: string,
    employee_id: Option<string>,
    branch_id: string,
    transaction_date: string,
    notes: Option<string>,
    asset: Option<AssetSummary>,
    employee: Option<EmployeeSummary>,
    branch: Option<BranchSummary>)

  // ------------------------------------------------------------------ search

  /** The search keeps a transaction whose type, asset name or employee name contains the term. */
  predicate TransactionMatches(t: TransactionView, term: string) {
    || ContainsCI(t.transaction_type, term)
    || (t.asset.Some? && ContainsCI(t.asset.value.name, term))
    || (t.employee.Some? && ContainsCI(t.employee.value.full_name, term))
  }

  /** `filteredTransactions`. */
  function FilteredTransactions(ts: seq<TransactionView>, term: string): (r: seq<TransactionView>)
    ensures SubSeq(r, ts)
    ensures forall t :: t in r ==> t in ts && TransactionMatches(t, term)
    ensures forall t :: t in ts && TransactionMatches(t, term) ==> t in r
    ensures forall t :: t in ts ==> multiset(r)[t] == if TransactionMatches(t, term) then multiset(ts)[t] else 0
  {
    Filter(ts, t => TransactionMatches(t, term))
  }

  /** The "Showing shown of total transactions" footer. */
  function TransactionsFooter(ts: seq<TransactionView>, term: string): (c: Counts)
    ensures c.total == |ts| && c.shown == |FilteredTransactions(ts, term)|
    ensures c.shown == c.total <==> forall t :: t in ts ==> TransactionMatches(t, term)
  {
    Footer(ts, t => TransactionMatches(t, term))
  }

  /** Without a joined asset or employee, only the type can match. */
  lemma AbsentJoinsNeverMatch(t: TransactionView, term: string)
    requires t.asset.None? && t.employee.None?
    ensures TransactionMatches(t, term) <==> ContainsCI(t.transaction_type, term)
  {
  }

  /** An empty search shows the whole list. */
  lemma EmptySearchShowsAllTransactions(ts: seq<TransactionView>)
    ensures FilteredTransactions(ts, "") == ts
  {
    forall t | t in ts ensures TransactionMatches(t, "") {
      ContainsCIEmpty(t.transaction_type);
    }
  }

  /** Typing more of the term can only remove rows, never add or reorder them. */
  lemma TransactionSearchNarrows(ts: seq<TransactionView>, term: string, more: string)
    ensures SubSeq(FilteredTransactions(ts, term + more), FilteredTransactions(ts, term))
  {
    forall t | t in ts && TransactionMatches(t, term + more) ensures TransactionMatches(t, term) {
      if ContainsCI(t.transaction_type, term + more) {
        ContainsCINarrowing(t.transaction_type, term, more);
      } else if t.asset.Some? && ContainsCI(t.asset.value.name, term + more) {
        ContainsCINarrowing(t.asset.value.name, term, more);
      } else {
        ContainsCINarrowing(t.employee.value.full_name, term, more);
      }
    }
    FilterMonotone(ts, t => TransactionMatches(t, term + more), t => TransactionMatches(t, term));
  }

  // ------------------------------------------------------------------- badges

  const IssueColor := "bg-primary/10 text-primary"
  const ReturnColor := "bg-warning/10 text-warning"
  const ScrapColor := "bg-destructive/10 text-destructive"
  const OtherColor := "bg-secondary/10 text-secondary"

  /** `getTransactionTypeColor`. */
  function TransactionTypeColor(t: string): (r: string)
    ensures ParseType(t) == Some(Issue) <==> r == IssueColor
    ensures ParseType(t) == Some(Return) <==> r == ReturnColor
    ensures ParseType(t) == Some(Scrap) <==> r == ScrapColor
    ensures ParseType(t).None? <==> r == OtherColor
  {
    if t == "issue" then IssueColor
    else if t == "return" then ReturnColor
    else if t == "scrap" then ScrapColor
    else OtherColor
  }

  /** The badge text: the type with its first letter upper-cased. */
  lemma TypeLabels()
    ensures Capitalize(TypeName(Issue)) == "Issue"
    ensures Capitalize(TypeName(Return)) == "Return"
    ensures Capitalize(TypeName(Scrap)) == "Scrap"
  {
  }

  // ------------------------------------------------------ new-transaction form

  /** The dialog's fields, every one a string as the inputs hold it. */
  datatype TransactionForm = TransactionForm(asset_id: string, employee_id: string, branch_id: string, notes: string)

  const EmptyForm := TransactionForm("", "", "", "")

  const MissingFields := "Please fill in all required fields"
  const MissingAsset := "Please select an asset"
  const Created := "Transaction created successfully"
  const CreateFailed := "Failed to create transaction"

  /** The employee and branch pickers are shown for an issue only. */
  predicate ShowsHolderInputs(k: TransactionType) {
    k == Issue
  }

  /** The request `handleCreateTransaction` posts for the selected type, or the message it shows instead. */
  function BuildCall(k: TransactionType, f: TransactionForm): (r: Result<TransactionRoutes.Call, string>)
    ensures r.Ok? <==> f.asset_id != "" && (ShowsHolderInputs(k) ==> f.employee_id != "" && f.branch_id != "")
    ensures r.Err? ==> r.error == (if k == Issue then MissingFields else MissingAsset)
    ensures r.Ok? ==> TransactionRoutes.CallKind(r.value) == k && TransactionRoutes.CallAsset(r.value) == f.asset_id
    ensures r.Ok? && r.value.IssueCall? ==>
      && r.value.issue.employee_id == TransactionRoutes.Given(f.employee_id)
      && r.value.issue.branch_id == TransactionRoutes.Given(f.branch_id)
      && r.value.issue.notes == NonEmpty(f.notes)
    ensures r.Ok? && r.value.ReturnCall? ==> r.value.ret.notes == NonEmpty(f.notes)
    ensures r.Ok? && r.value.ScrapCall? ==> r.value.scrap.notes == NonEmpty(f.notes)
  {
    match k
    case Issue =>
      if f.asset_id == "" || f.employee_id == "" || f.branch_id == "" then Err(MissingFields)
      else Ok(TransactionRoutes.IssueCall(TransactionRoutes.IssueRequest(f.asset_id, TransactionRoutes.Given(f.employee_id), TransactionRoutes.Given(f.branch_id), NonEmpty(f.notes))))
    case Return =>
      if f.asset_id == "" then Err(MissingAsset)
      else Ok(TransactionRoutes.ReturnCall(TransactionRoutes.AssetRequest(f.asset_id, NonEmpty(f.notes))))
    case Scrap =>
      if f.asset_id == "" then Err(MissingAsset)
      else Ok(TransactionRoutes.ScrapCall(TransactionRoutes.AssetRequest(f.asset_id, NonEmpty(f.notes))))
  }

  /** The notes of a request. */
  function CallNotes(c: TransactionRoutes.Call): Option<string> {
    match c
    case IssueCall(req) => req.notes
    case ReturnCall(req) => req.notes
    case ScrapCall(req) => req.notes
  }

  /** The page never posts an empty note. */
  lemma NoEmptyNotesPosted(k: TransactionType, f: TransactionForm)
    requires BuildCall(k, f).Ok?
    ensures CallNotes(BuildCall(k, f).value) != Some("")
  {
  }

  /** What is kept in the hidden pickers has no effect on a return or scrap. */
  lemma HiddenInputsIgnored(k: TransactionType, f: TransactionForm, employee: string, branch: string)
    requires !ShowsHolderInputs(k)
    ensures BuildCall(k, f.(employee_id := employee, branch_id := branch)) == BuildCall(k, f)
  {
  }

  /**
   * The pickers list every loaded asset, employee and branch: the page's
   * choices are the tables' keys, whatever an asset's status.
   */
  predicate PageOffers(s: TransactionRoutes.Snapshot, k: TransactionType, f: TransactionForm) {
    && f.asset_id in s.assets
    && (ShowsHolderInputs(k) ==> f.employee_id in s.employees && f.branch_id in s.branches)
  }

  /** A request built from the page's choices names known rows, so it keeps holders known and keys valid. */
  lemma PageCallNamesKnownRows(s: TransactionRoutes.Snapshot, k: TransactionType, f: TransactionForm)
    requires PageOffers(s, k, f) && BuildCall(k, f).Ok?
    ensures LedgerProperties.NamesKnownRows(s, BuildCall(k, f).value)
  {
  }

  /**
   * The page does not apply the status guards of the server's forms: it
   * offers a stock asset for return, and the return succeeds and is logged.
   */
  lemma PageReturnsStockAsset(s: TransactionRoutes.Snapshot, id: Id, now: Timestamp)
    requires id != "" && id in s.assets && s.assets[id].status == Stock
    ensures PageOffers(s, Return, EmptyForm.(asset_id := id)) && BuildCall(Return, EmptyForm.(asset_id := id)).Ok?
    ensures
      && !TransactionRoutes.Offered(s, TransactionRoutes.ReturnCall(TransactionRoutes.AssetRequest(id, None)))
      && TransactionRoutes.ReturnAsset(s, TransactionRoutes.AssetRequest(id, None), now, TransactionRoutes.Outcomes(true, true, true)).response
         == TransactionRoutes.Redirect(TransactionRoutes.ListPath)
  {
  }

  /** The dialog's state. */
  class TransactionsPage {
    var transactionType: TransactionType
    var form: TransactionForm
    var dialogOpen: bool

    constructor ()
      ensures transactionType == Issue && form == EmptyForm && !dialogOpen
    {
      transactionType := Issue;
      form := EmptyForm;
      dialogOpen := false;
    }

    /**
     * `handleCreateTransaction`: validate, post, and on success close the
     * dialog and clear the form. `posted` says whether the request succeeded.
     */
    method CreateTransaction(posted: bool) returns (sent: Option<TransactionRoutes.Call>, toast: Toast)
      modifies this
      ensures transactionType == old(transactionType)
      ensures BuildCall(old(transactionType), old(form)).Err? ==>
        sent.None? && toast == Failure(BuildCall(old(transactionType), old(form)).error)
        && form == old(form) && dialogOpen == old(dialogOpen)
      ensures BuildCall(old(transactionType), old(form)).Ok? ==> sent == Some(BuildCall(old(transactionType), old(form)).value)
      ensures BuildCall(old(transactionType), old(form)).Ok? && posted ==>
        toast == Success(Created) && form == EmptyForm && !dialogOpen
      ensures BuildCall(old(transactionType), old(form)).Ok? && !posted ==>
        toast == Failure(CreateFailed) && form == old(form) && dialogOpen == old(dialogOpen)
    {
      var call: TransactionRoutes.Call;
      match transactionType {
        case Issue =>
          if form.asset_id == "" || form.employee_id == "" || form.branch_id == "" {
            return None, Failure(MissingFields);
          }
          call := TransactionRoutes.IssueCall(TransactionRoutes.IssueRequest(form.asset_id, TransactionRoutes.Given(form.employee_id), TransactionRoutes.Given(form.branch_id), NonEmpty(form.notes)));
        case Return =>
          if form.asset_id == "" {
            return None, Failure(MissingAsset);
          }
          call := TransactionRoutes.ReturnCall(TransactionRoutes.AssetRequest(form.asset_id, NonEmpty(form.notes)));
        case Scrap =>
          if form.asset_id == "" {
            return None, Failure(MissingAsset);
          }
          call := TransactionRoutes.ScrapCall(TransactionRoutes.AssetRequest(form.asset_id, NonEmpty(form.notes)));
      }
      sent := Some(call);
      if !posted {
        return sent, Failure(CreateFailed);
      }
      toast := Success(Created);
      dialogOpen := false;
      form := EmptyForm;
    }
  }
}

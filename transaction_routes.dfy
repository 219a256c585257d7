/**
 * The asset lifecycle handlers of routes/transactions.js.
 *
 * `POST /issue`, `/return` and `/scrap` each look the asset up, update its
 * lifecycle columns, then insert one transaction row. There is no status
 * guard and no rollback: the only restriction on which asset a handler is
 * applied to is the set of choices the matching `GET` form offers.
 *
 * Each handler is specified by a function from the database before the call
 * to a `Step` (the response and the database after it); the class
 * `AssetLedger` holds the same tables as mutable fields and its methods do
 * the handlers' work step by step, proved equal to those functions.
 *
 * Whether the store answers the lookup and accepts each of the two writes (a
 * malformed key, a foreign key it rejects, a lost connection) is not decided
 * here: it is the caller-supplied `Outcomes`.
 */
module TransactionRoutes {
  import opened Wrappers
  import opened Models

  /**
   * A key field of a request body: absent (undefined once destructured),
   * an explicit JSON `null`, or a value.
   */
  datatype Field = Missing | Null | Given(id: Id)

  /** The column `instance.update({col: f})` leaves: an undefined value is dropped, so the column keeps `current`. */
  function UpdateValue(f: Field, current: Option<Id>): Option<Id> {
    match f
    case Missing => current
    case Null => None
    case Given(id) => Some(id)
  }

  /** The column `Model.create({col: f})` stores: undefined and null both become NULL. */
  function CreateValue(f: Field): Option<Id> {
    if f.Given? then Some(f.id) else None
  }

  /** The body of `POST /transactions/issue`. */
  datatype IssueRequest = IssueRequest(asset_id: Id, employee_id: Field, branch_id: Field, notes: Option<string>)

  /** The body of `POST /transactions/return` and `POST /transactions/scrap`. */
  datatype AssetRequest = AssetRequest(asset_id: Id, notes: Option<string>)

  datatype Call = IssueCall(issue: IssueRequest) | ReturnCall(ret: AssetRequest) | ScrapCall(scrap: AssetRequest)

  function CallAsset(c: Call): Id {
    match c
    case IssueCall(r) => r.asset_id
    case ReturnCall(r) => r.asset_id
    case ScrapCall(r) => r.asset_id
  }

  function CallKind(c: Call): TransactionType {
    match c
    case IssueCall(_) => Issue
    case ReturnCall(_) => Return
    case ScrapCall(_) => Scrap
  }

  /**
   * Whether the store answers `findByPk` without throwing, then accepts the
   * asset update, then the transaction insert.
   */
  datatype Outcomes = Outcomes(lookupOk: bool, updateOk: bool, insertOk: bool)

  /** `res.redirect(..)`, `res.status(404).send(..)` or `res.status(500).send(..)`. */
  datatype Response = Redirect(location: string) | NotFound(message: string) | ServerError(message: string)

  const ListPath := "/transactions"
  const AssetNotFound := "Asset not found"

  function FailureMessage(k: TransactionType): string {
    match k
    case Issue => "Error issuing asset"
    case Return => "Error returning asset"
    case Scrap => "Error scrapping asset"
  }

  /** The tables the handlers and their forms read and write. */
  datatype Snapshot = Snapshot(
    assets: map<Id, Asset>,
    transactions: seq<AssetTransaction>,
    employees: map<Id, Employee>,
    branches: map<Id, Branch>)

  /** The outcome of one handler call. */
  datatype Step = Step(response: Response, after: Snapshot)

  /** `a` and `b` agree on every column except the lifecycle ones (status and issued_to). */
  predicate SameDescription(a: Asset, b: Asset) {
    a.(status := b.status, issued_to := b.issued_to) == b
  }

  /** `after` has the rows of `before`, all unchanged except possibly row `id`. */
  predicate OnlyRowChanged(before: map<Id, Asset>, after: map<Id, Asset>, id: Id) {
    after.Keys == before.Keys && forall i :: i in before && i != id ==> after[i] == before[i]
  }

  /** The asset update of this call took effect. */
  predicate Updated(s: Snapshot, id: Id, w: Outcomes) {
    w.lookupOk && id in s.assets && w.updateOk
  }

  /** Both writes of this call took effect. */
  predicate Logged(s: Snapshot, id: Id, w: Outcomes) {
    Updated(s, id, w) && w.insertOk
  }

  /** The last transaction row of a log. */
  function LastRow(log: seq<AssetTransaction>): AssetTransaction
    requires log != []
  {
    log[|log| - 1]
  }

  /**
   * The write sequence every handler ends with, once its asset has been found:
   * `asset.update(..)`, then `AssetTransaction.create(..)`, with no
   * transaction around them. A failed update changes nothing; a failed insert
   * leaves the update in place; an accepted insert appends the row
   * `AssetTransaction.create` stores.
   */
  function TwoWrites(s: Snapshot, id: Id, updated: Asset, record: TransactionValues, now: Timestamp, w: Outcomes, k: TransactionType): (r: Step)
    requires id in s.assets && record.transaction_type == Some(k)
    ensures r.response == if w.updateOk && w.insertOk then Redirect(ListPath) else ServerError(FailureMessage(k))
    ensures r.after.employees == s.employees && r.after.branches == s.branches
    ensures !w.updateOk ==> r.after == s
    ensures w.updateOk ==> OnlyRowChanged(s.assets, r.after.assets, id) && r.after.assets[id] == updated
    ensures !(w.updateOk && w.insertOk) ==> r.after.transactions == s.transactions
    ensures w.updateOk && w.insertOk ==>
      && |r.after.transactions| == |s.transactions| + 1
      && r.after.transactions[..|s.transactions|] == s.transactions
      && var t := LastRow(r.after.transactions);
      && (t.asset_id, t.employee_id, t.branch_id, t.notes, t.metadata) == (record.asset_id, record.employee_id, record.branch_id, record.notes, record.metadata)
      && t.transaction_type == k
      && t.transaction_date == record.transaction_date.GetOr(now)
  {
    if !w.updateOk then Step(ServerError(FailureMessage(k)), s)
    else
      var s1 := s.(assets := s.assets[id := updated]);
      if !w.insertOk then Step(ServerError(FailureMessage(k)), s1)
      else Step(Redirect(ListPath), s1.(transactions := s.transactions + [TransactionRow(record, now)]))
  }

  /**
   * `POST /transactions/issue`. Nothing checks that the body names an
   * employee or a branch: without `employee_id` the asset is marked issued
   * and keeps whatever holder it had, and the record carries no employee.
   * The issue time the handler passes is dropped, as the model has no such
   * attribute.
   */
  function IssueAsset(s: Snapshot, req: IssueRequest, now: Timestamp, w: Outcomes): (r: Step)
    ensures !w.lookupOk ==> r == Step(ServerError(FailureMessage(Issue)), s)
    ensures w.lookupOk && req.asset_id !in s.assets ==> r == Step(NotFound(AssetNotFound), s)
    ensures w.lookupOk && req.asset_id in s.assets ==>
      r.response == if w.updateOk && w.insertOk then Redirect(ListPath) else ServerError(FailureMessage(Issue))
    ensures r.after.employees == s.employees && r.after.branches == s.branches
    ensures OnlyRowChanged(s.assets, r.after.assets, req.asset_id)
    ensures !Updated(s, req.asset_id, w) ==> r.after.assets == s.assets
    ensures Updated(s, req.asset_id, w) ==>
      var a, b := r.after.assets[req.asset_id], s.assets[req.asset_id];
      a.status == Issued && a.issued_to == UpdateValue(req.employee_id, b.issued_to) && SameDescription(a, b)
    ensures !Logged(s, req.asset_id, w) ==> r.after.transactions == s.transactions
    ensures Logged(s, req.asset_id, w) ==>
      && |r.after.transactions| == |s.transactions| + 1
      && r.after.transactions[..|s.transactions|] == s.transactions
      && var t := LastRow(r.after.transactions);
      && t.transaction_type == Issue && t.asset_id == Some(req.asset_id)
      && t.employee_id == CreateValue(req.employee_id) && t.branch_id == CreateValue(req.branch_id)
      && t.notes == req.notes && t.transaction_date == now && t.metadata == None
  {
    if !w.lookupOk then Step(ServerError(FailureMessage(Issue)), s)
    else if req.asset_id !in s.assets then Step(NotFound(AssetNotFound), s)
    else
      var asset := s.assets[req.asset_id];
      var updated := asset.(status := Issued, issued_to := UpdateValue(req.employee_id, asset.issued_to));
      var record := TransactionValues(Some(req.asset_id), CreateValue(req.employee_id), CreateValue(req.branch_id), Some(Issue), None, req.notes, None);
      TwoWrites(s, req.asset_id, updated, record, now, w, Issue)
  }

  /**
   * `POST /transactions/return`. As written, the record's employee is read
   * from the asset after the update has cleared `issued_to`, so it is null.
   */
  function ReturnAsset(s: Snapshot, req: AssetRequest, now: Timestamp, w: Outcomes): (r: Step)
    ensures !w.lookupOk ==> r == Step(ServerError(FailureMessage(Return)), s)
    ensures w.lookupOk && req.asset_id !in s.assets ==> r == Step(NotFound(AssetNotFound), s)
    ensures w.lookupOk && req.asset_id in s.assets ==>
      r.response == if w.updateOk && w.insertOk then Redirect(ListPath) else ServerError(FailureMessage(Return))
    ensures r.after.employees == s.employees && r.after.branches == s.branches
    ensures OnlyRowChanged(s.assets, r.after.assets, req.asset_id)
    ensures !Updated(s, req.asset_id, w) ==> r.after.assets == s.assets
    ensures Updated(s, req.asset_id, w) ==>
      var a, b := r.after.assets[req.asset_id], s.assets[req.asset_id];
      a.status == Stock && a.issued_to == None && SameDescription(a, b)
    ensures !Logged(s, req.asset_id, w) ==> r.after.transactions == s.transactions
    ensures Logged(s, req.asset_id, w) ==>
      && |r.after.transactions| == |s.transactions| + 1
      && r.after.transactions[..|s.transactions|] == s.transactions
      && var t := LastRow(r.after.transactions);
      && t.transaction_type == Return && t.asset_id == Some(req.asset_id)
      && t.employee_id == None && t.branch_id == s.assets[req.asset_id].branch_id
      && t.notes == req.notes && t.transaction_date == now && t.metadata == None
  {
    if !w.lookupOk then Step(ServerError(FailureMessage(Return)), s)
    else if req.asset_id !in s.assets then Step(NotFound(AssetNotFound), s)
    else
      var asset := s.assets[req.asset_id];
      var branch_id := asset.branch_id;
      var updated := asset.(status := Stock, issued_to := None);
      var record := TransactionValues(Some(req.asset_id), updated.issued_to, branch_id, Some(Return), None, req.notes, None);
      TwoWrites(s, req.asset_id, updated, record, now, w, Return)
  }

  /**
   * `POST /transactions/scrap`. Only the status changes; the holder stays on
   * the asset, and the record carries the holder (possibly null)
   * and branch read before the update.
   */
  function ScrapAsset(s: Snapshot, req: AssetRequest, now: Timestamp, w: Outcomes): (r: Step)
    ensures !w.lookupOk ==> r == Step(ServerError(FailureMessage(Scrap)), s)
    ensures w.lookupOk && req.asset_id !in s.assets ==> r == Step(NotFound(AssetNotFound), s)
    ensures w.lookupOk && req.asset_id in s.assets ==>
      r.response == if w.updateOk && w.insertOk then Redirect(ListPath) else ServerError(FailureMessage(Scrap))
    ensures r.after.employees == s.employees && r.after.branches == s.branches
    ensures OnlyRowChanged(s.assets, r.after.assets, req.asset_id)
    ensures !Updated(s, req.asset_id, w) ==> r.after.assets == s.assets
    ensures Updated(s, req.asset_id, w) ==>
      var a, b := r.after.assets[req.asset_id], s.assets[req.asset_id];
      a.status == Scrapped && a.issued_to == b.issued_to && SameDescription(a, b)
    ensures !Logged(s, req.asset_id, w) ==> r.after.transactions == s.transactions
    ensures Logged(s, req.asset_id, w) ==>
      && |r.after.transactions| == |s.transactions| + 1
      && r.after.transactions[..|s.transactions|] == s.transactions
      && var t := LastRow(r.after.transactions);
      && t.transaction_type == Scrap && t.asset_id == Some(req.asset_id)
      && t.employee_id == s.assets[req.asset_id].issued_to && t.branch_id == s.assets[req.asset_id].branch_id
      && t.notes == req.notes && t.transaction_date == now && t.metadata == None
  {
    if !w.lookupOk then Step(ServerError(FailureMessage(Scrap)), s)
    else if req.asset_id !in s.assets then Step(NotFound(AssetNotFound), s)
    else
      var asset := s.assets[req.asset_id];
      var branch_id := asset.branch_id;
      var employee_id := asset.issued_to;
      var updated := asset.(status := Scrapped);
      var record := TransactionValues(Some(req.asset_id), employee_id, branch_id, Some(Scrap), None, req.notes, None);
      TwoWrites(s, req.asset_id, updated, record, now, w, Scrap)
  }

  /** The status each handler writes, whatever the status before. */
  function WrittenStatus(k: TransactionType): AssetStatus {
    match k
    case Issue => Issued
    case Return => Stock
    case Scrap => Scrapped
  }

  /** One call of any of the three handlers. */
  function Apply(s: Snapshot, c: Call, now: Timestamp, w: Outcomes): (r: Step)
    ensures !w.lookupOk ==> r == Step(ServerError(FailureMessage(CallKind(c))), s)
    ensures w.lookupOk && CallAsset(c) !in s.assets ==> r == Step(NotFound(AssetNotFound), s)
    ensures r.response.Redirect? <==> Logged(s, CallAsset(c), w)
    ensures r.after.employees == s.employees && r.after.branches == s.branches
    ensures OnlyRowChanged(s.assets, r.after.assets, CallAsset(c))
    ensures Updated(s, CallAsset(c), w) ==>
      r.after.assets[CallAsset(c)].status == WrittenStatus(CallKind(c))
      && SameDescription(r.after.assets[CallAsset(c)], s.assets[CallAsset(c)])
    ensures !Updated(s, CallAsset(c), w) ==> r.after.assets == s.assets
    ensures |r.after.transactions| == |s.transactions| + (if Logged(s, CallAsset(c), w) then 1 else 0)
    ensures r.after.transactions[..|s.transactions|] == s.transactions
    ensures Logged(s, CallAsset(c), w) ==>
      LastRow(r.after.transactions).asset_id == Some(CallAsset(c))
      && LastRow(r.after.transactions).transaction_type == CallKind(c)
  {
    match c
    case IssueCall(req) => IssueAsset(s, req, now, w)
    case ReturnCall(req) => ReturnAsset(s, req, now, w)
    case ScrapCall(req) => ScrapAsset(s, req, now, w)
  }

  // ------------------------------------------------------------ the GET forms

  /** The assets `GET /transactions/issue` offers: those in stock. */
  function IssueAssetChoices(s: Snapshot): set<Id> {
    set id | id in s.assets && s.assets[id].status == Stock
  }

  /** The employees `GET /transactions/issue` offers: the active ones. */
  function IssueEmployeeChoices(s: Snapshot): set<Id> {
    set id | id in s.employees && s.employees[id].is_active
  }

  /** The branches `GET /transactions/issue` offers: all of them. */
  function IssueBranchChoices(s: Snapshot): set<Id> {
    s.branches.Keys
  }

  /** The assets `GET /transactions/return` offers: those issued. */
  function ReturnChoices(s: Snapshot): set<Id> {
    set id | id in s.assets && s.assets[id].status == Issued
  }

  /** The assets `GET /transactions/scrap` offers: those in stock or issued. */
  function ScrapChoices(s: Snapshot): set<Id> {
    set id | id in s.assets && (s.assets[id].status == Stock || s.assets[id].status == Issued)
  }

  /** The call is one the matching form lets a user make. */
  predicate Offered(s: Snapshot, c: Call) {
    match c
    case IssueCall(r) =>
      && r.asset_id in IssueAssetChoices(s)
      && r.employee_id.Given? && r.employee_id.id in IssueEmployeeChoices(s)
      && r.branch_id.Given? && r.branch_id.id in IssueBranchChoices(s)
    case ReturnCall(r) => r.asset_id in ReturnChoices(s)
    case ScrapCall(r) => r.asset_id in ScrapChoices(s)
  }

  // -------------------------------------------------------------- the handlers

  /** The database the routes work on, updated in place by each POST handler. */
  class AssetLedger {
    var assets: map<Id, Asset>
    var transactions: seq<AssetTransaction>
    var employees: map<Id, Employee>
    var branches: map<Id, Branch>

    ghost function Current(): Snapshot
      reads this
    {
      Snapshot(assets, transactions, employees, branches)
    }

    constructor (init: Snapshot)
      ensures Current() == init
    {
      assets, transactions, employees, branches := init.assets, init.transactions, init.employees, init.branches;
    }

    /** `router.post('/issue', ..)`. */
    method PostIssue(req: IssueRequest, now: Timestamp, w: Outcomes) returns (response: Response)
      modifies this
      ensures Step(response, Current()) == IssueAsset(old(Current()), req, now, w)
      ensures old(transactions) <= transactions
    {
      if !w.lookupOk {
        return ServerError(FailureMessage(Issue));
      }
      if req.asset_id !in assets {
        return NotFound(AssetNotFound);
      }
      var asset := assets[req.asset_id];
      if !w.updateOk {
        return ServerError(FailureMessage(Issue));
      }
      asset := asset.(status := Issued, issued_to := UpdateValue(req.employee_id, asset.issued_to));
      assets := assets[req.asset_id := asset];
      if !w.insertOk {
        return ServerError(FailureMessage(Issue));
      }
      var record := TransactionValues(Some(req.asset_id), CreateValue(req.employee_id), CreateValue(req.branch_id), Some(Issue), None, req.notes, None);
      transactions := transactions + [TransactionRow(record, now)];
      response := Redirect(ListPath);
    }

    /** `router.post('/return', ..)`: the record's employee is read after the update. */
    method PostReturn(req: AssetRequest, now: Timestamp, w: Outcomes) returns (response: Response)
      modifies this
      ensures Step(response, Current()) == ReturnAsset(old(Current()), req, now, w)
      ensures old(transactions) <= transactions
    {
      if !w.lookupOk {
        return ServerError(FailureMessage(Return));
      }
      if req.asset_id !in assets {
        return NotFound(AssetNotFound);
      }
      var asset := assets[req.asset_id];
      var branch_id := asset.branch_id;
      if !w.updateOk {
        return ServerError(FailureMessage(Return));
      }
      asset := asset.(status := Stock, issued_to := None);
      assets := assets[req.asset_id := asset];
      if !w.insertOk {
        return ServerError(FailureMessage(Return));
      }
      var record := TransactionValues(Some(req.asset_id), asset.issued_to, branch_id, Some(Return), None, req.notes, None);
      transactions := transactions + [TransactionRow(record, now)];
      response := Redirect(ListPath);
    }

    /** `router.post('/scrap', ..)`: holder and branch are read before the update. */
    method PostScrap(req: AssetRequest, now: Timestamp, w: Outcomes) returns (response: Response)
      modifies this
      ensures Step(response, Current()) == ScrapAsset(old(Current()), req, now, w)
      ensures old(transactions) <= transactions
    {
      if !w.lookupOk {
        return ServerError(FailureMessage(Scrap));
      }
      if req.asset_id !in assets {
        return NotFound(AssetNotFound);
      }
      var asset := assets[req.asset_id];
      var branch_id := asset.branch_id;
      var employee_id := asset.issued_to;
      if !w.updateOk {
        return ServerError(FailureMessage(Scrap));
      }
      asset := asset.(status := Scrapped);
      assets := assets[req.asset_id := asset];
      if !w.insertOk {
        return ServerError(FailureMessage(Scrap));
      }
      var record := TransactionValues(Some(req.asset_id), employee_id, branch_id, Some(Scrap), None, req.notes, None);
      transactions := transactions + [TransactionRow(record, now)];
      response := Redirect(ListPath);
    }
  }
}

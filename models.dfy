/**
 * The relational schema of the ledger (models/index.js): the five tables,
 * their closed enumerations, column defaults, NOT NULL and UNIQUE
 * constraints, and the foreign keys the associations add.
 *
 * A nullable column is an `Option`; a NOT NULL column is a plain value in a
 * stored row and an `Option` in the values handed to an insert, so that an
 * insert without it can be rejected as the database rejects it.
 */
module Models {
  import opened Wrappers

  /** Primary and foreign keys (UUIDs), as text. */
  type Id = string
  /** A DATE value: an instant supplied by the caller, never read from a clock. */
  type Timestamp = int
  /** A DECIMAL(15, 2) amount, in hundredths. */
  type Cents = int
  /** A JSONB payload, as its text. */
  type Json = string

  /** ENUM('stock', 'issued', 'scrapped') of Asset.status. */
  datatype AssetStatus = Stock | Issued | Scrapped

  /** ENUM('issue', 'return', 'scrap') of AssetTransaction.transaction_type. */
  datatype TransactionType = Issue | Return | Scrap

  /** The default of Asset.status. */
  const DefaultStatus: AssetStatus := Stock

  function StatusName(st: AssetStatus): string {
    match st
    case Stock => "stock"
    case Issued => "issued"
    case Scrapped => "scrapped"
  }

  /** The enumeration check on a status string: exactly the three names are accepted. */
  function ParseStatus(s: string): (r: Option<AssetStatus>)
    ensures r.Some? ==> StatusName(r.value) == s
    ensures forall st :: StatusName(st) == s ==> r == Some(st)
  {
    if s == "stock" then Some(Stock)
    else if s == "issued" then Some(Issued)
    else if s == "scrapped" then Some(Scrapped)
    else None
  }

  function TypeName(k: TransactionType): string {
    match k
    case Issue => "issue"
    case Return => "return"
    case Scrap => "scrap"
  }

  /** The enumeration check on a transaction type string. */
  function ParseType(s: string): (r: Option<TransactionType>)
    ensures r.Some? ==> TypeName(r.value) == s
    ensures forall k :: TypeName(k) == s ==> r == Some(k)
  {
    if s == "issue" then Some(Issue)
    else if s == "return" then Some(Return)
    else if s == "scrap" then Some(Scrap)
    else None
  }

  /** A row of `branches`. */
  datatype Branch = Branch(name: string, location: Option<string>)

  /** A row of `employees`; `branch_id` is the key added by Employee.belongsTo(Branch). */
  datatype Employee = Employee(
    employee_code: string,
    full_name: string,
    email: Option<string>,
    phone: Option<string>,
    designation: Option<string>,
    department: Option<string>,
    branch_id: Option<Id>,
    is_active: bool)

  /** A row of `asset_categories`. */
  datatype AssetCategory = AssetCategory(name: string, description: Option<string>)

  /**
   * A row of `assets`. `category_id`, `branch_id` and `issued_to` are the keys
   * added by Asset.belongsTo(AssetCategory / Branch / Employee). The Asset
   * model declares no `issued_at` attribute, so the table has no such column.
   */
  datatype Asset = Asset(
    asset_code: string,
    name: string,
    category_id: Option<Id>,
    branch_id: Option<Id>,
    purchase_date: Option<Timestamp>,
    purchase_value: Option<Cents>,
    current_value: Option<Cents>,
    status: AssetStatus,
    issued_to: Option<Id>,
    specifications: Option<Json>)

  /**
   * A row of `asset_transactions`. `asset_id`, `employee_id` and `branch_id`
   * are the keys added by AssetTransaction.belongsTo(Asset / Employee / Branch).
   */
  datatype AssetTransaction = AssetTransaction(
    asset_id: Option<Id>,
    employee_id: Option<Id>,
    branch_id: Option<Id>,
    transaction_type: TransactionType,
    transaction_date: Timestamp,
    notes: Option<string>,
    metadata: Option<Json>)

  /** Why the database refuses an insert. */
  datatype DbError =
    | DuplicateKey
    | NotNullViolation(column: string)
    | UniqueViolation(column: string)
    | ForeignKeyViolation(column: string)

  // ---------------------------------------------------------------- uniqueness

  /** No two rows of `table` agree on `key`. */
  ghost predicate UniqueBy<T>(table: map<Id, T>, key: T -> string) {
    forall i, j :: i in table && j in table && i != j ==> key(table[i]) != key(table[j])
  }

  /** Some row of `table` already has `k` as its `key`. */
  predicate KeyTaken<T>(table: map<Id, T>, key: T -> string, k: string) {
    exists i :: i in table && key(table[i]) == k
  }

  /**
   * An insert into a table with a primary key and one UNIQUE column: it is
   * refused when the key or the unique value is already present.
   */
  function InsertUnique<T>(table: map<Id, T>, id: Id, row: T, key: T -> string, column: string): (r: Result<map<Id, T>, DbError>)
    ensures r.Ok? <==> id !in table && !KeyTaken(table, key, key(row))
    ensures r.Ok? ==> r.value == table[id := row]
    ensures r.Err? ==> r.error == (if id in table then DuplicateKey else UniqueViolation(column))
    ensures r.Ok? && UniqueBy(table, key) ==> UniqueBy(r.value, key)
  {
    if id in table then Err(DuplicateKey)
    else if KeyTaken(table, key, key(row)) then Err(UniqueViolation(column))
    else
      var t := table[id := row];
      assert UniqueBy(table, key) ==> UniqueBy(t, key) by {
        if UniqueBy(table, key) {
          forall i, j | i in t && j in t && i != j ensures key(t[i]) != key(t[j]) {
            if i == id {
              assert key(table[j]) != key(row);
            } else if j == id {
              assert key(table[i]) != key(row);
            }
          }
        }
      }
      Ok(t)
  }

  function AssetCode(a: Asset): string { a.asset_code }
  function EmployeeCode(e: Employee): string { e.employee_code }
  function BranchName(b: Branch): string { b.name }
  function CategoryName(c: AssetCategory): string { c.name }

  /** A foreign key column's value is null or names one of the referenced rows. */
  predicate RefOk(k: Option<Id>, keys: set<Id>) {
    k.None? || k.value in keys
  }

  // ------------------------------------------------------------------ inserts

  /** The values handed to `Asset.create`; `None` is a column left out or null. */
  datatype AssetValues = AssetValues(
    asset_code: Option<string>,
    name: Option<string>,
    category_id: Option<Id>,
    branch_id: Option<Id>,
    purchase_date: Option<Timestamp>,
    purchase_value: Option<Cents>,
    current_value: Option<Cents>,
    status: Option<AssetStatus>,
    issued_to: Option<Id>,
    specifications: Option<Json>)

  /** A stored asset row read back as insert values. */
  function AssetAsValues(a: Asset): AssetValues {
    AssetValues(Some(a.asset_code), Some(a.name), a.category_id, a.branch_id, a.purchase_date,
                a.purchase_value, a.current_value, Some(a.status), a.issued_to, a.specifications)
  }

  /**
   * `Asset.create(values)` with primary key `id`: asset_code and name are NOT
   * NULL, asset_code is UNIQUE, a missing status becomes `stock`, and the
   * category, branch and holder keys must name rows of their tables (whose
   * keys are `categoryIds`, `branchIds` and `employeeIds`).
   */
  function InsertAsset(assets: map<Id, Asset>, id: Id, v: AssetValues,
                       categoryIds: set<Id>, branchIds: set<Id>, employeeIds: set<Id>): (r: Result<map<Id, Asset>, DbError>)
    ensures r.Ok? <==>
      && id !in assets && v.asset_code.Some? && v.name.Some? && !KeyTaken(assets, AssetCode, v.asset_code.value)
      && RefOk(v.category_id, categoryIds) && RefOk(v.branch_id, branchIds) && RefOk(v.issued_to, employeeIds)
    ensures r.Ok? ==> r.value.Keys == assets.Keys + {id} && r.value - {id} == assets
    ensures r.Ok? ==> r.value[id].status == v.status.GetOr(DefaultStatus)
    ensures r.Ok? ==> AssetAsValues(r.value[id]) == v.(status := Some(r.value[id].status))
    ensures r.Ok? && UniqueBy(assets, AssetCode) ==> UniqueBy(r.value, AssetCode)
    ensures r.Err? && r.error.ForeignKeyViolation? ==> r.error.column in {"category_id", "branch_id", "issued_to"}
  {
    if id in assets then Err(DuplicateKey)
    else if v.asset_code.None? then Err(NotNullViolation("asset_code"))
    else if v.name.None? then Err(NotNullViolation("name"))
    else
      var row := Asset(v.asset_code.value, v.name.value, v.category_id, v.branch_id, v.purchase_date,
                       v.purchase_value, v.current_value, v.status.GetOr(DefaultStatus),
                       v.issued_to, v.specifications);
      var inserted := InsertUnique(assets, id, row, AssetCode, "asset_code");
      if inserted.Err? then inserted
      else if !RefOk(v.category_id, categoryIds) then Err(ForeignKeyViolation("category_id"))
      else if !RefOk(v.branch_id, branchIds) then Err(ForeignKeyViolation("branch_id"))
      else if !RefOk(v.issued_to, employeeIds) then Err(ForeignKeyViolation("issued_to"))
      else inserted
  }

  /** The values handed to `Employee.create`. */
  datatype EmployeeValues = EmployeeValues(
    employee_code: Option<string>,
    full_name: Option<string>,
    email: Option<string>,
    phone: Option<string>,
    designation: Option<string>,
    department: Option<string>,
    branch_id: Option<Id>,
    is_active: Option<bool>)

  /** A stored employee row read back as insert values. */
  function EmployeeAsValues(e: Employee): EmployeeValues {
    EmployeeValues(Some(e.employee_code), Some(e.full_name), e.email, e.phone, e.designation,
                   e.department, e.branch_id, Some(e.is_active))
  }

  /**
   * `Employee.create(values)`: employee_code and full_name are NOT NULL,
   * employee_code is UNIQUE, a missing is_active becomes true, and the branch
   * key must name a row of `branches` (whose keys are `branchIds`).
   */
  function InsertEmployee(employees: map<Id, Employee>, id: Id, v: EmployeeValues, branchIds: set<Id>): (r: Result<map<Id, Employee>, DbError>)
    ensures r.Ok? <==>
      && id !in employees && v.employee_code.Some? && v.full_name.Some? && !KeyTaken(employees, EmployeeCode, v.employee_code.value)
      && RefOk(v.branch_id, branchIds)
    ensures r.Ok? ==> r.value.Keys == employees.Keys + {id} && r.value - {id} == employees
    ensures r.Ok? ==> r.value[id].is_active == v.is_active.GetOr(true)
    ensures r.Ok? ==> EmployeeAsValues(r.value[id]) == v.(is_active := Some(r.value[id].is_active))
    ensures r.Ok? && UniqueBy(employees, EmployeeCode) ==> UniqueBy(r.value, EmployeeCode)
    ensures r.Err? && r.error.ForeignKeyViolation? ==> r.error.column == "branch_id"
  {
    if id in employees then Err(DuplicateKey)
    else if v.employee_code.None? then Err(NotNullViolation("employee_code"))
    else if v.full_name.None? then Err(NotNullViolation("full_name"))
    else
      var row := Employee(v.employee_code.value, v.full_name.value, v.email, v.phone, v.designation,
                          v.department, v.branch_id, v.is_active.GetOr(true));
      var inserted := InsertUnique(employees, id, row, EmployeeCode, "employee_code");
      if inserted.Err? then inserted
      else if !RefOk(v.branch_id, branchIds) then Err(ForeignKeyViolation("branch_id"))
      else inserted
  }

  /** `Branch.create({name, location})`: name is NOT NULL and UNIQUE. */
  function InsertBranch(branches: map<Id, Branch>, id: Id, name: Option<string>, location: Option<string>): (r: Result<map<Id, Branch>, DbError>)
    ensures r.Ok? <==> id !in branches && name.Some? && !KeyTaken(branches, BranchName, name.value)
    ensures r.Ok? ==> r.value == branches[id := Branch(name.value, location)]
    ensures r.Ok? && UniqueBy(branches, BranchName) ==> UniqueBy(r.value, BranchName)
  {
    if id in branches then Err(DuplicateKey)
    else if name.None? then Err(NotNullViolation("name"))
    else InsertUnique(branches, id, Branch(name.value, location), BranchName, "name")
  }

  /** `AssetCategory.create({name, description})`: name is NOT NULL and UNIQUE. */
  function InsertCategory(categories: map<Id, AssetCategory>, id: Id, name: Option<string>, description: Option<string>): (r: Result<map<Id, AssetCategory>, DbError>)
    ensures r.Ok? <==> id !in categories && name.Some? && !KeyTaken(categories, CategoryName, name.value)
    ensures r.Ok? ==> r.value == categories[id := AssetCategory(name.value, description)]
    ensures r.Ok? && UniqueBy(categories, CategoryName) ==> UniqueBy(r.value, CategoryName)
  {
    if id in categories then Err(DuplicateKey)
    else if name.None? then Err(NotNullViolation("name"))
    else InsertUnique(categories, id, AssetCategory(name.value, description), CategoryName, "name")
  }

  /** The values handed to `AssetTransaction.create`. */
  datatype TransactionValues = TransactionValues(
    asset_id: Option<Id>,
    employee_id: Option<Id>,
    branch_id: Option<Id>,
    transaction_type: Option<TransactionType>,
    transaction_date: Option<Timestamp>,
    notes: Option<string>,
    metadata: Option<Json>)

  /** The row `AssetTransaction.create(values)` stores at instant `now`: a missing date becomes `now`. */
  function TransactionRow(v: TransactionValues, now: Timestamp): (t: AssetTransaction)
    requires v.transaction_type.Some?
    ensures t.transaction_type == v.transaction_type.value
    ensures t.transaction_date == v.transaction_date.GetOr(now)
    ensures (t.asset_id, t.employee_id, t.branch_id, t.notes, t.metadata) == (v.asset_id, v.employee_id, v.branch_id, v.notes, v.metadata)
  {
    AssetTransaction(v.asset_id, v.employee_id, v.branch_id, v.transaction_type.value,
                     v.transaction_date.GetOr(now), v.notes, v.metadata)
  }

  /**
   * `AssetTransaction.create(values)` at instant `now`: transaction_type is NOT
   * NULL, and the asset, employee and branch keys must name rows of their
   * tables (whose keys are `assetIds`, `employeeIds` and `branchIds`). The
   * table is only ever appended to.
   */
  function InsertTransaction(log: seq<AssetTransaction>, v: TransactionValues, now: Timestamp,
                             assetIds: set<Id>, employeeIds: set<Id>, branchIds: set<Id>): (r: Result<seq<AssetTransaction>, DbError>)
    ensures r.Ok? <==>
      v.transaction_type.Some? && RefOk(v.asset_id, assetIds) && RefOk(v.employee_id, employeeIds) && RefOk(v.branch_id, branchIds)
    ensures v.transaction_type.None? ==> r == Err(NotNullViolation("transaction_type"))
    ensures r.Err? && r.error.ForeignKeyViolation? ==> r.error.column in {"asset_id", "employee_id", "branch_id"}
    ensures r.Ok? ==> |r.value| == |log| + 1 && r.value[..|log|] == log
    ensures r.Ok? ==> var t := r.value[|log|];
      && t.transaction_type == v.transaction_type.value
      && t.transaction_date == v.transaction_date.GetOr(now)
      && (t.asset_id, t.employee_id, t.branch_id, t.notes, t.metadata) == (v.asset_id, v.employee_id, v.branch_id, v.notes, v.metadata)
  {
    if v.transaction_type.None? then Err(NotNullViolation("transaction_type"))
    else if !RefOk(v.asset_id, assetIds) then Err(ForeignKeyViolation("asset_id"))
    else if !RefOk(v.employee_id, employeeIds) then Err(ForeignKeyViolation("employee_id"))
    else if !RefOk(v.branch_id, branchIds) then Err(ForeignKeyViolation("branch_id"))
    else
      var t := TransactionRow(v, now);
      assert (log + [t])[..|log|] == log;
      Ok(log + [t])
  }

  // ------------------------------------------------------- foreign keys

  /**
   * The asset's branch and holder name existing rows. The category key is
   * outside the tables the lifecycle handlers read, so it is not checked here.
   */
  ghost predicate AssetRefsValid(a: Asset, branches: map<Id, Branch>, employees: map<Id, Employee>) {
    RefOk(a.branch_id, branches.Keys) && RefOk(a.issued_to, employees.Keys)
  }

  /** The transaction's keys name existing asset, employee and branch rows. */
  ghost predicate TransactionRefsValid(t: AssetTransaction, assets: map<Id, Asset>, employees: map<Id, Employee>, branches: map<Id, Branch>) {
    RefOk(t.asset_id, assets.Keys) && RefOk(t.employee_id, employees.Keys) && RefOk(t.branch_id, branches.Keys)
  }
}

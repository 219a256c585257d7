# Asset ledger: the lifecycle handlers, the schema and the list pages

This project models the core of an asset-tracking application in Dafny. Its
two halves are an Express/Sequelize back end and a React front end.

**The lifecycle ledger.** Every asset has a status: `stock`, `issued` or
`scrapped`. Three POST handlers move an asset between statuses: issue,
return and scrap. Each one does three things:
- looks the asset up;
- updates its `status` and `issued_to`;
- appends one row to the append-only log of asset transactions.

The model has two layers:
- **Specification functions.** `IssueAsset`, `ReturnAsset` and `ScrapAsset`
  run over a `Snapshot` of the tables the handlers touch. Each returns the
  response and the new snapshot.
- **The class `AssetLedger`.** It does the same work step by step, with one
  method per handler. Each method is proved equal to its specification
  function.

**The store.** Three database calls can each throw: the lookup, the asset
update and the transaction insert. Each handler takes an oracle,
`Outcomes`, that says which of them succeed. A failed lookup answers 500
with no change. The oracle also shows that the handlers use no database
transaction.

**The request body.** The issue handler checks none of its fields. Each key
field is `Missing`, `Null` or `Given` (`TransactionRoutes.Field`). An update
drops a missing value and keeps the column; an insert stores it as NULL.

**The schema.** models/index.js is modelled as:
- row datatypes;
- closed enumerations;
- column defaults;
- NOT NULL, UNIQUE and foreign-key checks on inserts.

**The pages.** The five list pages are modelled as:
- pure search filters, sharing one case-insensitive substring test;
- badge colours and labels;
- the payloads their dialogs post;
- one class per page holding the dialog state that submitting changes.

## Where the code differs from the lifecycle

`LedgerProperties.Lifecycle` is the strict lifecycle the GET forms realise:
- issue takes `stock` to `issued`;
- return takes `issued` to `stock`;
- scrap takes `stock` or `issued` to `scrapped`, for good.

`LedgerProperties.HolderIffIssued` says that an asset has a holder exactly
when it is issued. The code is modelled as written, and the lemmas show
where it departs from these two:

- **No status check in the handlers.** The POST handlers accept any existing
  asset. Only the GET forms filter by status. `ScrappedAssetIsReissued`
  shows a scrapped asset being issued again.
- **The React page skips even the form filters.** Its pickers list every
  asset, employee and branch. `Transactions.PageReturnsStockAsset` shows the
  page offering a stock asset for return, and the return succeeding.
- **Return logs no employee.** The return record's `employee_id` is read
  from `asset.issued_to` after the update has set it to null
  (`ReturnAsset`, `ScenarioAsWritten`).
- **Scrap keeps the holder.** Scrap changes only `status`. An issued asset
  that is scrapped keeps its `issued_to`.
  `HolderIffIssuedBrokenOnlyByScrapOrHolderlessIssue` proves that this and
  the next case are the only ways `HolderIffIssued` breaks.
- **Issue needs no employee.** A body without `employee_id` still marks the
  asset issued. The asset keeps its old holder, which for a stock asset is
  none, and the record names no employee
  (`IssueWithoutEmployeeLeavesNoHolder`).
- **No atomicity.** When the insert fails after the update, the status
  change stays but no record is written. `FailedInsertBreaksLogAgreement`
  gives a concrete case. `CompleteCallKeepsLogAgreement` shows that
  agreement between status and log survives every call whose two writes
  succeed or fail together.
- **`issued_at` is not declared.** models/index.js declares no `issued_at`
  on Asset, yet the issue and return handlers pass it to `update`. Sequelize
  drops attributes the model does not declare. So the model has no such
  column, and the write has no effect.

## Model

| member | source | states |
|---|---|---|
| Models.ParseStatus | asset-ledger-express/models/index.js:106-109 | the status enumeration is closed: a string parses exactly when it is the name of one of `stock`, `issued`, `scrapped` |
| Models.ParseType | asset-ledger-express/models/index.js:125-128 | the transaction type enumeration is closed: a string parses exactly when it names `issue`, `return` or `scrap` |
| Models.InsertUnique | asset-ledger-express/models/index.js:11-15 | an insert into a table with a UNIQUE column succeeds exactly when neither the id nor the unique value is present; it adds exactly that row, names the violated constraint otherwise, and keeps the column unique |
| Models.InsertAsset | asset-ledger-express/models/index.js:82-117 | `asset_code` and `name` are NOT NULL and `asset_code` is UNIQUE; the category, branch and holder keys (the belongsTo associations) must be null or name existing rows; a missing status becomes `stock`; the stored row reads back as the values given; codes stay unique |
| Models.InsertEmployee | asset-ledger-express/models/index.js:25-60 | `employee_code` and `full_name` are NOT NULL and `employee_code` is UNIQUE; the branch key must be null or name an existing branch; `is_active` defaults to true; the stored row reads back as the values given; codes stay unique |
| Models.InsertBranch | asset-ledger-express/models/index.js:11-15 | a branch name is NOT NULL and UNIQUE; the one new row is exactly the given name and location |
| Models.InsertCategory | asset-ledger-express/models/index.js:68-72 | a category name is NOT NULL and UNIQUE; the one new row is exactly the given name and description |
| Models.InsertTransaction | asset-ledger-express/models/index.js:119-143 | a transaction without a type is refused as NOT NULL; its asset, employee and branch keys must be null or name existing rows; otherwise exactly one row is appended after the old log, holding the given values, with its date defaulting to the creation time |
| TransactionRoutes.TwoWrites | asset-ledger-express/routes/transactions.js:71-90 | update then insert, with no rollback: a failed update changes nothing, and a failed insert leaves the update in place and logs nothing; success appends exactly the given record |
| TransactionRoutes.IssueAsset | asset-ledger-express/routes/transactions.js:61-91 | a failed lookup gives "Error issuing asset" and no change; an unknown asset gives "Asset not found" and no change; otherwise the asset becomes issued, with the posted employee as holder (kept when the field is missing, cleared when null); only that row changes, and only in those fields; the one appended record carries the request's asset, employee, branch and notes, each absent key as null |
| TransactionRoutes.ReturnAsset | asset-ledger-express/routes/transactions.js:109-141 | a failed lookup gives "Error returning asset" and no change; an unknown asset gives "Asset not found" and no change; otherwise the asset goes to stock with its holder cleared, and the record has the asset's old branch and, as written, no employee |
| TransactionRoutes.ScrapAsset | asset-ledger-express/routes/transactions.js:158-189 | a failed lookup gives "Error scrapping asset" and no change; an unknown asset gives "Asset not found" and no change; otherwise only the status changes, to scrapped, and the record carries the holder (possibly none) and branch read before the update |
| TransactionRoutes.Apply | asset-ledger-express/routes/transactions.js:61-189 | whatever the asset's status: a failed lookup changes nothing; the response is a redirect exactly when the lookup and both writes succeed; at most the named asset changes; the log keeps its prefix and grows by one row, for that asset and type, exactly on success |
| TransactionRoutes.AssetLedger.PostIssue | asset-ledger-express/routes/transactions.js:61-91 | the in-place handler's response and new tables are those of `IssueAsset`; the log only grows |
| TransactionRoutes.AssetLedger.PostReturn | asset-ledger-express/routes/transactions.js:109-141 | the in-place handler, which builds its record from `issued_to` after the update, gives the response and tables of `ReturnAsset` |
| TransactionRoutes.AssetLedger.PostScrap | asset-ledger-express/routes/transactions.js:158-189 | the in-place handler's response and new tables are those of `ScrapAsset` |
| LedgerProperties.ChoicesAreLifecycleSources | asset-ledger-express/routes/transactions.js:44-51 | an asset is offered by the issue, return or scrap form exactly when the lifecycle lets that event start from its status |
| LedgerProperties.OfferedCallFollowsLifecycle | asset-ledger-express/routes/transactions.js:96-100 | a call the forms offer moves its asset to the lifecycle's successor status |
| LedgerProperties.ScrappedAssetIsReissued | asset-ledger-express/routes/transactions.js:66-75 | the issue handler checks no status: a scrapped asset is issued again and the call succeeds, though the lifecycle has no such step |
| LedgerProperties.CallKeepsIssuedHaveHolders | asset-ledger-express/routes/transactions.js:63-75 | "an issued asset has a holder" survives a call exactly when the call is not an issue that leaves its asset with no holder |
| LedgerProperties.OfferedNamesKnownRows | asset-ledger-express/routes/transactions.js:44-52 | every asset, employee and branch the issue form offers exists |
| LedgerProperties.KnownCallKeepsHoldersKnown | asset-ledger-express/routes/transactions.js:71-75 | a call naming existing rows keeps every issued asset held by an employee on record |
| LedgerProperties.HolderIffIssuedBrokenOnlyByScrapOrHolderlessIssue | asset-ledger-express/routes/transactions.js:171-173 | "holder exactly when issued" survives a call exactly when the call is neither the scrap of an issued asset nor an issue that leaves no holder |
| LedgerProperties.IssueWithoutEmployeeLeavesNoHolder | asset-ledger-express/routes/transactions.js:63-84 | an issue body without `employee_id` or `branch_id` succeeds: the stock asset is issued with no holder, and the record names no employee or branch |
| LedgerProperties.KnownCallKeepsRefsValid | asset-ledger-express/models/index.js:146-165 | a call naming existing rows keeps every branch, holder, asset and employee key of the assets and the log pointing at existing rows |
| LedgerProperties.CallKeepsAssetCodesUnique | asset-ledger-express/models/index.js:88-92 | no handler changes an asset code, so their uniqueness survives every call |
| LedgerProperties.CompleteCallKeepsLogAgreement | asset-ledger-express/routes/transactions.js:71-84 | when a call's two writes succeed or fail together, each asset's status stays the one its latest record wrote |
| LedgerProperties.FailedInsertBreaksLogAgreement | asset-ledger-express/routes/transactions.js:78-90 | an issue whose insert fails leaves an issued asset whose latest record is a return, and the client gets "Error issuing asset" |
| LedgerProperties.CallLogsForItsAssetOnly | asset-ledger-express/routes/transactions.js:78-84 | a call adds one record for its own asset exactly when it succeeds, and none for any other asset |
| LedgerProperties.RunIsAppendOnly | asset-ledger-express/routes/transactions.js:128-134 | over any sequence of calls the log only grows, and no asset, employee or branch row appears or disappears |
| LedgerProperties.OfferedRunKeepsConsistency | asset-ledger-express/routes/transactions.js:44-51 | a sequence of calls the forms offer keeps holders known and all keys valid |
| LedgerProperties.CompleteRunKeepsLogAgreement | asset-ledger-express/routes/transactions.js:71-84 | a sequence of calls with no half-done writes keeps every status in agreement with the log |
| LedgerProperties.ScenarioAsWritten | asset-ledger-express/routes/transactions.js:121-131 | issue, return, scrap, issue again: the return and scrap records have no employee, and the final issue of a scrapped asset succeeds as a fourth record |
| LedgerProperties.SeedIsConsistent | asset-ledger-express/setup-db.js:76-129 | the sample data (two issued assets with matching issue records, one stock asset) satisfies every invariant above |
| Text.Lower | asset-ledger/src/pages/Transactions.tsx:163 | `toLowerCase` over ASCII keeps the length and maps each character |
| Text.Capitalize | asset-ledger/src/pages/Assets.tsx:398 | the first character upper-cased, the rest unchanged |
| Text.LowerIdempotent | asset-ledger/src/pages/Transactions.tsx:163 | lower-casing twice is lower-casing once |
| Text.ContainsCICaseInsensitive | asset-ledger/src/pages/Transactions.tsx:163-165 | the case of neither the field nor the search term changes a match |
| Text.ContainsCINarrowing | asset-ledger/src/pages/Assets.tsx:176-177 | a field matching a longer term matches every prefix of it |
| Text.ContainsCISelf | asset-ledger/src/pages/Assets.tsx:176-177 | every field matches a search for itself, in any case |
| Lists.Filter | asset-ledger/src/pages/Transactions.tsx:161-166 | `filter` keeps an order-preserving sub-list holding exactly the elements that pass, each as many times as it occurs in the list, and all of them when every element passes |
| Lists.FilterKeepsRepeats | asset-ledger/src/pages/Transactions.tsx:161-166 | a repeated passing element is kept every time: `[1, 2, 1]` filtered for 1 gives `[1, 1]` |
| Lists.Footer | asset-ledger/src/pages/Transactions.tsx:303 | the footer counts the whole list, never shows more than it, and shows all exactly when every row passes |
| Lists.FilterMonotone | asset-ledger/src/pages/Assets.tsx:174-178 | a stronger test keeps a sub-list of what a weaker test keeps |
| Forms.NonEmpty | asset-ledger/src/pages/Transactions.tsx:119 | the `or undefined` fallback of the notes: absent exactly for the empty string, the text otherwise |
| Forms.OrElse | asset-ledger/src/pages/Employees.tsx:460 | JavaScript's or-fallback on a string: the first operand when it is a non-empty string, the second otherwise |
| Transactions.FilteredTransactions | asset-ledger/src/pages/Transactions.tsx:161-166 | an order-preserving sub-list of exactly the transactions whose type, asset name or employee name contains the term, ignoring case; each kept one appears as many times as in the loaded list |
| Transactions.TransactionsFooter | asset-ledger/src/pages/Transactions.tsx:303 | "shown of total": total is the loaded count, shown is the filtered count, equal exactly when every row matches |
| Transactions.AbsentJoinsNeverMatch | asset-ledger/src/pages/Transactions.tsx:164-165 | a transaction with no joined asset or employee matches only by its type |
| Transactions.EmptySearchShowsAllTransactions | asset-ledger/src/pages/Transactions.tsx:161-166 | the empty search shows the whole list |
| Transactions.TransactionSearchNarrows | asset-ledger/src/pages/Transactions.tsx:161-166 | typing more of a term only removes rows |
| Transactions.TransactionTypeColor | asset-ledger/src/pages/Transactions.tsx:168-179 | issue, return and scrap each get their own class, and exactly the other strings get the default |
| Transactions.TypeLabels | asset-ledger/src/pages/Transactions.tsx:263 | the badge reads "Issue", "Return" or "Scrap" |
| Transactions.BuildCall | asset-ledger/src/pages/Transactions.tsx:107-142 | a request is built exactly when the asset, and for an issue the employee and branch, are non-empty; otherwise the matching message is returned; the request has the selected type and the form's ids, and empty notes become absent |
| Transactions.NoEmptyNotesPosted | asset-ledger/src/pages/Transactions.tsx:119-139 | no request the page posts carries an empty note |
| Transactions.HiddenInputsIgnored | asset-ledger/src/pages/Transactions.tsx:429-469 | for return and scrap, whose dialog hides the employee and branch pickers, their contents never affect the request |
| Transactions.PageCallNamesKnownRows | asset-ledger/src/pages/Transactions.tsx:419-463 | a request built from the page's pickers names existing rows, so it keeps holders known and keys valid |
| Transactions.PageReturnsStockAsset | asset-ledger/src/pages/Transactions.tsx:419-424 | the page offers a stock asset for return, which the server's form would not, and the return succeeds |
| Transactions.TransactionsPage.CreateTransaction | asset-ledger/src/pages/Transactions.tsx:107-159 | a validation failure shows its message, posts nothing and keeps the form; otherwise the built request is posted; success closes the dialog and clears the form, failure shows "Failed to create transaction" and keeps it |
| Assets.FilteredAssets | asset-ledger/src/pages/Assets.tsx:174-178 | an order-preserving sub-list of exactly the assets whose name or code contains the term, ignoring case; each kept one appears as many times as in the loaded list |
| Assets.AssetsFooter | asset-ledger/src/pages/Assets.tsx:444 | "shown of total", equal exactly when every asset matches |
| Assets.EmptySearchShowsAllAssets | asset-ledger/src/pages/Assets.tsx:174-178 | the empty search shows every asset |
| Assets.AssetSearchNarrows | asset-ledger/src/pages/Assets.tsx:174-178 | typing more of a term only removes assets |
| Assets.SearchByCodeFindsAsset | asset-ledger/src/pages/Assets.tsx:177 | searching for an asset's code, in any case, finds it |
| Assets.StatusColor | asset-ledger/src/pages/Assets.tsx:180-191 | stock, issued and scrapped each get their own class, and exactly the other strings get the default |
| Assets.StatusLabels | asset-ledger/src/pages/Assets.tsx:398 | the badge reads "Stock", "Issued" or "Scrapped" |
| Assets.StatusLabelIsStatusIgnoringCase | asset-ledger/src/pages/Assets.tsx:398 | the badge is the status itself up to case |
| Assets.IssuedToLine | asset-ledger/src/pages/Assets.tsx:548-553 | "Issued To" is shown, with the holder's name, exactly for an issued asset with a joined employee |
| Assets.NumberIfGiven | asset-ledger/src/pages/Assets.tsx:109-114 | a value is sent, as the parse of its text, exactly when its input is non-empty |
| Assets.AssetPayloadOf | asset-ledger/src/pages/Assets.tsx:98-114 | the create payload loses nothing of the form; empty date and specifications become null, and the values are present exactly when typed |
| Assets.DefaultFormPostsBareStockAsset | asset-ledger/src/pages/Assets.tsx:44-54 | the untouched form posts a stock asset with no date, values or specifications |
| Assets.AssetEditOf | asset-ledger/src/pages/Assets.tsx:142-152 | the edit payload written back gives the edited row again, status included |
| Assets.AssetsPage.AddAsset | asset-ledger/src/pages/Assets.tsx:96-136 | posts the payload of the current form; success closes the dialog and resets the form to its defaults (status stock); failure keeps it |
| Employees.FilteredEmployees | asset-ledger/src/pages/Employees.tsx:139-144 | an order-preserving sub-list of exactly the employees whose name, code or present email contains the term, ignoring case; each kept one appears as many times as in the loaded list |
| Employees.EmployeesFooter | asset-ledger/src/pages/Employees.tsx:375 | "shown of total", equal exactly when every employee matches |
| Employees.NullEmailNeverMatches | asset-ledger/src/pages/Employees.tsx:143 | without an email only name and code are searched |
| Employees.EmptySearchShowsAllEmployees | asset-ledger/src/pages/Employees.tsx:139-144 | the empty search shows every employee |
| Employees.EmployeeSearchNarrows | asset-ledger/src/pages/Employees.tsx:139-144 | typing more of a term only removes employees |
| Employees.BranchDisplay | asset-ledger/src/pages/Employees.tsx:460 | the branch name if non-empty, else the branch id if non-empty, else "Not assigned"; never empty |
| Employees.PostedEmployee | asset-ledger/src/pages/Employees.tsx:84 | the form is posted as it is: every field is present, empty strings included, and the form reads back from the body |
| Employees.PostedOfFormOfPosted | asset-ledger/src/pages/Employees.tsx:84 | every body with all fields present is the one its form posts |
| Employees.BlankEmployeeFormIsRefused | asset-ledger/src/pages/Employees.tsx:82-103 | the page checks nothing, and a blank form posts branch id "", which names no branch: the insert is always refused, and refused for the branch key when id and code are free |
| Employees.EmployeeEditOf | asset-ledger/src/pages/Employees.tsx:109-118 | the edit payload, eight fields, written back gives the edited row again |
| Employees.EmployeesPage.AddEmployee | asset-ledger/src/pages/Employees.tsx:82-103 | posts the form; success closes the dialog and resets the form to its defaults (active, empty fields); failure keeps it |
| Employees.EmployeesPage.EditEmployee | asset-ledger/src/pages/Employees.tsx:105-127 | nothing happens without an edited row; otherwise its edit payload is posted, and success closes the dialog and drops the row |
| Categories.FilteredCategories | asset-ledger/src/pages/Categories.tsx:99-103 | an order-preserving sub-list of exactly the categories whose name, or non-empty description, contains the term, ignoring case; each kept one appears as many times as in the loaded list |
| Categories.CategoriesFooter | asset-ledger/src/pages/Categories.tsx:242 | "shown of total", equal exactly when every category matches |
| Categories.NullDescriptionNeverMatches | asset-ledger/src/pages/Categories.tsx:102 | without a description only the name is searched |
| Categories.EmptySearchShowsAllCategories | asset-ledger/src/pages/Categories.tsx:99-103 | the empty search shows every category |
| Categories.CategorySearchNarrows | asset-ledger/src/pages/Categories.tsx:99-103 | typing more of a term only removes categories |
| Categories.BlankFormsCollideOnName | asset-ledger/src/pages/Categories.tsx:54-69 | a blank form stores a category named "", and a second blank form fails only on the unique name |
| Categories.CategoryEditOf | asset-ledger/src/pages/Categories.tsx:75-78 | the edit payload is exactly name and description, and written back gives the edited row again |
| Categories.CategoriesPage.AddCategory | asset-ledger/src/pages/Categories.tsx:54-69 | posts the form; success closes the dialog and empties name and description; failure keeps them |
| Categories.CategoriesPage.EditCategory | asset-ledger/src/pages/Categories.tsx:71-87 | nothing happens without an edited row; otherwise its name and description are posted, and success closes the dialog and drops the row |
| Branches.FilteredBranches | asset-ledger/src/pages/Branches.tsx:99-103 | an order-preserving sub-list of exactly the branches whose name, or non-empty location, contains the term, ignoring case; each kept one appears as many times as in the loaded list |
| Branches.BranchesFooter | asset-ledger/src/pages/Branches.tsx:244 | "shown of total", equal exactly when every branch matches |
| Branches.NullLocationNeverMatches | asset-ledger/src/pages/Branches.tsx:102 | without a location only the name is searched |
| Branches.EmptySearchShowsAllBranches | asset-ledger/src/pages/Branches.tsx:99-103 | the empty search shows every branch |
| Branches.BranchSearchNarrows | asset-ledger/src/pages/Branches.tsx:99-103 | typing more of a term only removes branches |
| Branches.BlankFormsCollideOnName | asset-ledger/src/pages/Branches.tsx:54-69 | a blank form stores a branch named "", and a second blank form fails only on the unique name |
| Branches.BranchEditOf | asset-ledger/src/pages/Branches.tsx:75-78 | the edit payload is exactly name and location, and written back gives the edited row again |
| Branches.BranchesPage.AddBranch | asset-ledger/src/pages/Branches.tsx:54-69 | posts the form; success closes the dialog and empties name and location; failure keeps them |
| Branches.BranchesPage.EditBranch | asset-ledger/src/pages/Branches.tsx:71-87 | nothing happens without an edited row; otherwise its name and location are posted, and success closes the dialog and drops the row |

## Left out

- HTTP, rendering and redirects: responses are the `Response` datatype; the 500 pages, template names and the GET list routes are not modelled.
- The CRUD routes for assets, employees, categories and branches are not part of this model. `PUT /assets/:id` stores any body, status included, so an edit bypasses the lifecycle (asset-ledger-express/routes/assets.js:176-189); `Assets.AssetEditOf` shows the page sends the status. The `/stock` aggregate uses an unimported `sequelize` and parses values with `parseFloat`.
- The dashboard counts and the hard-coded figures of the dashboard and stock pages: database counts and literal floating-point sums.
- The API client wrappers are network calls; their interfaces give the view datatypes, and whether a call succeeds is the `posted` parameter.
- Layout, routing and the 404 page: pure presentation.
- The seed script's database I/O; only its data is used, in `LedgerProperties.SeedSnapshot`, with short keys for its generated UUIDs and day numbers for its dates.
- `parseFloat` is kept symbolic (`Assets.ParseFloat`); DECIMAL(15, 2) money is integer hundredths in the schema.
- Clocks: `new Date()` and the column default `NOW` are one caller-supplied `now` per call.
- Which database calls fail at run time in the handlers (a malformed key, a foreign key, a lost connection): the `Outcomes` oracle decides. `TransactionRoutes.TwoWrites` does not derive a failed write from `Models.RefOk`. `LedgerProperties.KnownCallKeepsRefsValid` shows that a call naming existing rows writes only keys the store accepts.
- Models.InsertAsset, Models.InsertEmployee, Models.InsertTransaction: a key that is not a UUID (such as "") is reported as `ForeignKeyViolation`. PostgreSQL raises an invalid-input error for it instead. Either way the row is refused.
- A request body without `asset_id`: `findByPk(undefined)` finds nothing. That is the same 404 as an unknown id, so the asset id is a plain `Id`.
- Concurrency between requests: the model is sequential.
- List ordering (`ORDER BY asset_code`, `full_name`, `name`, `transaction_date DESC`): the form choices are sets and the page lists are taken in the order loaded.
- Reloading lists after a submit, loading spinners and the view dialogs other than the lines listed above.
- Case mapping is ASCII only; `toLowerCase` on other letters is the identity here.
- Transaction ids, and the `created_at`/`updated_at` timestamps.
- The category table is not part of `Snapshot`, since the handlers never read it; an asset's category key is not checked by `Models.AssetRefsValid`.

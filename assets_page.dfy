/**
 * The "Assets" page: its search filter, status badge, the new-asset dialog
 * and the payloads it sends for a new and an edited asset.
 */
module Assets {
  import opened Wrappers
  import opened Text
  import opened Lists
  import opened Forms
  import opened Models

  /** `parseFloat(text)`, kept symbolic: the page's numbers are whatever the browser parses. */
  datatype Number = ParseFloat(text: string)

  datatype NameSummary = NameSummary(name: string)
  datatype HolderSummary = HolderSummary(full_name: string)

  /** An asset as the list endpoint returns it, with its joined category, branch and holder. */
  datatype AssetView = AssetView(
    id: string,
    asset_code: string,
    name: string,
    category_id: string,
    branch_id: string,
    purchase_date: Option<string>,
    purchase_value: Option<Number>,
    current_value: Option<Number>,
    status: string,
    issued_to: Option<string>,
    issued_at: Option<string>,
    specifications: Option<string>,
    category: Option<NameSummary>,
    branch: Option<NameSummary>,
    employee: Option<HolderSummary>)

  // ------------------------------------------------------------------ search

  /** The search keeps an asset whose name or code contains the term. */
  predicate AssetMatches(a: AssetView, term: string) {
    ContainsCI(a.name, term) || ContainsCI(a.asset_code, term)
  }

  /** `filteredAssets`. */
  function FilteredAssets(s: seq<AssetView>, term: string): (r: seq<AssetView>)
    ensures SubSeq(r, s)
    ensures forall a :: a in r ==> a in s && AssetMatches(a, term)
    ensures forall a :: a in s && AssetMatches(a, term) ==> a in r
    ensures forall a :: a in s ==> multiset(r)[a] == if AssetMatches(a, term) then multiset(s)[a] else 0
  {
    Filter(s, a => AssetMatches(a, term))
  }

  /** The "Showing shown of total assets" footer. */
  function AssetsFooter(s: seq<AssetView>, term: string): (c: Counts)
    ensures c.total == |s| && c.shown == |FilteredAssets(s, term)|
    ensures c.shown == c.total <==> forall a :: a in s ==> AssetMatches(a, term)
  {
    Footer(s, a => AssetMatches(a, term))
  }

  /** An empty search shows every asset. */
  lemma EmptySearchShowsAllAssets(s: seq<AssetView>)
    ensures FilteredAssets(s, "") == s
  {
    forall a | a in s ensures AssetMatches(a, "") {
      ContainsCIEmpty(a.name);
    }
  }

  /** Typing more of the term only removes assets. */
  lemma AssetSearchNarrows(s: seq<AssetView>, term: string, more: string)
    ensures SubSeq(FilteredAssets(s, term + more), FilteredAssets(s, term))
  {
    forall a | a in s && AssetMatches(a, term + more) ensures AssetMatches(a, term) {
      if ContainsCI(a.name, term + more) {
        ContainsCINarrowing(a.name, term, more);
      } else {
        ContainsCINarrowing(a.asset_code, term, more);
      }
    }
    FilterMonotone(s, a => AssetMatches(a, term + more), a => AssetMatches(a, term));
  }

  /** Searching for an asset's own code, in any case, finds it. */
  lemma SearchByCodeFindsAsset(s: seq<AssetView>, a: AssetView)
    requires a in s
    ensures a in FilteredAssets(s, a.asset_code) && a in FilteredAssets(s, Upper(a.asset_code))
  {
    ContainsCISelf(a.asset_code);
  }

  // ------------------------------------------------------------------ badges

  const StockColor := "bg-success/10 text-success"
  const IssuedColor := "bg-primary/10 text-primary"
  const ScrappedColor := "bg-destructive/10 text-destructive"
  const OtherColor := "bg-secondary/10 text-secondary"

  /** `getStatusColor`. */
  function StatusColor(status: string): (r: string)
    ensures ParseStatus(status) == Some(Stock) <==> r == StockColor
    ensures ParseStatus(status) == Some(Issued) <==> r == IssuedColor
    ensures ParseStatus(status) == Some(Scrapped) <==> r == ScrappedColor
    ensures ParseStatus(status).None? <==> r == OtherColor
  {
    if status == "stock" then StockColor
    else if status == "issued" then IssuedColor
    else if status == "scrapped" then ScrappedColor
    else OtherColor
  }

  /** The badge text of the three statuses. */
  lemma StatusLabels()
    ensures Capitalize(StatusName(Stock)) == "Stock"
    ensures Capitalize(StatusName(Issued)) == "Issued"
    ensures Capitalize(StatusName(Scrapped)) == "Scrapped"
  {
  }

  /** The badge text is the status itself up to case. */
  lemma StatusLabelIsStatusIgnoringCase(status: string)
    ensures Lower(Capitalize(status)) == Lower(status)
  {
    var a, b := Lower(Capitalize(status)), Lower(status);
    forall i | 0 <= i < |status| ensures a[i] == b[i] {
      if i == 0 {
        assert a[0] == LowerChar(UpperChar(status[0]));
      } else {
        assert Capitalize(status)[i] == Capitalize(status)[1..][i - 1] == status[i];
      }
    }
  }

  /** The "Issued To" line of the detail dialog: shown for an issued asset with a joined holder. */
  function IssuedToLine(a: AssetView): (r: Option<string>)
    ensures r.Some? <==> a.status == "issued" && a.employee.Some?
    ensures r.Some? ==> r.value == a.employee.value.full_name
  {
    if a.status == "issued" && a.employee.Some? then Some(a.employee.value.full_name) else None
  }

  // ------------------------------------------------------------ new-asset form

  /** The dialog's fields: text inputs, and the status picker. */
  datatype AssetForm = AssetForm(
    asset_code: string,
    name: string,
    category_id: string,
    branch_id: string,
    purchase_date: string,
    purchase_value: string,
    current_value: string,
    status: AssetStatus,
    specifications: string)

  const DefaultAssetForm := AssetForm("", "", "", "", "", "", "", Stock, "")

  /**
   * The body posted for a new asset. `purchase_date` and `specifications`
   * are `None` when sent as null; the two values are `None` when the
   * property is not sent at all.
   */
  datatype AssetPayload = AssetPayload(
    asset_code: string,
    name: string,
    category_id: string,
    branch_id: string,
    purchase_date: Option<string>,
    status: AssetStatus,
    specifications: Option<string>,
    purchase_value: Option<Number>,
    current_value: Option<Number>)

  /** The property added only for a non-empty input: `if (text) data.x = parseFloat(text)`. */
  function NumberIfGiven(text: string): (r: Option<Number>)
    ensures r.None? <==> text == ""
    ensures r.Some? ==> r.value == ParseFloat(text)
  {
    if text == "" then None else Some(ParseFloat(text))
  }

  /** The form a payload was built from. */
  function FormOfPayload(p: AssetPayload): AssetForm {
    AssetForm(p.asset_code, p.name, p.category_id, p.branch_id,
              p.purchase_date.GetOr(""),
              if p.purchase_value.Some? then p.purchase_value.value.text else "",
              if p.current_value.Some? then p.current_value.value.text else "",
              p.status, p.specifications.GetOr(""))
  }

  /** The payload `handleAddAsset` builds; it loses nothing of the form. */
  function AssetPayloadOf(f: AssetForm): (p: AssetPayload)
    ensures FormOfPayload(p) == f
    ensures p.purchase_date != Some("") && p.specifications != Some("")
    ensures p.purchase_value.Some? <==> f.purchase_value != ""
    ensures p.current_value.Some? <==> f.current_value != ""
    ensures p.status == f.status
  {
    AssetPayload(f.asset_code, f.name, f.category_id, f.branch_id, NonEmpty(f.purchase_date), f.status,
                 NonEmpty(f.specifications), NumberIfGiven(f.purchase_value), NumberIfGiven(f.current_value))
  }

  /** An untouched form posts a stock asset with no date, values or specifications. */
  lemma DefaultFormPostsBareStockAsset()
    ensures AssetPayloadOf(DefaultAssetForm) == AssetPayload("", "", "", "", None, Stock, None, None, None)
  {
  }

  /** The body posted for an edited asset: its nine editable fields, status included. */
  datatype AssetEdit = AssetEdit(
    asset_code: string,
    name: string,
    category_id: string,
    branch_id: string,
    purchase_date: Option<string>,
    purchase_value: Option<Number>,
    current_value: Option<Number>,
    status: string,
    specifications: Option<string>)

  /** The fields an edit writes back onto the row it came from. */
  function ApplyAssetEdit(a: AssetView, e: AssetEdit): AssetView {
    a.(asset_code := e.asset_code, name := e.name, category_id := e.category_id, branch_id := e.branch_id,
       purchase_date := e.purchase_date, purchase_value := e.purchase_value, current_value := e.current_value,
       status := e.status, specifications := e.specifications)
  }

  /**
   * The payload `handleEditAsset` builds from the edited row. Written back
   * it gives that row again; in particular it carries the status, which the
   * update route stores without any lifecycle check.
   */
  function AssetEditOf(a: AssetView): (e: AssetEdit)
    ensures ApplyAssetEdit(a, e) == a
    ensures e.status == a.status
  {
    AssetEdit(a.asset_code, a.name, a.category_id, a.branch_id, a.purchase_date, a.purchase_value,
              a.current_value, a.status, a.specifications)
  }

  /** The new-asset dialog's state. */
  class AssetsPage {
    var newAsset: AssetForm
    var addOpen: bool

    constructor ()
      ensures newAsset == DefaultAssetForm && !addOpen
    {
      newAsset := DefaultAssetForm;
      addOpen := false;
    }

    /**
     * `handleAddAsset`: build the payload, post it, and on success close the
     * dialog and reset the form to its defaults. `posted` says whether the
     * request succeeded.
     */
    method AddAsset(posted: bool) returns (sent: AssetPayload, toast: Toast)
      modifies this
      ensures sent == AssetPayloadOf(old(newAsset))
      ensures posted ==> toast == Success("Asset created successfully") && newAsset == DefaultAssetForm && !addOpen
      ensures !posted ==> toast == Failure("Failed to create asset") && newAsset == old(newAsset) && addOpen == old(addOpen)
    {
      var f := newAsset;
      sent := AssetPayload(f.asset_code, f.name, f.category_id, f.branch_id, NonEmpty(f.purchase_date), f.status,
                           NonEmpty(f.specifications), None, None);
      if f.purchase_value != "" {
        sent := sent.(purchase_value := Some(ParseFloat(f.purchase_value)));
      }
      if f.current_value != "" {
        sent := sent.(current_value := Some(ParseFloat(f.current_value)));
      }
      if !posted {
        return sent, Failure("Failed to create asset");
      }
      toast := Success("Asset created successfully");
      addOpen := false;
      newAsset := DefaultAssetForm;
    }
  }
}

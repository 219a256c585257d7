/**
 * What the lifecycle handlers of routes/transactions.js guarantee, and what
 * they do not: the lifecycle realised by the form choices, the invariants
 * kept by calls the forms offer, the agreement between an asset's status and
 * its latest transaction, and the effect of the missing rollback.
 */
module LedgerProperties {
  import opened Wrappers
  import opened Models
  import opened TransactionRoutes

  /**
   * The lifecycle the GET forms realise: issue takes a stock asset to
   * issued, return takes an issued asset back to stock, scrap retires a stock
   * or issued asset; nothing leaves `scrapped`.
   */
  function Lifecycle(from: AssetStatus, k: TransactionType): Option<AssetStatus> {
    match (from, k)
    case (Stock, Issue) => Some(Issued)
    case (Issued, Return) => Some(Stock)
    case (Stock, Scrap) => Some(Scrapped)
    case (Issued, Scrap) => Some(Scrapped)
    case _ => None
  }

  /** The assets each form offers are exactly those the lifecycle lets its event start from. */
  lemma ChoicesAreLifecycleSources(s: Snapshot, id: Id)
    ensures id in IssueAssetChoices(s) <==> id in s.assets && Lifecycle(s.assets[id].status, Issue).Some?
    ensures id in ReturnChoices(s) <==> id in s.assets && Lifecycle(s.assets[id].status, Return).Some?
    ensures id in ScrapChoices(s) <==> id in s.assets && Lifecycle(s.assets[id].status, Scrap).Some?
  {
  }

  /** A call the forms offer moves its asset along the lifecycle, and nowhere else. */
  lemma OfferedCallFollowsLifecycle(s: Snapshot, c: Call, now: Timestamp, w: Outcomes)
    requires Offered(s, c) && Updated(s, CallAsset(c), w)
    ensures Lifecycle(s.assets[CallAsset(c)].status, CallKind(c)) == Some(Apply(s, c, now, w).after.assets[CallAsset(c)].status)
  {
  }

  /**
   * The handlers themselves check no status: a scrapped asset posted to
   * `/issue` is issued again, although the lifecycle has no way out of
   * `scrapped`.
   */
  lemma ScrappedAssetIsReissued(s: Snapshot, req: IssueRequest, now: Timestamp)
    requires req.asset_id in s.assets && s.assets[req.asset_id].status == Scrapped
    ensures Lifecycle(Scrapped, Issue) == None
    ensures var r := IssueAsset(s, req, now, Outcomes(true, true, true));
      r.response == Redirect(ListPath) && r.after.assets[req.asset_id].status == Issued
  {
  }

  // ------------------------------------------------------------ holder invariants

  /** Every issued asset has a holder. */
  ghost predicate IssuedHaveHolders(s: Snapshot) {
    forall id :: id in s.assets && s.assets[id].status == Issued ==> s.assets[id].issued_to.Some?
  }

  /** Every issued asset is held by an employee on record. */
  ghost predicate HoldersKnown(s: Snapshot) {
    forall id :: id in s.assets && s.assets[id].status == Issued ==>
      s.assets[id].issued_to.Some? && s.assets[id].issued_to.value in s.employees
  }

  /** An asset has a holder exactly when it is issued. */
  ghost predicate HolderIffIssued(s: Snapshot) {
    forall id :: id in s.assets ==> (s.assets[id].status == Issued <==> s.assets[id].issued_to.Some?)
  }

  /**
   * An issue that took effect and left its asset without a holder: the body
   * sent `employee_id` as null, or left it out on an asset that had none.
   */
  predicate IssueLeavesNoHolder(s: Snapshot, c: Call, w: Outcomes) {
    c.IssueCall? && Updated(s, CallAsset(c), w) && UpdateValue(c.issue.employee_id, s.assets[CallAsset(c)].issued_to).None?
  }

  /**
   * "Issued implies a holder" survives every call except an issue that leaves
   * no holder; in particular every call whose body names an employee keeps it.
   */
  lemma CallKeepsIssuedHaveHolders(s: Snapshot, c: Call, now: Timestamp, w: Outcomes)
    requires IssuedHaveHolders(s)
    ensures IssuedHaveHolders(Apply(s, c, now, w).after) <==> !IssueLeavesNoHolder(s, c, w)
  {
    var t := Apply(s, c, now, w).after;
    var id := CallAsset(c);
    if IssueLeavesNoHolder(s, c, w) {
      assert t.assets[id].status == Issued && t.assets[id].issued_to.None?;
    } else {
      forall i | i in t.assets && t.assets[i].status == Issued ensures t.assets[i].issued_to.Some? {
        if i == id && Updated(s, id, w) {
          assert c.IssueCall?;
        }
      }
    }
  }

  /**
   * The call names rows that exist: its asset, and for an issue its employee
   * and branch. Both the GET forms and the React page only offer such rows.
   */
  predicate NamesKnownRows(s: Snapshot, c: Call) {
    && CallAsset(c) in s.assets
    && (c.IssueCall? ==>
          && c.issue.employee_id.Given? && c.issue.employee_id.id in s.employees
          && c.issue.branch_id.Given? && c.issue.branch_id.id in s.branches)
  }

  /** The GET forms offer only known rows. */
  lemma OfferedNamesKnownRows(s: Snapshot, c: Call)
    requires Offered(s, c)
    ensures NamesKnownRows(s, c)
  {
  }

  /** A call naming known rows keeps every issued asset held by a known employee. */
  lemma KnownCallKeepsHoldersKnown(s: Snapshot, c: Call, now: Timestamp, w: Outcomes)
    requires HoldersKnown(s) && NamesKnownRows(s, c)
    ensures HoldersKnown(Apply(s, c, now, w).after)
  {
    var t := Apply(s, c, now, w).after;
    forall id | id in t.assets && t.assets[id].status == Issued
      ensures t.assets[id].issued_to.Some? && t.assets[id].issued_to.value in t.employees
    {
      if id == CallAsset(c) && Updated(s, id, w) {
        assert c.IssueCall?;
      }
    }
  }

  /** Scrapping an issued asset: the update took effect on an asset that was issued. */
  predicate ScrapsIssuedAsset(s: Snapshot, c: Call, w: Outcomes) {
    c.ScrapCall? && Updated(s, CallAsset(c), w) && s.assets[CallAsset(c)].status == Issued
  }

  /**
   * "Holder exactly when issued" survives every call except two: a scrap of
   * an issued asset, which leaves `issued_to` set on a scrapped asset, and an
   * issue that leaves no holder on an issued asset.
   */
  lemma HolderIffIssuedBrokenOnlyByScrapOrHolderlessIssue(s: Snapshot, c: Call, now: Timestamp, w: Outcomes)
    requires HolderIffIssued(s)
    ensures HolderIffIssued(Apply(s, c, now, w).after) <==> !ScrapsIssuedAsset(s, c, w) && !IssueLeavesNoHolder(s, c, w)
  {
    var t := Apply(s, c, now, w).after;
    var id := CallAsset(c);
    if ScrapsIssuedAsset(s, c, w) {
      assert t.assets[id].status == Scrapped && t.assets[id].issued_to.Some?;
    } else if IssueLeavesNoHolder(s, c, w) {
      assert t.assets[id].status == Issued && t.assets[id].issued_to.None?;
    } else {
      forall i | i in t.assets ensures (t.assets[i].status == Issued <==> t.assets[i].issued_to.Some?) {
        if i == id && Updated(s, id, w) {
          match c
          case IssueCall(_) =>
          case ReturnCall(_) =>
          case ScrapCall(_) => assert s.assets[id].status != Issued;
        }
      }
    }
  }

  /**
   * A body without `employee_id` or `branch_id` is accepted: the stock asset
   * is marked issued with no holder and the record names no one.
   */
  lemma IssueWithoutEmployeeLeavesNoHolder()
    ensures var r := IssueAsset(ScenarioStart(), IssueRequest("A", Missing, Missing, None), 1, Outcomes(true, true, true));
      && r.response == Redirect(ListPath)
      && r.after.assets["A"].status == Issued && r.after.assets["A"].issued_to == None
      && |r.after.transactions| == 1
      && r.after.transactions[0].employee_id == None && r.after.transactions[0].branch_id == None
      && HolderIffIssued(ScenarioStart()) && !HolderIffIssued(r.after)
  {
    var r := IssueAsset(ScenarioStart(), IssueRequest("A", Missing, Missing, None), 1, Outcomes(true, true, true));
    assert r.after.assets["A"].status == Issued && r.after.assets["A"].issued_to == None;
  }

  // ------------------------------------------------------ references

  /** Every key on an asset or transaction names an existing row. */
  ghost predicate RefsValid(s: Snapshot) {
    && (forall id :: id in s.assets ==> AssetRefsValid(s.assets[id], s.branches, s.employees))
    && (forall k :: 0 <= k < |s.transactions| ==> TransactionRefsValid(s.transactions[k], s.assets, s.employees, s.branches))
  }

  /** A call naming known rows writes no dangling key. */
  lemma KnownCallKeepsRefsValid(s: Snapshot, c: Call, now: Timestamp, w: Outcomes)
    requires RefsValid(s) && NamesKnownRows(s, c)
    ensures RefsValid(Apply(s, c, now, w).after)
  {
    var t := Apply(s, c, now, w).after;
    var id := CallAsset(c);
    forall i | i in t.assets ensures AssetRefsValid(t.assets[i], t.branches, t.employees) {
      if i == id && Updated(s, id, w) {
        assert AssetRefsValid(s.assets[id], s.branches, s.employees);
      }
    }
    forall k | 0 <= k < |t.transactions| ensures TransactionRefsValid(t.transactions[k], t.assets, t.employees, t.branches) {
      if k < |s.transactions| {
        assert t.transactions[k] == s.transactions[k] by {
          assert t.transactions[..|s.transactions|] == s.transactions;
        }
        assert TransactionRefsValid(s.transactions[k], s.assets, s.employees, s.branches);
      } else {
        assert AssetRefsValid(s.assets[id], s.branches, s.employees);
      }
    }
  }

  /** The handlers never touch asset_code, so its uniqueness survives every call. */
  lemma CallKeepsAssetCodesUnique(s: Snapshot, c: Call, now: Timestamp, w: Outcomes)
    requires UniqueBy(s.assets, AssetCode)
    ensures UniqueBy(Apply(s, c, now, w).after.assets, AssetCode)
  {
    var t := Apply(s, c, now, w).after;
    forall i | i in t.assets ensures AssetCode(t.assets[i]) == AssetCode(s.assets[i]) {
      if i == CallAsset(c) && Updated(s, i, w) {
        assert SameDescription(t.assets[i], s.assets[i]);
      }
    }
  }

  // ------------------------------------------------------ status and log

  /** The type of the latest transaction logged for asset `id`, if any. */
  function LastKind(log: seq<AssetTransaction>, id: Id): Option<TransactionType>
    decreases |log|
  {
    if log == [] then None
    else if LastRow(log).asset_id == Some(id) then Some(LastRow(log).transaction_type)
    else LastKind(log[..|log| - 1], id)
  }

  /** The number of transactions logged for asset `id`. */
  function CountFor(log: seq<AssetTransaction>, id: Id): nat
    decreases |log|
  {
    if log == [] then 0
    else CountFor(log[..|log| - 1], id) + (if LastRow(log).asset_id == Some(id) then 1 else 0)
  }

  /** Each asset's status is the one written by its latest transaction. */
  ghost predicate StatusAgreesWithLog(s: Snapshot) {
    forall id :: id in s.assets && LastKind(s.transactions, id).Some? ==>
      s.assets[id].status == WrittenStatus(LastKind(s.transactions, id).value)
  }

  /** A call whose two writes both succeed, or both fail, keeps the status in agreement with the log. */
  lemma CompleteCallKeepsLogAgreement(s: Snapshot, c: Call, now: Timestamp, w: Outcomes)
    requires StatusAgreesWithLog(s)
    requires w.updateOk ==> w.insertOk
    ensures StatusAgreesWithLog(Apply(s, c, now, w).after)
  {
    var t := Apply(s, c, now, w).after;
    if Logged(s, CallAsset(c), w) {
      assert t.transactions[..|t.transactions| - 1] == s.transactions;
      forall i | i in t.assets && LastKind(t.transactions, i).Some?
        ensures t.assets[i].status == WrittenStatus(LastKind(t.transactions, i).value)
      {
        if i != CallAsset(c) {
          assert LastKind(t.transactions, i) == LastKind(s.transactions, i);
        }
      }
    }
  }

  /**
   * Without a rollback, an insert that fails after the update leaves the
   * status out of step with the log: here a returned asset is issued, the
   * insert fails, and the asset is issued while its latest record is a return.
   */
  lemma FailedInsertBreaksLogAgreement()
    ensures var a := Asset("LAP002", "MacBook Pro 16", None, Some("b1"), None, None, None, Stock, None, None);
      var s := Snapshot(map["a2" := a], [AssetTransaction(Some("a2"), None, Some("b1"), Return, 1, None, None)],
                        map["e1" := Employee("EMP001", "John Smith", None, None, None, None, Some("b1"), true)],
                        map["b1" := Branch("Main Office", None)]);
      var r := IssueAsset(s, IssueRequest("a2", Given("e1"), Given("b1"), None), 2, Outcomes(true, true, false));
      && StatusAgreesWithLog(s) && Offered(s, IssueCall(IssueRequest("a2", Given("e1"), Given("b1"), None)))
      && r.response == ServerError("Error issuing asset")
      && r.after.assets["a2"].status == Issued
      && !StatusAgreesWithLog(r.after)
  {
    var a := Asset("LAP002", "MacBook Pro 16", None, Some("b1"), None, None, None, Stock, None, None);
    var log := [AssetTransaction(Some("a2"), None, Some("b1"), Return, 1, None, None)];
    assert LastKind(log, "a2") == Some(Return);
  }

  /** A call logs at most one row, for its own asset, and exactly one when it succeeds. */
  lemma CallLogsForItsAssetOnly(s: Snapshot, c: Call, now: Timestamp, w: Outcomes)
    ensures var t := Apply(s, c, now, w);
      CountFor(t.after.transactions, CallAsset(c)) == CountFor(s.transactions, CallAsset(c)) + (if t.response.Redirect? then 1 else 0)
    ensures var t := Apply(s, c, now, w);
      forall i :: i != CallAsset(c) ==> CountFor(t.after.transactions, i) == CountFor(s.transactions, i)
  {
    var t := Apply(s, c, now, w).after;
    if Logged(s, CallAsset(c), w) {
      assert t.transactions[..|t.transactions| - 1] == s.transactions;
    }
  }

  // ---------------------------------------------------------------- runs

  /** One request with the clock reading and store outcomes it met. */
  datatype Event = Event(call: Call, now: Timestamp, outcomes: Outcomes)

  /** The database after a sequence of requests, handled one at a time. */
  function Run(s: Snapshot, evs: seq<Event>): Snapshot
    decreases |evs|
  {
    if evs == [] then s
    else Run(Apply(s, evs[0].call, evs[0].now, evs[0].outcomes).after, evs[1..])
  }

  /** Every request of the sequence is one the forms offered at its turn. */
  ghost predicate OfferedRun(s: Snapshot, evs: seq<Event>)
    decreases |evs|
  {
    evs == [] ||
    (Offered(s, evs[0].call) && OfferedRun(Apply(s, evs[0].call, evs[0].now, evs[0].outcomes).after, evs[1..]))
  }

  /** Over any sequence of requests the log only grows and no asset row appears or disappears. */
  lemma {:induction false} RunIsAppendOnly(s: Snapshot, evs: seq<Event>)
    ensures s.transactions <= Run(s, evs).transactions
    ensures Run(s, evs).assets.Keys == s.assets.Keys
    ensures Run(s, evs).employees == s.employees && Run(s, evs).branches == s.branches
    decreases |evs|
  {
    if evs != [] {
      var t := Apply(s, evs[0].call, evs[0].now, evs[0].outcomes).after;
      RunIsAppendOnly(t, evs[1..]);
    }
  }

  /** Requests made through the forms keep every holder known and every key valid. */
  lemma {:induction false} OfferedRunKeepsConsistency(s: Snapshot, evs: seq<Event>)
    requires HoldersKnown(s) && RefsValid(s) && OfferedRun(s, evs)
    ensures HoldersKnown(Run(s, evs)) && RefsValid(Run(s, evs))
    decreases |evs|
  {
    if evs != [] {
      var e := evs[0];
      OfferedNamesKnownRows(s, e.call);
      KnownCallKeepsHoldersKnown(s, e.call, e.now, e.outcomes);
      KnownCallKeepsRefsValid(s, e.call, e.now, e.outcomes);
      OfferedRunKeepsConsistency(Apply(s, e.call, e.now, e.outcomes).after, evs[1..]);
    }
  }

  /** Requests whose writes never half-succeed keep every status in agreement with the log. */
  lemma {:induction false} CompleteRunKeepsLogAgreement(s: Snapshot, evs: seq<Event>)
    requires StatusAgreesWithLog(s)
    requires forall k :: 0 <= k < |evs| ==> (evs[k].outcomes.updateOk ==> evs[k].outcomes.insertOk)
    ensures StatusAgreesWithLog(Run(s, evs))
    decreases |evs|
  {
    if evs != [] {
      var e := evs[0];
      CompleteCallKeepsLogAgreement(s, e.call, e.now, e.outcomes);
      CompleteRunKeepsLogAgreement(Apply(s, e.call, e.now, e.outcomes).after, evs[1..]);
    }
  }

  // ------------------------------------------------------------- scenarios

  /** Asset A in stock, two employees, two branches, an empty log. */
  function ScenarioStart(): Snapshot {
    Snapshot(
      map["A" := Asset("A-001", "Asset A", None, Some("X"), None, None, None, Stock, None, None)],
      [],
      map["emp1" := Employee("E1", "Employee One", None, None, None, None, Some("X"), true),
          "emp2" := Employee("E2", "Employee Two", None, None, None, None, Some("Y"), true)],
      map["X" := Branch("Branch X", None), "Y" := Branch("Branch Y", None)])
  }

  /**
   * Issue, return, scrap, issue again on one asset, every write succeeding, as
   * the handlers are written: the return and scrap records have no employee,
   * and issuing the scrapped asset succeeds with a fourth record.
   */
  lemma ScenarioAsWritten()
    ensures var ok := Outcomes(true, true, true);
      var s1 := IssueAsset(ScenarioStart(), IssueRequest("A", Given("emp1"), Given("X"), None), 1, ok).after;
      var s2 := ReturnAsset(s1, AssetRequest("A", None), 2, ok).after;
      var s3 := ScrapAsset(s2, AssetRequest("A", None), 3, ok).after;
      var r4 := IssueAsset(s3, IssueRequest("A", Given("emp2"), Given("Y"), None), 4, ok);
      && s1.assets["A"].status == Issued && s1.assets["A"].issued_to == Some("emp1")
      && |s1.transactions| == 1 && s1.transactions[0].transaction_type == Issue
      && s2.assets["A"].status == Stock && s2.assets["A"].issued_to == None
      && |s2.transactions| == 2 && s2.transactions[1].transaction_type == Return && s2.transactions[1].employee_id == None
      && s3.assets["A"].status == Scrapped
      && |s3.transactions| == 3 && s3.transactions[2].transaction_type == Scrap && s3.transactions[2].employee_id == None
      && r4.response == Redirect(ListPath) && r4.after.assets["A"].status == Issued
      && |r4.after.transactions| == 4
  {
  }

  /** The sample data of setup-db.js, with short keys standing for its generated UUIDs. */
  function SeedSnapshot(): Snapshot {
    Snapshot(
      map["lap001" := Asset("LAP001", "Dell XPS 15", Some("laptop"), Some("main"), Some(20230115), Some(120000), Some(80000), Issued, Some("emp001"), None),
          "lap002" := Asset("LAP002", "MacBook Pro 16", Some("laptop"), Some("main"), Some(20230220), Some(250000), Some(180000), Stock, None, None),
          "phn001" := Asset("PHN001", "iPhone 14 Pro", Some("phone"), Some("downtown"), Some(20230310), Some(99900), Some(75000), Issued, Some("emp003"), None)],
      [AssetTransaction(Some("lap001"), Some("emp001"), Some("main"), Issue, 0, Some("Initial issue to employee"), None),
       AssetTransaction(Some("phn001"), Some("emp003"), Some("downtown"), Issue, 0, Some("New phone for sales team"), None)],
      map["emp001" := Employee("EMP001", "John Smith", Some("john.smith@company.com"), Some("555-1234"), Some("Software Engineer"), Some("IT"), Some("main"), true),
          "emp002" := Employee("EMP002", "Jane Doe", Some("jane.doe@company.com"), Some("555-5678"), Some("HR Manager"), Some("Human Resources"), Some("main"), true),
          "emp003" := Employee("EMP003", "Bob Johnson", Some("bob.johnson@company.com"), Some("555-9012"), Some("Sales Representative"), Some("Sales"), Some("downtown"), true)],
      map["main" := Branch("Main Office", Some("123 Main St, City Center")),
          "downtown" := Branch("Downtown Branch", Some("456 Downtown Ave, City Center"))])
  }

  /** The sample data satisfies every invariant above. */
  lemma SeedIsConsistent()
    ensures HoldersKnown(SeedSnapshot()) && HolderIffIssued(SeedSnapshot()) && RefsValid(SeedSnapshot())
    ensures StatusAgreesWithLog(SeedSnapshot())
    ensures UniqueBy(SeedSnapshot().assets, AssetCode)
  {
    var s := SeedSnapshot();
    assert LastKind(s.transactions, "lap001") == Some(Issue);
    assert LastKind(s.transactions, "phn001") == Some(Issue);
    assert LastKind(s.transactions, "lap002") == None;
  }
}

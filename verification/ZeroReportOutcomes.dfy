/** What the operations on zero reports do to the store, in terms of its rows alone. */
module ZeroReportOutcomes {
  import opened Common
  import opened Store
  import opened ZeroReportSpec
  import opened ZeroGate

  /** Report i is the latest of the object. */
  predicate IsLatest(reports: seq<ZeroReport>, site: int, i: nat) {
    i < |reports| && reports[i].site == site && forall j | i < j < |reports| :: reports[j].site != site
  }

  lemma LatestIs(reports: seq<ZeroReport>, site: int, i: nat)
    requires IsLatest(reports, site, i)
    ensures LatestReport(reports, site) == Some(i)
  {
    hide LatestReport;
    assert reports[i] in reports;
  }

  /** Without a report, it can neither be edited nor submitted nor approved. */
  lemma NoReportNoChange(db: Db, site: int, item: int, volume: real, docs: Docs)
    requires forall r | r in db.reports :: r.site != site
    ensures var e := if site in db.sites then Some(ZeroReportNotFound) else Some(ObjectNotFound);
      UpsertItem(db, site, item, volume, docs).Error() == e && Submit(db, site).Error() == e
        && Approve(db, site).Error() == e
  {
    assert LatestReport(db.reports, site).None?;
    hide LatestReport, ItemsError, ItemExists;
  }

  // ---- create ----

  lemma CreateRefuses(db: Db, site: int, version: nat)
    ensures Create(db, site, version).Error() ==
      Needs(site in db.sites, ObjectNotFound,
      Needs(version < |db.versions|, BoqVersionNotFound,
      Needs(version < |db.versions| ==> db.versions[version].site == site, BoqVersionObjectMismatch,
      Needs(forall r | r in db.reports && r.site == site ::
        r.status == ReportRejected, ZeroReportAlreadyExists, None))))
  {
  }

  lemma CreateAdds(db: Db, site: int, version: nat)
    requires Create(db, site, version).Ok?
    ensures Create(db, site, version).value == db.(reports := db.reports + [ZeroReport(site, version, Draft, map[])])
  {
  }

  // ---- editing ----

  lemma EditRefuses(db: Db, site: int, item: int, volume: real, docs: Docs, i: nat)
    requires IsLatest(db.reports, site, i)
    ensures var version := db.reports[i].version;
      UpsertItem(db, site, item, volume, docs).Error() ==
      Needs(site in db.sites, ObjectNotFound,
      Needs(db.reports[i].status == Draft, ZeroReportInvalidStatus,
      Needs(exists v, x | v in db.versions && x in v.items :: x.id == item, BoqItemNotFound,
      Needs(version < |db.versions| && exists x | x in db.versions[version].items ::
        x.id == item, BoqItemVersionMismatch,
      Needs(volume >= 0.0, ConstraintViolation, None)))))
  {
    LatestIs(db.reports, site, i);
    var version := db.reports[i].version;
    assert ItemExists(db, item) <==> exists v, x | v in db.versions && x in v.items :: x.id == item by {
      if v, x :| v in db.versions && x in v.items && x.id == item { assert HasItem(v.items, item); }
    }
    assert HasItem(ItemsOf(db, version), item) <==>
      version < |db.versions| && exists x | x in db.versions[version].items :: x.id == item;
    hide LatestReport, ItemExists, HasItem, ItemsOf, AllDocs;
  }

  /** An entry holds its volume, and is cross-verified exactly when all three documents are there. */
  lemma EditWrites(db: Db, site: int, item: int, volume: real, docs: Docs, i: nat)
    requires IsLatest(db.reports, site, i) && UpsertItem(db, site, item, volume, docs).Ok?
    ensures var r := db.reports[i];
      var all := docs.doc1.Some? && docs.doc2.Some? && docs.doc3.Some?;
      UpsertItem(db, site, item, volume, docs).value ==
        db.(reports := db.reports[i := r.(items := r.items[item := ReportItem(volume, all)])])
  {
    LatestIs(db.reports, site, i);
    hide LatestReport, ItemExists, HasItem, ItemsOf;
  }

  // ---- submission and approval ----

  lemma SubmitRefuses(db: Db, site: int, i: nat)
    requires IsLatest(db.reports, site, i)
    ensures Submit(db, site).Error() ==
      Needs(site in db.sites, ObjectNotFound,
      Needs(db.reports[i].status == Draft, ZeroReportInvalidStatus,
      Needs(|db.reports[i].items| > 0, ZeroReportNoItems, None)))
  {
    LatestIs(db.reports, site, i);
    hide LatestReport;
  }

  lemma SubmitWrites(db: Db, site: int, i: nat)
    requires IsLatest(db.reports, site, i) && Submit(db, site).Ok?
    ensures Submit(db, site).value == db.(reports := db.reports[i := db.reports[i].(status := PendingApproval)])
  {
    LatestIs(db.reports, site, i);
    hide LatestReport;
  }

  function ItemsOfReport(db: Db, i: nat): seq<Item>
    requires i < |db.reports|
  {
    if db.reports[i].version < |db.versions| then db.versions[db.reports[i].version].items else []
  }

  /** The latest report is approved exactly when it waits for it, no other is approved, and it has an
      entry for every item of its version, cross-verified for the critical and the heavy ones. */
  lemma ApprovedIff(db: Db, site: int, i: nat)
    requires IsLatest(db.reports, site, i)
    ensures var threshold := if site in db.sites then db.sites[site].config.weightThreshold else 0.1;
      Approve(db, site).Ok? <==>
        site in db.sites && db.reports[i].status == PendingApproval
        && (forall o | o in db.reports && o.site == site :: o.status != Approved)
        && Covers(ItemsOfReport(db, i), db.reports[i].items, threshold)
  {
    LatestIs(db.reports, site, i);
    NoErrorIffCovers(ItemsOf(db, db.reports[i].version), db.reports[i].items, ConfigOf(db, site).weightThreshold);
    hide LatestReport, ItemsError, Covers;
  }

  lemma ApproveWrites(db: Db, site: int, i: nat)
    requires IsLatest(db.reports, site, i) && Approve(db, site).Ok?
    ensures Approve(db, site).value == db.(reports := db.reports[i := db.reports[i].(status := Approved)])
  {
    LatestIs(db.reports, site, i);
    hide LatestReport, ItemsError, ItemsOf, ConfigOf;
  }

  /** An item without an entry is named before a missing cross verification of a later item, and the
      other way round: the first item in order decides. */
  lemma {:induction false} FirstItemDecides(items: seq<Item>, entries: map<int, ReportItem>, threshold: real, n: nat)
    requires n < |items| && Covers(items[..n], entries, threshold) && !Covers([items[n]], entries, threshold)
    ensures ItemsError(items, entries, threshold) ==
      Some(if items[n].id in entries then ZeroReportCrossVerificationRequired else ZeroReportNotAllItems)
    decreases n
  {
    var x := items[0];
    if n > 0 {
      assert items[..n][0] == x && x in items[..n];
      assert items[1..][..n - 1] == items[..n][1..];
      assert forall y | y in items[1..][..n - 1] :: y in items[..n];
      FirstItemDecides(items[1..], entries, threshold, n - 1);
    } else {
      assert forall y | y in [items[0]] :: y == x;
    }
  }
}

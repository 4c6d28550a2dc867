/** The zero report of an object: drafting, submission and approval. */
module ZeroReportSpec {
  import opened Common
  import opened Store

  /** The latest report of the object. */
  function LatestReport(reports: seq<ZeroReport>, site: int): (r: Option<nat>)
    ensures r.Some? ==> r.value < |reports| && reports[r.value].site == site
    ensures r.Some? ==> forall i | r.value < i < |reports| :: reports[i].site != site
    ensures r.None? ==> forall x | x in reports :: x.site != site
  {
    if reports == [] then None
    else if reports[|reports| - 1].site == site then Some(|reports| - 1)
    else LatestReport(reports[..|reports| - 1], site)
  }

  function Create(db: Db, site: int, version: nat): Result<Db> {
    if site !in db.sites then Fail(ObjectNotFound)
    else if version >= |db.versions| then Fail(BoqVersionNotFound)
    else if db.versions[version].site != site then Fail(BoqVersionObjectMismatch)
    else if exists r | r in db.reports ::
      r.site == site && r.status != ReportRejected then Fail(ZeroReportAlreadyExists)
    else Ok(db.(reports := db.reports + [ZeroReport(site, version, Draft, map[])]))
  }

  /** The three source documents of an item's volume. */
  datatype Docs = Docs(doc1: Option<real>, doc2: Option<real>, doc3: Option<real>)

  predicate AllDocs(d: Docs) { d.doc1.Some? && d.doc2.Some? && d.doc3.Some? }

  predicate ItemExists(db: Db, item: int) { exists v | v in db.versions :: HasItem(v.items, item) }

  function UpsertItem(db: Db, site: int, item: int, factVolume: real, docs: Docs): Result<Db> {
    var latest := LatestReport(db.reports, site);
    if site !in db.sites then Fail(ObjectNotFound)
    else if latest.None? then Fail(ZeroReportNotFound)
    else
      var r := db.reports[latest.value];
      if r.status != Draft then Fail(ZeroReportInvalidStatus)
      else if !ItemExists(db, item) then Fail(BoqItemNotFound)
      else if !HasItem(ItemsOf(db, r.version), item) then Fail(BoqItemVersionMismatch)
      else if factVolume < 0.0 then Fail(ConstraintViolation)
      else Ok(db.(reports := db.reports[latest.value := r.(items := r.items[item := ReportItem(factVolume,
        AllDocs(docs))])]))
  }

  function Submit(db: Db, site: int): Result<Db> {
    var latest := LatestReport(db.reports, site);
    if site !in db.sites then Fail(ObjectNotFound)
    else if latest.None? then Fail(ZeroReportNotFound)
    else
      var r := db.reports[latest.value];
      if r.status != Draft then Fail(ZeroReportInvalidStatus)
      else if r.items == map[] then Fail(ZeroReportNoItems)
      else Ok(db.(reports := db.reports[latest.value := r.(status := PendingApproval)]))
  }

  predicate IsHeavy(x: Item, threshold: real) { x.critical || (x.weight.Some? && x.weight.value >= threshold) }

  /** The first reason against approval, in item order. */
  function ItemsError(items: seq<Item>, entries: map<int, ReportItem>, threshold: real): Option<Error> {
    if items == [] then None
    else
      var x := items[0];
      if x.id !in entries then Some(ZeroReportNotAllItems)
      else if IsHeavy(x, threshold) && !entries[x.id].crossVerified then Some(ZeroReportCrossVerificationRequired)
      else ItemsError(items[1..], entries, threshold)
  }

  function Approve(db: Db, site: int): Result<Db> {
    var latest := LatestReport(db.reports, site);
    if site !in db.sites then Fail(ObjectNotFound)
    else if latest.None? then Fail(ZeroReportNotFound)
    else
      var r := db.reports[latest.value];
      if r.status != PendingApproval then Fail(ZeroReportInvalidStatus)
      else if exists o | o in db.reports :: o.site == site && o.status == Approved then Fail(ZeroReportAlreadyApproved)
      else
        var e := ItemsError(ItemsOf(db, r.version), r.items, ConfigOf(db, site).weightThreshold);
        if e.Some? then Fail(e.value)
        else Ok(db.(reports := db.reports[latest.value := r.(status := Approved)]))
  }
}

/** The zero-report service, proved against ZeroReportSpec. */
module ZeroReportServices {
  import opened Common
  import opened Store
  import opened ZeroReportSpec

  class ZeroReportService {
    const db: Database

    constructor (db: Database)
      ensures this.db == db
    {
      this.db := db;
    }

    method Create(site: int, version: nat) returns (e: Option<Error>)
      modifies db
      ensures var r := ZeroReportSpec.Create(old(db.View()), site, version);
        e == r.Error() && db.View() == r.Or(old(db.View()))
    {
      if site !in db.sites { return Some(ObjectNotFound); }
      if version >= |db.versions| { return Some(BoqVersionNotFound); }
      if db.versions[version].site != site { return Some(BoqVersionObjectMismatch); }
      if exists r | r in db.reports ::
        r.site == site && r.status != ReportRejected { return Some(ZeroReportAlreadyExists); }
      db.reports := db.reports + [ZeroReport(site, version, Draft, map[])];
      return None;
    }

    method UpsertItem(site: int, item: int, factVolume: real, docs: Docs) returns (e: Option<Error>)
      modifies db
      ensures var r := ZeroReportSpec.UpsertItem(old(db.View()), site, item, factVolume, docs);
        e == r.Error() && db.View() == r.Or(old(db.View()))
    {
      if site !in db.sites { return Some(ObjectNotFound); }
      var latest := LatestReport(db.reports, site);
      if latest.None? { return Some(ZeroReportNotFound); }
      var r := db.reports[latest.value];
      if r.status != Draft { return Some(ZeroReportInvalidStatus); }
      if !ItemExists(db.View(), item) { return Some(BoqItemNotFound); }
      if !HasItem(ItemsOf(db.View(), r.version), item) { return Some(BoqItemVersionMismatch); }
      if factVolume < 0.0 { return Some(ConstraintViolation); }
      var crossVerified := docs.doc1.Some? && docs.doc2.Some? && docs.doc3.Some?;
      db.reports := db.reports[latest.value := r.(items := r.items[item := ReportItem(factVolume, crossVerified)])];
      return None;
    }

    method Submit(site: int) returns (e: Option<Error>)
      modifies db
      ensures var r := ZeroReportSpec.Submit(old(db.View()), site);
        e == r.Error() && db.View() == r.Or(old(db.View()))
    {
      if site !in db.sites { return Some(ObjectNotFound); }
      var latest := LatestReport(db.reports, site);
      if latest.None? { return Some(ZeroReportNotFound); }
      var r := db.reports[latest.value];
      if r.status != Draft { return Some(ZeroReportInvalidStatus); }
      if |r.items| == 0 { return Some(ZeroReportNoItems); }
      db.reports := db.reports[latest.value := r.(status := PendingApproval)];
      return None;
    }

    method Approve(site: int) returns (e: Option<Error>)
      modifies db
      ensures var r := ZeroReportSpec.Approve(old(db.View()), site);
        e == r.Error() && db.View() == r.Or(old(db.View()))
    {
      if site !in db.sites { return Some(ObjectNotFound); }
      var latest := LatestReport(db.reports, site);
      if latest.None? { return Some(ZeroReportNotFound); }
      var report := db.reports[latest.value];
      if report.status != PendingApproval { return Some(ZeroReportInvalidStatus); }
      if exists o | o in db.reports ::
        o.site == site && o.status == Approved { return Some(ZeroReportAlreadyApproved); }
      var boqItems := ItemsOf(db.View(), report.version);
      var weightThreshold := ConfigOf(db.View(), site).weightThreshold;
      for i := 0 to |boqItems|
        invariant db.View() == old(db.View())
        invariant ItemsError(boqItems[i..], report.items, weightThreshold) == ItemsError(boqItems, report.items,
          weightThreshold)
      {
        var x := boqItems[i];
        assert boqItems[i..][0] == x && boqItems[i..][1..] == boqItems[i + 1..];
        if x.id !in report.items { return Some(ZeroReportNotAllItems); }
        var isHeavy := x.critical || (x.weight.Some? && x.weight.value >= weightThreshold);
        if isHeavy && !report.items[x.id].crossVerified { return Some(ZeroReportCrossVerificationRequired); }
      }
      db.reports := db.reports[latest.value := report.(status := Approved)];
      return None;
    }
  }
}

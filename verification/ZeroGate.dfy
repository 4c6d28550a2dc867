/** The zero-report gate: no period without an approved report of the whole BoQ version. */
module ZeroGate {
  import opened Common
  import opened Store
  import opened Derived
  import opened PeriodSpec
  import opened ZeroReportSpec
  import opened Runs
  import opened Lifecycle
  import opened Volumes

  /** The report has an entry for every item; those of critical items, and of items whose weight
      reaches the threshold, are cross-verified. */
  ghost predicate Covers(items: seq<Item>, entries: map<int, ReportItem>, threshold: real) {
    forall x | x in items ::
      x.id in entries
      && (x.critical ==> entries[x.id].crossVerified)
      && (x.weight.Some? && x.weight.value >= threshold ==> entries[x.id].crossVerified)
  }

  /** The loop of the approval accepts exactly the reports that cover the version. */
  lemma {:induction false} NoErrorIffCovers(items: seq<Item>, entries: map<int, ReportItem>, threshold: real)
    ensures ItemsError(items, entries, threshold).None? <==> Covers(items, entries, threshold)
  {
    if items != [] {
      NoErrorIffCovers(items[1..], entries, threshold);
      assert items[0] in items && forall x | x in items :: x == items[0] || x in items[1..];
    }
  }

  ghost predicate ReportOk(db: Db, r: ZeroReport) {
    && r.version < |db.versions| && db.versions[r.version].site == r.site
    && r.status != ReportRejected
    && (r.status == Approved ==> Covers(db.versions[r.version].items, r.items, ConfigOf(db, r.site).weightThreshold))
  }

  /** Each object has at most one report, and every approved one covers its version. */
  ghost predicate ReportsOk(db: Db) {
    && (forall r | r in db.reports :: ReportOk(db, r))
    && (forall i, j | 0 <= i < j < |db.reports| :: db.reports[i].site != db.reports[j].site)
  }

  ghost predicate Gate(db: Db) { forall k | k in db.periods :: HasApprovedReport(db, k.site) }

  /** Reports are only added, and an approved one never changes. */
  ghost predicate ReportsKept(rs: seq<ZeroReport>, ss: seq<ZeroReport>) {
    |rs| <= |ss| && forall i | 0 <= i < |rs| ::
        ss[i].site == rs[i].site && ss[i].version == rs[i].version && (rs[i].status == Approved ==> ss[i] == rs[i])
  }

  // ---- steps on reports ----

  lemma AddReport(db: Db, r: ZeroReport)
    requires ReportsOk(db) && ReportOk(db, r) && forall s | s in db.reports :: s.site != r.site
    ensures var e := db.(reports := db.reports + [r]); ReportsOk(e) && ReportsKept(db.reports, e.reports)
  {
    var e := db.(reports := db.reports + [r]);
    forall s | s in e.reports ensures ReportOk(e, s) { assert ReportOk(db, s); }
  }

  lemma ChangeReport(db: Db, i: nat, r: ZeroReport)
    requires ReportsOk(db) && ReportOk(db, r) && i < |db.reports|
    requires r.site == db.reports[i].site && r.version == db.reports[i].version && db.reports[i].status != Approved
    ensures var e := db.(reports := db.reports[i := r]); ReportsOk(e) && ReportsKept(db.reports, e.reports)
  {
    var e := db.(reports := db.reports[i := r]);
    forall s | s in e.reports ensures ReportOk(e, s) { assert ReportOk(db, s); }
  }

  lemma CreateStep(db: Db, site: int, version: nat)
    requires ReportsOk(db)
    ensures var e := Create(db, site, version).Or(db); ReportsOk(e) && ReportsKept(db.reports, e.reports)
  {
    if Create(db, site, version).Ok? { AddReport(db, ZeroReport(site, version, Draft, map[])); }
    hide ReportsOk, ReportsKept;
  }

  lemma UpsertStep(db: Db, site: int, item: int, volume: real, docs: Docs)
    requires ReportsOk(db)
    ensures var e := UpsertItem(db, site, item, volume, docs).Or(db); ReportsOk(e) && ReportsKept(db.reports, e.reports)
  {
    hide ItemExists, HasItem, AllDocs;
    if UpsertItem(db, site, item, volume, docs).Ok? {
      var i := LatestReport(db.reports, site).value;
      var r := db.reports[i];
      assert ReportOk(db, r);
      ChangeReport(db, i, r.(items := r.items[item := ReportItem(volume, AllDocs(docs))]));
    }
    hide LatestReport, ReportsOk, ReportsKept;
  }

  lemma SubmitStep(db: Db, site: int)
    requires ReportsOk(db)
    ensures var e := Submit(db, site).Or(db); ReportsOk(e) && ReportsKept(db.reports, e.reports)
  {
    if Submit(db, site).Ok? {
      var i := LatestReport(db.reports, site).value;
      assert ReportOk(db, db.reports[i]);
      ChangeReport(db, i, db.reports[i].(status := PendingApproval));
    }
    hide LatestReport, ReportsOk, ReportsKept;
  }

  lemma ApproveStep(db: Db, site: int)
    requires ReportsOk(db)
    ensures var e := Approve(db, site).Or(db); ReportsOk(e) && ReportsKept(db.reports, e.reports)
  {
    if Approve(db, site).Ok? {
      var i := LatestReport(db.reports, site).value;
      var r := db.reports[i];
      assert ReportOk(db, r);
      NoErrorIffCovers(ItemsOf(db, r.version), r.items, ConfigOf(db, site).weightThreshold);
      hide ItemsError;
      ChangeReport(db, i, r.(status := Approved));
    }
    hide LatestReport, ReportsOk, ReportsKept, ItemsError, ConfigOf;
  }

  lemma ReportStep(db: Db, op: Op)
    requires ReportsOk(db) && IsReportOp(op)
    ensures var e := ApplyReport(db, op); ReportsOk(e) && ReportsKept(db.reports, e.reports)
  {
    hide ReportsOk, ReportsKept;
    match op
    case DoCreateReport(site, version) => CreateStep(db, site, version); hide Create;
    case DoEditReport(site, item, volume, docs) => UpsertStep(db, site, item, volume, docs); hide UpsertItem;
    case DoSubmitReport(site) => SubmitStep(db, site); hide Submit;
    case DoApproveReport(site) => ApproveStep(db, site); hide Approve;
  }

  lemma SameReports(db: Db, op: Op, now: Time)
    requires !IsReportOp(op)
    ensures var e := Apply(db, op, now); e.reports == db.reports && e.sites == db.sites
  {
    Footprint(db, op, now);
    hide Apply;
  }

  lemma OtherStep(db: Db, op: Op, now: Time)
    requires ReportsOk(db) && !IsReportOp(op)
    ensures var e := Apply(db, op, now); ReportsOk(e) && ReportsKept(db.reports, e.reports)
  {
    var e := Apply(db, op, now);
    SameReports(db, op, now);
    VersionsStep(db, op, now);
    hide Apply;
    forall r | r in e.reports ensures ReportOk(e, r) { assert ReportOk(db, r); }
  }

  lemma ReportsStep(db: Db, op: Op, now: Time)
    requires ReportsOk(db)
    ensures var e := Apply(db, op, now); ReportsOk(e) && ReportsKept(db.reports, e.reports)
  {
    hide ReportsOk, ReportsKept;
    if IsReportOp(op) { ReportStep(db, op); hide ApplyReport; } else { OtherStep(db, op, now); hide Apply; }
  }

  // ---- the gate ----

  lemma KeptApproved(db: Db, e: Db, site: int)
    requires HasApprovedReport(db, site) && ReportsKept(db.reports, e.reports)
    ensures HasApprovedReport(e, site)
  {
    var r :| r in db.reports && r.site == site && r.status == Approved;
    var i :| 0 <= i < |db.reports| && db.reports[i] == r;
    assert e.reports[i] in e.reports;
  }

  lemma OpenPassesGate(db: Db, op: Op, now: Time, k: PeriodKey)
    requires Numbered(db.periods) && k !in db.periods && k in Apply(db, op, now).periods
    ensures HasApprovedReport(db, k.site)
  {
    PeriodsStep(db, op, now);
    if op.DoOpenPeriod? { hide LastNumber, ActiveVersion, HasOpenPeriod, HasApprovedReport, Numbered; }
    else { hide Apply; }
  }

  lemma GateStep(db: Db, op: Op, now: Time)
    requires Numbered(db.periods) && ReportsOk(db) && Gate(db)
    ensures Gate(Apply(db, op, now))
  {
    var e := Apply(db, op, now);
    ReportsStep(db, op, now);
    forall k | k in e.periods ensures HasApprovedReport(e, k.site) {
      if k !in db.periods { OpenPassesGate(db, op, now, k); }
      hide Apply, HasApprovedReport, ReportsKept;
      KeptApproved(db, e, k.site);
    }
    hide Apply;
  }

  lemma {:induction false} GateRun(db: Db, steps: seq<Step>)
    requires Numbered(db.periods) && ReportsOk(db) && Gate(db)
    ensures var e := Run(db, steps);
      Numbered(e.periods) && ReportsOk(e) && Gate(e) && ReportsKept(db.reports, e.reports)
    decreases |steps|
  {
    hide Apply, Numbered, ReportsOk, Gate;
    if steps != [] {
      var e := Apply(db, steps[0].op, steps[0].now);
      PeriodsStep(db, steps[0].op, steps[0].now);
      ReportsStep(db, steps[0].op, steps[0].now);
      GateStep(db, steps[0].op, steps[0].now);
      GateRun(e, steps[1..]);
    }
  }

  /** Report r is the one report of the object, approved in d, the same in e, and covers its version. */
  ghost predicate Gatekeeper(d: Db, e: Db, r: nat, site: int) {
    && r < |d.reports| && r < |e.reports| && e.reports[r] == d.reports[r]
    && d.reports[r].site == site && d.reports[r].status == Approved
    && (forall s | 0 <= s < |e.reports| && e.reports[s].site == site :: s == r)
    && d.reports[r].version < |e.versions| && e.versions[d.reports[r].version].site == site
    && Covers(e.versions[d.reports[r].version].items, d.reports[r].items, ConfigOf(e, site).weightThreshold)
  }

  lemma GatekeeperStays(d: Db, e: Db, k: PeriodKey) returns (r: nat)
    requires ReportsOk(e) && Gate(d) && ReportsKept(d.reports, e.reports) && k in d.periods
    ensures Gatekeeper(d, e, r, k.site)
  {
    hide Covers;
    assert HasApprovedReport(d, k.site);
    var x :| x in d.reports && x.site == k.site && x.status == Approved;
    r :| 0 <= r < |d.reports| && d.reports[r] == x;
    assert e.reports[r] in e.reports;
    assert ReportOk(e, e.reports[r]);
  }

  /** Whenever an object has a period, it has exactly one report, that report is approved and
      covers every item of its version; it is the same in all later states of the run. */
  lemma GateHoldsForEver(sites: map<int, Site>, steps: seq<Step>, i: nat, j: nat, k: PeriodKey) returns (r: nat)
    requires i <= j <= |steps| && k in Before(EmptyDb(sites), steps, i).periods
    ensures Gatekeeper(Before(EmptyDb(sites), steps, i), Before(EmptyDb(sites), steps, j), r, k.site)
  {
    var d, e := Before(EmptyDb(sites), steps, i), Before(EmptyDb(sites), steps, j);
    BeforeLater(EmptyDb(sites), steps, i, j);
    GateRun(EmptyDb(sites), steps[..i]);
    GateRun(d, steps[i..j]);
    hide Run, Numbered, Apply, Gatekeeper, ReportsOk, ReportsKept, Gate;
    r := GatekeeperStays(d, e, k);
  }
}

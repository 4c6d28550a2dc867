/** Concrete runs from the empty store, up to a disputed fact. */
module WitnessRuns {
  import opened Common
  import opened Store
  import opened Derived
  import opened PeriodSpec
  import opened DisputeSpec
  import opened SyncSpec
  import opened BoqSpec
  import Zero = ZeroReportSpec
  import opened Runs
  import opened Lifecycle

  const SITES: map<int, Site> := map[1 := Site(1, DEFAULT_CONFIG)]
  const K := PeriodKey(1, 1)
  const FK := FactKey(K, 1)

  /** The run is allowed and ends in the state, at the moment. */
  ghost predicate Reaches(steps: seq<Step>, db: Db, now: Time) {
    AllowedRun(EmptyDb(SITES), 0, steps) && Run(EmptyDb(SITES), steps) == db && LastClock(0, steps) == now
  }

  lemma Start()
    ensures Reaches([], EmptyDb(SITES), 0)
  {
  }

  lemma {:induction false} Extend(steps: seq<Step>, db: Db, now: Time, s: Step, after: Db)
    requires Reaches(steps, db, now) && Allowed(db, now, s) && Apply(db, s.op, s.now) == after
    ensures Reaches(steps + [s], after, s.now)
  {
    hide Apply, Allowed;
    RunSplit(EmptyDb(SITES), 0, steps, [s]);
    assert [s][1..] == [];
    assert AllowedRun(after, s.now, []) && Run(after, []) == after;
  }

  // ---- an object that can open periods ----

  const ITEM := Item(1, 1, "w", 10.0, 10.0, Some(1.0), false, true, None)
  const VERSION := Version(1, 10, true, [ITEM])

  function Report(status: ReportStatus, items: map<int, ReportItem>): ZeroReport { ZeroReport(1, 0, status, items) }

  const ENTRIES: map<int, ReportItem> := map[1 := ReportItem(0.0, true)]

  const B1 := EmptyDb(SITES).(versions := [VERSION], nextItem := 2)
  const B2 := B1.(reports := [Report(Draft, map[])])
  const B3 := B1.(reports := [Report(Draft, ENTRIES)])
  const B4 := B1.(reports := [Report(PendingApproval, ENTRIES)])
  const B5 := B1.(reports := [Report(Approved, ENTRIES)])

  const CREATE_BOQ := Step(DoCreateBoq(1, [NewItem("w", 10.0, 10.0, false)]), 0)
  const CREATE_REPORT := Step(DoCreateReport(1, 0), 0)
  const EDIT_REPORT := Step(DoEditReport(1, 1, 0.0, Zero.Docs(Some(0.0), Some(0.0), Some(0.0))), 0)
  const SUBMIT_REPORT := Step(DoSubmitReport(1), 0)
  const APPROVE_REPORT := Step(DoApproveReport(1), 0)

  /** An object with a BoQ of one item and an approved zero report. */
  const READY: seq<Step> := [CREATE_BOQ] + [CREATE_REPORT] + [EDIT_REPORT] + [SUBMIT_REPORT] + [APPROVE_REPORT]

  lemma FirstBoq()
    ensures Apply(EmptyDb(SITES), DoCreateBoq(1, [NewItem("w", 10.0, 10.0, false)]), 0) == B1
  {
    var xs := [NewItem("w", 10.0, 10.0, false)];
    var raw := InitialItems(xs, 1);
    var x := Item(1, 1, "w", 10.0, 10.0, None, false, true, None);
    assert raw == [x];
    assert [x][1..] == [] && ActiveValue([x]) == 10.0;
    assert WeighAll(raw) == [ITEM];
    assert [ITEM][1..] == [] && WeightSum([ITEM]) == 1.0;
    assert ItemsAllowed([ITEM]) && WeightsValid([ITEM]);
    hide WeighAll, InitialItems, ItemsAllowed, WeightsValid;
    assert B1.versions == [] + [VERSION];
  }

  lemma FirstReport()
    ensures Apply(B1, CREATE_REPORT.op, 0) == B2
  {
    assert B2.reports == [] + [Report(Draft, map[])];
    hide HasItem;
  }

  lemma EditedReport()
    ensures Apply(B2, EDIT_REPORT.op, 0) == B3
  {
    assert B2.reports[0] == Report(Draft, map[]);
    assert Zero.LatestReport(B2.reports, 1) == Some(0);
    assert VERSION in B2.versions && ITEM in VERSION.items && ITEM.id == 1;
    assert HasItem(VERSION.items, 1) && Zero.ItemExists(B2, 1);
    assert B3.reports == B2.reports[0 := Report(Draft, ENTRIES)];
    hide HasItem, Zero.ItemExists, Zero.LatestReport;
  }

  lemma SubmittedReport()
    ensures Apply(B3, SUBMIT_REPORT.op, 0) == B4
  {
    assert Zero.LatestReport(B3.reports, 1) == Some(0) && 1 in ENTRIES;
    assert B4.reports == B3.reports[0 := Report(PendingApproval, ENTRIES)];
    hide Zero.LatestReport;
  }

  lemma ApprovedReport()
    ensures Apply(B4, APPROVE_REPORT.op, 0) == B5
  {
    assert Zero.LatestReport(B4.reports, 1) == Some(0) && 1 in ENTRIES;
    assert B5.reports == B4.reports[0 := Report(Approved, ENTRIES)];
    assert [ITEM][1..] == [] && Zero.ItemsError([ITEM], ENTRIES, 0.1) == None;
    hide Zero.LatestReport, Zero.ItemsError;
  }

  lemma ReachReady()
    ensures Reaches(READY, B5, 0)
  {
    FirstBoq();
    FirstReport();
    EditedReport();
    SubmittedReport();
    ApprovedReport();
    hide Apply, Reaches;
    Start();
    Extend([], EmptyDb(SITES), 0, CREATE_BOQ, B1);
    assert [] + [CREATE_BOQ] == [CREATE_BOQ];
    Extend([CREATE_BOQ], B1, 0, CREATE_REPORT, B2);
    Extend([CREATE_BOQ] + [CREATE_REPORT], B2, 0, EDIT_REPORT, B3);
    Extend([CREATE_BOQ] + [CREATE_REPORT] + [EDIT_REPORT], B3, 0, SUBMIT_REPORT, B4);
    Extend([CREATE_BOQ] + [CREATE_REPORT] + [EDIT_REPORT] + [SUBMIT_REPORT], B4, 0, APPROVE_REPORT, B5);
  }

  // ---- up to a verified figure with a photo ----

  const OPENED := Period(0, Open, false, Some(14 * DAY), None)
  const SUBMITTED := Period(0, GpSubmitted, false, Some(14 * DAY), Some(0))
  const VERIFIED := Period(0, Verification, false, Some(14 * DAY), Some(0))

  const ENTERED := Fact(Some(7.0), None, Some(5.0), None, Some(1), Some(FactOpen), None, 2)

  const P1 := B5.(periods := map[K := OPENED])
  const P2 := B5.(periods := map[K := SUBMITTED], facts := map[FK := NEW_FACT.(gp := Some(7.0))])
  const P3 := B5.(periods := map[K := VERIFIED], facts := map[FK := ENTERED])
  const PHOTO := OpKey("d", "photo")
  const P4 := P3.(photos := {(K, Some(1))}, queue := map[PHOTO := QueueRow(UploadPhoto, Applied, 0)])

  const OPEN := Step(DoOpenPeriod(1, false, None, true), 0)
  const SUBMIT_GP := Step(DoSubmitGp(K, [GpItem(1, Some(7.0), None, false)]), 0)
  const ENTER := Step(DoEnterFact(K, 1, 5.0, NO_OPTS), 0)
  const UPLOAD := Step(DoPhoto(1, PHOTO, K, Some(1)), 0)

  /** A contractor's figure of 7 against an SC figure of 5. */
  const VERIFYING: seq<Step> := READY + [OPEN] + [SUBMIT_GP] + [ENTER] + [UPLOAD]

  lemma ActiveOne(db: Db)
    requires db.versions == [VERSION]
    ensures ActiveVersion(db.versions, 1) == Some(0) && HasItem(VERSION.items, 1)
  {
    assert VERSION in db.versions && db.versions[0] == VERSION;
    assert ITEM in VERSION.items && ITEM.id == 1;
  }

  lemma OpenFirst()
    ensures Apply(B5, OPEN.op, 0) == P1
  {
    ActiveOne(B5);
    assert Report(Approved, ENTRIES) in B5.reports;
    assert HasApprovedReport(B5, 1);
    assert Numbers(B5.periods, 1) == {};
    assert LastNumber(B5.periods, 1) == 0;
    hide ActiveVersion, LastNumber, HasApprovedReport;
    assert P1.periods == B5.periods[K := OPENED];
  }

  lemma SubmitFirst()
    ensures Apply(P1, SUBMIT_GP.op, 0) == P2
  {
    var x := GpItem(1, Some(7.0), None, false);
    ActiveOne(P1);
    assert PeriodItems(P1, K) == VERSION.items;
    assert [x][1..] == [] && WithGpItems(map[], K, [x]) == WithGpItems(WithGp(map[], K, x), K, []);
    assert WithGpItems(map[], K, [x]) == map[FK := NEW_FACT.(gp := Some(7.0))];
    hide ActiveVersion, HasItem, WithGpItems, PeriodItems;
    assert P2.periods == P1.periods[K := SUBMITTED];
  }

  lemma EnterFirst()
    ensures Apply(P2, ENTER.op, 0) == P3
  {
    ActiveOne(P2);
    assert PeriodItems(P2, K) == VERSION.items;
    hide ActiveVersion, HasItem, PeriodItems;
    assert UpsertError(P2, K, 1, 5.0, NO_OPTS, 0).None?;
    assert UpsertedFact(P2.facts, FK, 5.0, None) == ENTERED;
    hide UpsertError, UpsertedFact;
    assert P3.facts == P2.facts[FK := ENTERED] && P3.periods == P2.periods[K := VERIFIED];
  }

  lemma UploadFirst()
    ensures Apply(P3, UPLOAD.op, 0) == P4
  {
    assert P4.photos == P3.photos + {(K, Some(1))} && P4.queue == P3.queue[PHOTO := QueueRow(UploadPhoto, Applied, 0)];
  }

  lemma ReachVerifying()
    ensures Reaches(VERIFYING, P4, 0)
  {
    ReachReady();
    OpenFirst();
    SubmitFirst();
    EnterFirst();
    UploadFirst();
    hide Apply, Reaches;
    Extend(READY, B5, 0, OPEN, P1);
    Extend(READY + [OPEN], P1, 0, SUBMIT_GP, P2);
    Extend(READY + [OPEN] + [SUBMIT_GP], P2, 0, ENTER, P3);
    Extend(READY + [OPEN] + [SUBMIT_GP] + [ENTER], P3, 0, UPLOAD, P4);
  }

  // ---- a dispute on the figure ----

  const DISPUTE := DoCreateDispute(K, 1, Some("r"))
  const DISPUTED := ENTERED.(discType := Some(2), version := 3)
  const D1 := P4.(facts := map[FK := DISPUTED],
                  discrepancies := [Discrepancy(FK, 2, DisputeOpen, None, 0)],
                  events := Timers(FK, A, 0),
                  jobs := map[0 := 3 * DAY, 1 := 5 * DAY])

  /** The two figures differ, and there is a photo: the fact can be disputed. */
  predicate Disputable(db: Db) {
    && K in db.periods && db.periods[K].status == Verification && (K, Some(1)) in db.photos
    && FK in db.facts && db.facts[FK].gp == Some(7.0) && db.facts[FK].sc == Some(5.0)
  }

  function Disputed(f: Fact): Fact { Bumped(f, f.(discType := Some(2), discStatus := Some(FactOpen))) }

  lemma Disputing(db: Db, now: Time)
    requires Disputable(db)
    ensures Apply(db, DISPUTE, now) == ScheduleEvents(
      db.(facts := db.facts[FK := Disputed(db.facts[FK])],
          discrepancies := db.discrepancies + [Discrepancy(FK, 2, DisputeOpen, None, now)]), FK, now, A, now)
  {
    assert !IsBlank(Some("r")) by { assert "r"[0] in "r" && 'r' !in WHITESPACE; }
    hide ScheduleEvents, IsBlank, Bumped;
  }

  lemma ScheduleFirst(db: Db)
    requires db.events == [] && db.jobs == map[]
    ensures ScheduleEvents(db, FK, 0, A, 0) == db.(events := Timers(FK, A, 0), jobs := map[0 := 3 * DAY, 1 := 5 * DAY])
  {
    var es := Timers(FK, A, 0);
    assert [] + es == es;
    assert PendingIds(es, FK, A) == {0, 1};
    assert WithJobs(map[], es, {0, 1}, 0) == map[0 := 3 * DAY, 1 := 5 * DAY];
    hide WithJobs, PendingIds, Timers;
  }

  lemma DisputeFirst()
    ensures Apply(P4, DISPUTE, 0) == D1
  {
    Disputing(P4, 0);
    assert Disputed(ENTERED) == DISPUTED && P4.facts[FK := DISPUTED] == D1.facts;
    assert [] + [Discrepancy(FK, 2, DisputeOpen, None, 0)] == D1.discrepancies;
    hide ScheduleEvents, Timers, Apply, Disputed;
    ScheduleFirst(P4.(facts := D1.facts, discrepancies := D1.discrepancies));
  }

  /** A pending forcing timer of the fact and an open discrepancy on it: the job forces it. */
  lemma Forcing(db: Db, i: nat, p: nat, now: Time)
    requires i < |db.events| && IsPending(db.events[i]) && Forces(db.events[i].eventType) && db.events[i].fact == FK
    requires IsOpenOn(db.discrepancies, p, FK) && FK in db.facts
    ensures Apply(db, DoRunJob(i, p), now) == db.(
      facts := db.facts[FK := Forced(db.facts[FK])],
      discrepancies := db.discrepancies[p := db.discrepancies[p].(status := ForcedScFigure)],
      events := db.events[i := db.events[i].(executedAt := Some(now))], jobs := db.jobs - {i})
  {
    hide IsPending, Forces, IsOpenOn, Forced;
  }

  lemma Deliverable(db: Db, clock: Time, i: nat, p: nat, now: Time)
    requires i < |db.events| && db.events[i].fact == FK && IsOpenOn(db.discrepancies, p, FK)
    requires clock <= now && i in db.jobs && db.jobs[i] <= now
    ensures Allowed(db, clock, Step(DoRunJob(i, p), now))
  {
  }
}

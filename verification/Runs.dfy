/** Runs of the whole domain: every service call, worker job and archiver pass is one step,
    and so is a loss of queued jobs; the clock never goes back. */
module Runs {
  import opened Common
  import opened Store
  import opened Derived
  import opened PeriodSpec
  import opened DisputeSpec
  import opened SyncSpec
  import opened BoqSpec
  import Zero = ZeroReportSpec

  datatype Op =
    | DoOpenPeriod(site: int, plannedPause: bool, pauseReason: Option<string>, lockFree: bool)
    | DoSubmitGp(k: PeriodKey, gpItems: seq<GpItem>)
    | DoEnterFact(k: PeriodKey, item: int, sc: real, opts: UpsertOpts)
    | DoClosePeriod(k: PeriodKey)
    | DoCorrectFact(fk: FactKey, sc: real, accepted: real)
    | DoCreateDispute(k: PeriodKey, item: int, reason: Option<string>)
    | DoRespond(id: nat, position: Option<string>)
    | DoReject(id: nat)
    | DoRunJob(id: nat, pick: nat)
    | DoRecover
    | DoLoseJobs(lost: set<nat>)
    | DoSync(org: int, device: string, raw: RawOp)
    | DoResolve(org: int, key: OpKey, chosen: real)
    | DoPhoto(org: int, key: OpKey, k: PeriodKey, photoItem: Option<int>)
    | DoArchive
    | DoCreateBoq(site: int, newItems: seq<NewItem>)
    | DoRequestBaseline(site: int, item: int, newPlan: real)
    | DoApproveBaseline(id: nat)
    | DoCreateReport(site: int, version: nat)
    | DoEditReport(site: int, item: int, volume: real, docs: Zero.Docs)
    | DoSubmitReport(site: int)
    | DoApproveReport(site: int)

  predicate IsEntryOp(op: Op) { op.DoEnterFact? || op.DoSync? || op.DoResolve? }

  predicate IsPeriodOp(op: Op) { op.DoOpenPeriod? || op.DoSubmitGp? || op.DoClosePeriod? || op.DoCorrectFact? }

  predicate IsDisputeOp(op: Op) { op.DoCreateDispute? || op.DoRespond? || op.DoReject? || op.DoRunJob?
      || op.DoRecover? || op.DoLoseJobs? }

  predicate IsBoqOp(op: Op) { op.DoCreateBoq? || op.DoRequestBaseline? || op.DoApproveBaseline? }

  predicate IsReportOp(op: Op) { op.DoCreateReport? || op.DoEditReport? || op.DoSubmitReport? || op.DoApproveReport? }

  predicate IsQueueOp(op: Op) { op.DoPhoto? || op.DoArchive? }

  function ApplyEntry(db: Db, op: Op, now: Time): Db
    requires IsEntryOp(op)
  {
    match op
    case DoEnterFact(k, item, sc, opts) => UpsertFact(db, k, item, sc, opts, now).Or(db)
    case DoSync(org, device, raw) => SubmitOne(db, org, device, raw, now).db
    case DoResolve(org, key, chosen) => ResolveConflict(db, org, key, chosen, now).db
  }

  function ApplyPeriod(db: Db, op: Op, now: Time): Db
    requires IsPeriodOp(op)
  {
    match op
    case DoOpenPeriod(site, pause, reason, free) => OpenPeriod(db, site, pause, reason, free, now).Or(db)
    case DoSubmitGp(k, xs) => SubmitGp(db, k, xs, now).Or(db)
    case DoClosePeriod(k) => ClosePeriod(db, k, now).Or(db)
    case DoCorrectFact(fk, sc, accepted) => AdminCorrect(db, fk, sc, accepted, now).Or(db)
  }

  function ApplyDispute(db: Db, op: Op, now: Time): Db
    requires IsDisputeOp(op)
  {
    match op
    case DoCreateDispute(k, item, reason) => CreateDispute(db, k, item, reason, now).Or(db)
    case DoRespond(id, position) => SubmitGpResponse(db, id, position, now).Or(db)
    case DoReject(id) => RejectGpResponse(db, id, now).Or(db)
    case DoRunJob(id, pick) => ProcessEvent(db, id, pick, now)
    case DoRecover => RecoverPending(db, now)
    case DoLoseJobs(lost) => db.(jobs := db.jobs - lost)
  }

  function ApplyBoq(db: Db, op: Op): Db
    requires IsBoqOp(op)
  {
    match op
    case DoCreateBoq(site, xs) => CreateInitial(db, site, xs).Or(db)
    case DoRequestBaseline(site, item, plan) => CreateRequest(db, site, item, plan).Or(db)
    case DoApproveBaseline(id) => ApproveRequest(db, id).Or(db)
  }

  function ApplyReport(db: Db, op: Op): Db
    requires IsReportOp(op)
  {
    match op
    case DoCreateReport(site, version) => Zero.Create(db, site, version).Or(db)
    case DoEditReport(site, item, volume, docs) => Zero.UpsertItem(db, site, item, volume, docs).Or(db)
    case DoSubmitReport(site) => Zero.Submit(db, site).Or(db)
    case DoApproveReport(site) => Zero.Approve(db, site).Or(db)
  }

  function ApplyQueue(db: Db, op: Op, now: Time): Db
    requires IsQueueOp(op)
  {
    match op
    case DoPhoto(org, key, k, item) => PhotoUpload(db, org, key, k, item, now).Or(db)
    case DoArchive => Archive(db, now)
  }

  function Apply(db: Db, op: Op, now: Time): Db {
    if IsEntryOp(op) then ApplyEntry(db, op, now)
    else if IsPeriodOp(op) then ApplyPeriod(db, op, now)
    else if IsDisputeOp(op) then ApplyDispute(db, op, now)
    else if IsBoqOp(op) then ApplyBoq(db, op)
    else if IsReportOp(op) then ApplyReport(db, op)
    else ApplyQueue(db, op, now)
  }

  datatype Step = Step(op: Op, now: Time)

  /** The clock does not go back; a job runs when its delay has passed, on a discrepancy the
      store may return. */
  predicate Allowed(db: Db, clock: Time, s: Step) {
    && s.now >= clock
    && (s.op.DoRunJob? ==>
          && s.op.id in db.jobs && s.now >= db.jobs[s.op.id]
          && (s.op.id < |db.events| ==> PickAllowed(db.discrepancies, db.events[s.op.id].fact, s.op.pick)))
  }

  function Run(db: Db, steps: seq<Step>): Db
    decreases |steps|
  {
    if steps == [] then db else Run(Apply(db, steps[0].op, steps[0].now), steps[1..])
  }

  predicate AllowedRun(db: Db, clock: Time, steps: seq<Step>)
    decreases |steps|
  {
    steps == [] || (Allowed(db, clock, steps[0])
      && AllowedRun(Apply(db, steps[0].op, steps[0].now), steps[0].now, steps[1..]))
  }

  function LastClock(clock: Time, steps: seq<Step>): Time { if steps == [] then clock else steps[|steps| - 1].now }

  /** The state in which step i of the run starts. */
  function Before(db: Db, steps: seq<Step>, i: nat): Db
    requires i <= |steps|
  {
    Run(db, steps[..i])
  }

  lemma {:induction false} RunSplit(db: Db, clock: Time, a: seq<Step>, b: seq<Step>)
    ensures Run(db, a + b) == Run(Run(db, a), b)
    ensures AllowedRun(db, clock, a + b) <==> AllowedRun(db, clock, a) && AllowedRun(Run(db, a), LastClock(clock, a), b)
    decreases |a|
  {
    hide Apply, Allowed;
    if a == [] {
      assert [] + b == b;
    } else {
      assert (a + b)[0] == a[0] && (a + b)[1..] == a[1..] + b;
      RunSplit(Apply(db, a[0].op, a[0].now), a[0].now, a[1..], b);
    }
  }

  /** The steps of an allowed run from i on are an allowed run of the state step i starts in,
      and the clock is at step i already when step i is done. */
  lemma RunAt(db: Db, clock: Time, steps: seq<Step>, i: nat)
    requires i < |steps| && AllowedRun(db, clock, steps)
    ensures AllowedRun(db, clock, steps[..i])
    ensures var d := Before(db, steps, i);
      && Allowed(d, LastClock(clock, steps[..i]), steps[i])
      && Before(db, steps, i + 1) == Apply(d, steps[i].op, steps[i].now)
      && AllowedRun(Apply(d, steps[i].op, steps[i].now), steps[i].now, steps[i + 1..])
  {
    hide Apply, Allowed;
    assert steps == steps[..i] + steps[i..];
    RunSplit(db, clock, steps[..i], steps[i..]);
    assert steps[i..][1..] == steps[i + 1..];
    assert steps[..i + 1] == steps[..i] + [steps[i]];
    RunSplit(db, clock, steps[..i], [steps[i]]);
    assert Run(Before(db, steps, i), [steps[i]]) == Run(Apply(Before(db, steps, i), steps[i].op, steps[i].now), []);
  }

  /** The states of a run follow one another. */
  lemma BeforeLater(db: Db, steps: seq<Step>, i: nat, j: nat)
    requires i <= j <= |steps|
    ensures Before(db, steps, j) == Run(Before(db, steps, i), steps[i..j])
    ensures i < j ==> Before(db, steps, i + 1) == Apply(Before(db, steps, i), steps[i].op, steps[i].now)
                      && Before(db, steps, j) == Run(Apply(Before(db, steps, i), steps[i].op, steps[i].now),
                        steps[i + 1..j])
  {
    hide Run, AllowedRun, Apply;
    assert steps[..j] == steps[..i] + steps[i..j];
    RunSplit(db, 0, steps[..i], steps[i..j]);
    if i < j {
      var d, mid := Before(db, steps, i), steps[i + 1..j];
      assert steps[..i + 1] == steps[..i] + [steps[i]] && steps[i..j] == [steps[i]] + mid;
      RunSplit(db, 0, steps[..i], [steps[i]]);
      RunSplit(d, 0, [steps[i]], mid);
      RunOne(d, steps[i]);
    }
  }

  lemma RunOne(db: Db, s: Step)
    ensures Run(db, [s]) == Apply(db, s.op, s.now)
  {
    hide Apply;
    assert [s][1..] == [];
  }

  /** Two steps of a run, and the run between them. */
  lemma RunBetween(db: Db, clock: Time, steps: seq<Step>, i: nat, j: nat)
    requires AllowedRun(db, clock, steps) && i < j < |steps|
    ensures var e := Apply(Before(db, steps, i), steps[i].op, steps[i].now);
      && Before(db, steps, j) == Run(e, steps[i + 1..j])
      && AllowedRun(e, steps[i].now, steps[i + 1..j] + [steps[j]])
  {
    hide Run, AllowedRun, Apply;
    RunAt(db, clock, steps, i);
    assert steps[..j] == steps[..i + 1] + steps[i + 1..j];
    RunSplit(db, clock, steps[..i + 1], steps[i + 1..j]);
    assert steps[i + 1..] == (steps[i + 1..j] + [steps[j]]) + steps[j + 1..];
    RunSplit(Before(db, steps, i + 1), steps[i].now, steps[i + 1..j] + [steps[j]], steps[j + 1..]);
  }

  // ---- what a step can touch ----

  /** What a synchronization step does besides its queue row. */
  datatype SyncEffect = NoEffect | Entered(k: PeriodKey, item: int, sc: real,
      opts: UpsertOpts) | Escalating(fk: FactKey)

  function EffectOfSync(db: Db, org: int, device: string, raw: RawOp, now: Time): SyncEffect {
    if !IsValid(raw) || KeyOf(device, raw) in db.queue then NoEffect
    else
      var p := PayloadOf(raw);
      var opts := UpsertOpts(None, p.workAccessible, raw.lastKnownVersion);
      if p.period !in db.periods || OrgOf(db, p.period) != Some(org)
         || PeriodLabel(db, db.periods[p.period]) != raw.boqVersion.value then NoEffect
      else
        var e := UpsertError(db, p.period, p.item, p.sc, opts, now);
        if e.None? then Entered(p.period, p.item, p.sc, opts)
        else if e.value.PeriodAlreadyClosed? && FactOf(raw) in db.facts then Escalating(FactOf(raw))
        else NoEffect
  }

  function EffectOfResolve(db: Db, org: int, key: OpKey, chosen: real, now: Time): SyncEffect {
    if key !in db.queue || db.queue[key].status != Conflict || db.queue[key].kind.UploadPhoto? then NoEffect
    else
      var p := db.queue[key].kind.payload;
      if p.period !in db.periods || OrgOf(db, p.period) != Some(org) then NoEffect
      else if ClosedStatus(db.periods[p.period].status) then
        if FactKey(p.period, p.item) in db.facts then Escalating(FactKey(p.period, p.item)) else NoEffect
      else if UpsertError(db, p.period, p.item, chosen, NO_OPTS, now).None?
        then Entered(p.period, p.item, chosen, NO_OPTS)
      else NoEffect
  }

  /** The SC entry or escalation of a step, whichever way it was made. */
  function EffectOf(db: Db, op: Op, now: Time): SyncEffect {
    match op
    case DoEnterFact(k, item, sc, opts) =>
      if UpsertError(db, k, item, sc, opts, now).None? then Entered(k, item, sc, opts) else NoEffect
    case DoSync(org, device, raw) => EffectOfSync(db, org, device, raw, now)
    case DoResolve(org, key, chosen) => EffectOfResolve(db, org, key, chosen, now)
    case _ => NoEffect
  }

  function WithEffect(db: Db, x: SyncEffect, now: Time): Db {
    match x
    case NoEffect => db
    case Entered(k, item, sc, opts) => UpsertFact(db, k, item, sc, opts, now).Or(db)
    case Escalating(fk) => db.(discrepancies := db.discrepancies + [Discrepancy(fk, 3, DisputeOpen, None, now)])
  }

  /** The upsert neither reads nor writes the sync queue. */
  lemma UpsertIgnoresQueue(db: Db, queue: map<OpKey, QueueRow>, k: PeriodKey, item: int, sc: real, opts: UpsertOpts,
      now: Time)
    ensures var d := db.(queue := queue);
      && UpsertError(d, k, item, sc, opts, now) == UpsertError(db, k, item, sc, opts, now)
      && (UpsertError(db, k, item, sc, opts, now).None? ==>
            UpsertFact(d, k, item, sc, opts, now).value == UpsertFact(db, k, item, sc, opts,
              now).value.(queue := queue))
  {
  }

  lemma ApplyStep(d: Db, org: int, key: OpKey, raw: RawOp, now: Time)
    requires IsValid(raw) && key in d.queue
    ensures var e := ApplyOperation(d, org, key, raw, now).db;
      var p := PayloadOf(raw);
      var opts := UpsertOpts(None, p.workAccessible, raw.lastKnownVersion);
      var err := UpsertError(d, p.period, p.item, p.sc, opts, now);
      if p.period !in d.periods || OrgOf(d, p.period) != Some(org)
        || PeriodLabel(d, d.periods[p.period]) != raw.boqVersion.value then
        e == d.(queue := e.queue)
      else if err.None? then e == UpsertFact(d, p.period, p.item, p.sc, opts, now).value.(queue := e.queue)
      else if err.value.PeriodAlreadyClosed? && FactOf(raw) in d.facts then
        e == WithEffect(d, Escalating(FactOf(raw)), now).(queue := e.queue)
      else e == d.(queue := e.queue)
  {
    var p := PayloadOf(raw);
    var opts := UpsertOpts(None, p.workAccessible, raw.lastKnownVersion);
    var err := UpsertError(d, p.period, p.item, p.sc, opts, now);
    var r := UpsertFact(d, p.period, p.item, p.sc, opts, now);
    assert if err.None? then r.Ok? else r == Fail(err.value) by { hide UpsertError, UpsertedFact; }
    hide UpsertError, UpsertFact, PeriodLabel, OrgOf, IsValid, PayloadOf;
  }

  lemma SyncStep(db: Db, org: int, device: string, raw: RawOp, now: Time)
    ensures var e := SubmitOne(db, org, device, raw, now).db;
      e == WithEffect(db, EffectOfSync(db, org, device, raw, now), now).(queue := e.queue)
  {
    if IsValid(raw) && KeyOf(device, raw) !in db.queue {
      var queue := db.queue[KeyOf(device, raw) := NewRow(raw, now)];
      var d := db.(queue := queue);
      var p := PayloadOf(raw);
      UpsertIgnoresQueue(db, queue, p.period, p.item, p.sc, UpsertOpts(None, p.workAccessible, raw.lastKnownVersion),
        now);
      ApplyStep(d, org, KeyOf(device, raw), raw, now);
      assert p.period in db.periods ==> PeriodLabel(d, d.periods[p.period]) == PeriodLabel(db, db.periods[p.period]);
      assert OrgOf(d, p.period) == OrgOf(db, p.period);
      hide UpsertError, PeriodLabel, OrgOf, ApplyOperation;
    }
  }

  lemma ResolveStep(db: Db, org: int, key: OpKey, chosen: real, now: Time)
    ensures var e := ResolveConflict(db, org, key, chosen, now).db;
      e == WithEffect(db, EffectOfResolve(db, org, key, chosen, now), now).(queue := e.queue)
  {
    if key in db.queue && db.queue[key].kind.SubmitFact? {
      var p := db.queue[key].kind.payload;
      assert UpsertError(db, p.period, p.item, chosen, NO_OPTS, now).None?
        <==> UpsertFact(db, p.period, p.item, chosen, NO_OPTS, now).Ok? by {
        hide UpsertError, UpsertedFact;
      }
      hide UpsertError, OrgOf, UpsertFact;
    }
  }

  /** Apart from the sync queue, an entry step does exactly its effect. */
  lemma EntryStep(db: Db, op: Op, now: Time)
    requires IsEntryOp(op)
    ensures var e := ApplyEntry(db, op, now);
      e == WithEffect(db, EffectOf(db, op, now), now).(queue := e.queue)
  {
    hide SubmitOne, ResolveConflict, EffectOfSync, EffectOfResolve, UpsertError;
    match op
    case DoSync(org, device, raw) => SyncStep(db, org, device, raw, now);
    case DoResolve(org, key, chosen) => ResolveStep(db, org, key, chosen, now);
    case DoEnterFact(_, _, _, _) =>
  }

  lemma EffectEnters(db: Db, op: Op, now: Time)
    ensures var x := EffectOf(db, op, now);
      && (x.Entered? ==> UpsertError(db, x.k, x.item, x.sc, x.opts, now).None?)
      && (x.Escalating? ==> x.fk in db.facts && IsClosed(db.periods, x.fk.period))
  {
  }

  /** Which steps can touch which table. */
  predicate Touches(db: Db, op: Op, e: Db) {
    && e.sites == db.sites
    && (!op.DoCreateBoq? && !op.DoApproveBaseline? ==> e.versions == db.versions && e.nextItem == db.nextItem)
    && (!op.DoRequestBaseline? && !op.DoApproveBaseline? ==> e.requests == db.requests)
    && (!op.DoCreateReport? && !op.DoEditReport? && !op.DoSubmitReport? && !op.DoApproveReport? ==>
      e.reports == db.reports)
    && (!op.DoOpenPeriod? && !op.DoSubmitGp? && !op.DoClosePeriod? && !IsEntryOp(op) ==> e.periods == db.periods)
    && (!op.DoSubmitGp? && !op.DoCorrectFact? && !op.DoCreateDispute? && !op.DoRunJob? && !IsEntryOp(op) ==>
      e.facts == db.facts)
    && (!op.DoClosePeriod? && !op.DoCorrectFact? ==> e.pace == db.pace && e.snaps == db.snaps && e.spikes == db.spikes)
    && (!op.DoCreateDispute? && !op.DoRespond? && !op.DoRunJob? && !IsEntryOp(op) ==>
      e.discrepancies == db.discrepancies)
    && (!op.DoCreateDispute? && !op.DoRespond? && !op.DoReject? && !op.DoRunJob? ==> e.events == db.events)
    && (!op.DoCreateDispute? && !op.DoReject? && !op.DoRunJob? && !op.DoRecover? && !op.DoLoseJobs? ==>
      e.jobs == db.jobs)
    && (!op.DoSync? && !op.DoResolve? && !op.DoPhoto? && !op.DoArchive? ==> e.queue == db.queue)
  }

  lemma EntryTouches(db: Db, op: Op, now: Time)
    requires IsEntryOp(op)
    ensures Touches(db, op, ApplyEntry(db, op, now))
  {
    EntryStep(db, op, now);
    if op.DoEnterFact? {
      hide UpsertError;
      assert ApplyEntry(db, op, now).queue == db.queue;
    } else {
      hide ApplyEntry, EffectOf, UpsertError;
    }
  }

  lemma CorrectTouches(db: Db, fk: FactKey, sc: real, accepted: real, now: Time)
    ensures var e := AdminCorrect(db, fk, sc, accepted, now).Or(db);
      e == db.(facts := e.facts, pace := e.pace, snaps := e.snaps, spikes := e.spikes)
  {
    hide CascadeFrom;
    var r := CorrectFact(db, fk, sc, accepted);
    if r.Ok? { CascadeTouches(r.value, fk.period.site, fk.period.number, now); }
  }

  lemma OpenTouches(db: Db, site: int, pause: bool, reason: Option<string>, free: bool, now: Time)
    ensures var e := OpenPeriod(db, site, pause, reason, free, now).Or(db); e == db.(periods := e.periods)
  {
    hide ActiveVersion, LastNumber, HasApprovedReport, HasOpenPeriod;
  }

  lemma SubmitGpTouches(db: Db, k: PeriodKey, xs: seq<GpItem>, now: Time)
    ensures var e := SubmitGp(db, k, xs, now).Or(db); e == db.(periods := e.periods, facts := e.facts)
  {
    hide FactAllowed, TokenError, WithGpItems;
  }

  lemma CloseTouches(db: Db, k: PeriodKey, now: Time)
    ensures var e := ClosePeriod(db, k, now).Or(db);
      e == db.(periods := e.periods, pace := e.pace, snaps := e.snaps, spikes := e.spikes)
  {
    hide SnapshotFor, RowsFor, SpikesOf, HasOpenDiscrepancy;
  }

  lemma PeriodTouches(db: Db, op: Op, now: Time)
    requires IsPeriodOp(op)
    ensures Touches(db, op, ApplyPeriod(db, op, now))
  {
    match op
    case DoOpenPeriod(site, pause, reason, free) => OpenTouches(db, site, pause, reason, free, now); hide OpenPeriod;
    case DoSubmitGp(k, xs) => SubmitGpTouches(db, k, xs, now); hide SubmitGp;
    case DoClosePeriod(k) => CloseTouches(db, k, now); hide ClosePeriod;
    case DoCorrectFact(fk, sc, accepted) => CorrectTouches(db, fk, sc, accepted, now); hide AdminCorrect;
  }

  lemma ForceCloseTouches(db: Db, fk: FactKey, pick: nat)
    ensures var e := ForceClose(db, fk, pick); e == db.(facts := e.facts, discrepancies := e.discrepancies)
  {
    hide Forced;
    if IsOpenOn(db.discrepancies, pick, fk) {
      var d := db.(discrepancies := db.discrepancies[pick := db.discrepancies[pick].(status := ForcedScFigure)]);
      if fk in db.facts { assert ForceClose(db, fk, pick) == d.(facts := db.facts[fk := Forced(db.facts[fk])]); }
      else { assert ForceClose(db, fk, pick) == d; }
      hide ForceClose;
    }
  }

  lemma JobTouches(db: Db, id: nat, pick: nat, now: Time)
    ensures var e := ProcessEvent(db, id, pick, now);
      e == db.(facts := e.facts, discrepancies := e.discrepancies, events := e.events, jobs := e.jobs)
  {
    hide ForceClose, IsPending;
    if id < |db.events| { ForceCloseTouches(db.(jobs := db.jobs - {id}), db.events[id].fact, pick); }
  }

  lemma CreateDisputeTouches(db: Db, k: PeriodKey, item: int, reason: Option<string>, now: Time)
    ensures var e := CreateDispute(db, k, item, reason, now).Or(db);
      e == db.(facts := e.facts, discrepancies := e.discrepancies, events := e.events, jobs := e.jobs)
  {
    hide WithJobs, Timers, PendingIds, IsBlank, Bumped;
  }

  lemma RespondTouches(db: Db, id: nat, position: Option<string>, now: Time)
    ensures var e := SubmitGpResponse(db, id, position, now).Or(db);
      e == db.(discrepancies := e.discrepancies, events := e.events)
  {
    hide CancelEvents, IsBlank;
  }

  lemma RejectTouches(db: Db, id: nat, now: Time)
    ensures var e := RejectGpResponse(db, id, now).Or(db); e == db.(events := e.events, jobs := e.jobs)
  {
    hide WithJobs, Timers, PendingIds;
  }

  lemma DisputeTouches(db: Db, op: Op, now: Time)
    requires IsDisputeOp(op)
    ensures Touches(db, op, ApplyDispute(db, op, now))
  {
    match op
    case DoCreateDispute(k, item, reason) => CreateDisputeTouches(db, k, item, reason, now); hide CreateDispute;
    case DoRespond(id, position) => RespondTouches(db, id, position, now); hide SubmitGpResponse;
    case DoReject(id) => RejectTouches(db, id, now); hide RejectGpResponse;
    case DoRunJob(id, pick) => JobTouches(db, id, pick, now); hide ProcessEvent;
    case DoRecover => hide WithJobs, AllPendingIds;
    case DoLoseJobs(lost) =>
  }

  lemma CreateBoqTables(db: Db, site: int, xs: seq<NewItem>)
    ensures var e := CreateInitial(db, site, xs).Or(db); e == db.(versions := e.versions, nextItem := e.nextItem)
  {
    hide ItemsAllowed, WeightsValid, NumberTaken, ActiveVersion, WeighAll, InitialItems;
  }

  lemma RequestTables(db: Db, site: int, item: int, plan: real)
    ensures var e := CreateRequest(db, site, item, plan).Or(db); e == db.(requests := e.requests)
  {
    hide ActiveVersion, HasItem;
  }

  lemma ApproveTables(db: Db, id: nat)
    ensures var e := ApproveRequest(db, id).Or(db);
      e == db.(versions := e.versions, nextItem := e.nextItem, requests := e.requests)
  {
    hide ItemsAllowed, WeightsValid, NumberTaken, ActiveVersion, HasOpenPeriod, WeighAll, CloneItems;
  }

  lemma BoqTouches(db: Db, op: Op)
    requires IsBoqOp(op)
    ensures Touches(db, op, ApplyBoq(db, op))
  {
    match op
    case DoCreateBoq(site, xs) => CreateBoqTables(db, site, xs); hide CreateInitial;
    case DoRequestBaseline(site, item, plan) => RequestTables(db, site, item, plan); hide CreateRequest;
    case DoApproveBaseline(id) => ApproveTables(db, id); hide ApproveRequest;
  }

  lemma ReportTables(db: Db, op: Op)
    requires IsReportOp(op)
    ensures var e := ApplyReport(db, op); e == db.(reports := e.reports)
  {
    hide Zero.LatestReport, Zero.ItemExists, HasItem, ItemsOf, Zero.ItemsError, ConfigOf, Zero.AllDocs;
    match op
    case DoCreateReport(site, version) => ReportCreateTables(db, site, version); hide Zero.Create;
    case DoEditReport(site, item, volume, docs) => hide Zero.Approve, Zero.Submit, Zero.Create;
    case DoSubmitReport(site) => hide Zero.Approve, Zero.UpsertItem, Zero.Create;
    case DoApproveReport(site) => ReportApproveTables(db, site); hide Zero.Approve;
  }

  lemma ReportCreateTables(db: Db, site: int, version: nat)
    ensures var e := Zero.Create(db, site, version).Or(db); e == db.(reports := e.reports)
  {
  }

  lemma ReportApproveTables(db: Db, site: int)
    ensures var e := Zero.Approve(db, site).Or(db); e == db.(reports := e.reports)
  {
    hide Zero.LatestReport, ItemsOf, Zero.ItemsError, ConfigOf;
  }

  lemma ReportTouches(db: Db, op: Op)
    requires IsReportOp(op)
    ensures Touches(db, op, ApplyReport(db, op))
  {
    ReportTables(db, op);
    hide ApplyReport;
  }

  lemma QueueTouches(db: Db, op: Op, now: Time)
    requires IsQueueOp(op)
    ensures Touches(db, op, ApplyQueue(db, op, now))
  {
  }

  lemma Footprint(db: Db, op: Op, now: Time)
    ensures Touches(db, op, Apply(db, op, now))
  {
    hide Touches;
    if IsEntryOp(op) { EntryTouches(db, op, now); }
    else if IsPeriodOp(op) { PeriodTouches(db, op, now); }
    else if IsDisputeOp(op) { DisputeTouches(db, op, now); }
    else if IsBoqOp(op) { BoqTouches(db, op); }
    else if IsReportOp(op) { ReportTouches(db, op); }
    else { QueueTouches(db, op, now); }
  }

  lemma {:induction false} CascadeListTouches(db: Db, site: int, numbers: seq<int>, now: Time)
    ensures var e := Cascade(db, site, numbers, now); e == db.(pace := e.pace, snaps := e.snaps, spikes := e.spikes)
    decreases |numbers|
  {
    if numbers != [] {
      CascadeListTouches(Recalculated(db, PeriodKey(site, numbers[0]), now), site, numbers[1..], now);
    }
  }

  lemma CascadeTouches(db: Db, site: int, n: int, now: Time)
    ensures var e := CascadeFrom(db, site, n, now); e == db.(pace := e.pace, snaps := e.snaps, spikes := e.spikes)
  {
    CascadeListTouches(db, site, ClosedFrom(db.periods, site, n, LastNumber(db.periods, site)), now);
  }
}

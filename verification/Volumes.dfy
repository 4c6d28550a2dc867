/** What runs keep about the volumes of a fact: the accepted figure, the contractor's figure,
    and the two ways in which a period's figures can be entered. */
module Volumes {
  import opened Common
  import opened Store
  import opened Derived
  import opened PeriodSpec
  import opened DisputeSpec
  import opened Runs
  import opened Lifecycle
  import opened Freshness

  /** The accepted volume is the SC volume or none, and a confirmed fact has one figure. */
  predicate FactAgrees(f: Fact) {
    && (f.accepted.None? || f.accepted == f.sc)
    && (f.discStatus == Some(FactConfirmed) ==> f.gp.Some? && f.gp == f.sc && f.sc == f.accepted)
    && (f.discStatus == Some(FactForced) ==> f.accepted == f.sc)
  }

  ghost predicate Agreed(facts: map<FactKey, Fact>) { forall fk | fk in facts :: FactAgrees(facts[fk]) }

  /** A fact of a period still open was entered after the contractor's deadline, without a
      contractor's figure. */
  ghost predicate Timely(periods: map<PeriodKey, Period>, facts: map<FactKey, Fact>, clock: Time) {
    forall fk | fk in facts && fk.period in periods && periods[fk.period].status == Open ::
      facts[fk].gp.None? && periods[fk.period].tokenExpiresAt.Some? && periods[fk.period].tokenExpiresAt.value < clock
  }

  // ---- what a step does to a period ----

  /** The ways in which an existing period can change in one step. */
  predicate Moves(p: Period, q: Period, op: Op, now: Time, k: PeriodKey) {
    || q == p
    || (op.DoSubmitGp? && op.k == k && TokenError(p, now).None? && p.status == Open
        && q == p.(gpSubmittedAt := Some(now), status := GpSubmitted))
    || (IsEntryOp(op) && p.status == GpSubmitted && q == p.(status := Verification))
    || (op == DoClosePeriod(k) && p.status == Verification && q == p.(status := Closed))
  }

  lemma EntryMoves(db: Db, op: Op, now: Time, k: PeriodKey)
    requires Numbered(db.periods) && k in db.periods && IsEntryOp(op)
    ensures var e := ApplyEntry(db, op, now); k in e.periods && Moves(db.periods[k], e.periods[k], op, now, k)
  {
    EntryStep(db, op, now);
    var x := EffectOf(db, op, now);
    if x.Entered? { UpsertPeriods(db, x.k, x.item, x.sc, x.opts, now); }
    hide ApplyEntry, EffectOf, UpsertFact, Numbered;
  }

  lemma SubmitGpMoves(db: Db, j: PeriodKey, xs: seq<GpItem>, now: Time, k: PeriodKey)
    requires k in db.periods
    ensures var e := SubmitGp(db, j, xs, now).Or(db);
      k in e.periods && Moves(db.periods[k], e.periods[k], DoSubmitGp(j, xs), now, k)
  {
    hide TokenError, FactAllowed, WithGpItems;
  }

  lemma OpenMoves(db: Db, site: int, pause: bool, reason: Option<string>, free: bool, now: Time, k: PeriodKey)
    requires Numbered(db.periods) && k in db.periods
    ensures var e := OpenPeriod(db, site, pause, reason, free, now).Or(db);
      k in e.periods && e.periods[k] == db.periods[k]
  {
    LastNumberIs(db.periods, site);
    hide LastNumber, ActiveVersion, HasApprovedReport, HasOpenPeriod, Numbered;
  }

  lemma PeriodOpMoves(db: Db, op: Op, now: Time, k: PeriodKey)
    requires Numbered(db.periods) && k in db.periods && IsPeriodOp(op)
    ensures var e := ApplyPeriod(db, op, now); k in e.periods && Moves(db.periods[k], e.periods[k], op, now, k)
  {
    hide Numbered, TokenError;
    match op
    case DoOpenPeriod(site, pause, reason, free) => OpenMoves(db, site, pause, reason, free, now, k); hide OpenPeriod;
    case DoSubmitGp(j, xs) => SubmitGpMoves(db, j, xs, now, k); hide SubmitGp;
    case DoClosePeriod(j) =>
      if ClosePeriod(db, j, now).Ok? { ClosingPeriods(db, j, now); }
      hide ClosePeriod;
    case DoCorrectFact(fk, sc, accepted) => CorrectTouches(db, fk, sc, accepted, now); hide AdminCorrect;
  }

  lemma PeriodMoves(db: Db, op: Op, now: Time, k: PeriodKey)
    requires Numbered(db.periods) && k in db.periods
    ensures var e := Apply(db, op, now); k in e.periods && Moves(db.periods[k], e.periods[k], op, now, k)
  {
    hide Numbered;
    if IsEntryOp(op) { EntryMoves(db, op, now, k); hide Moves, ApplyEntry; }
    else if IsPeriodOp(op) { PeriodOpMoves(db, op, now, k); hide Moves, ApplyPeriod; }
    else { UnchangedPeriods(db, op, now); hide Apply; }
  }

  // ---- facts ----

  /** What a contractor's submission leaves of the facts, when the period had none. */
  ghost predicate GpOnly(before: map<FactKey, Fact>, after: map<FactKey, Fact>, k: PeriodKey) {
    forall fk | fk in after ::
      if fk.period == k then after[fk].sc.None? && after[fk].accepted.None? && after[fk].discStatus.None?
      else fk in before && after[fk] == before[fk]
  }

  lemma {:induction false} GpItemsOnly(facts: map<FactKey, Fact>, k: PeriodKey, xs: seq<GpItem>)
    requires GpOnly(facts, facts, k)
    ensures GpOnly(facts, WithGpItems(facts, k, xs), k)
    decreases |xs|
  {
    if xs != [] { GpItemsOnly(WithGp(facts, k, xs[0]), k, xs[1..]); }
  }

  lemma SubmitGpStep(db: Db, clock: Time, k: PeriodKey, xs: seq<GpItem>, now: Time)
    requires Timely(db.periods, db.facts, clock) && clock <= now
    ensures var e := SubmitGp(db, k, xs, now).Or(db);
      Timely(e.periods, e.facts, now) && (Agreed(db.facts) ==> Agreed(e.facts))
  {
    hide FactAllowed, WithGpItems;
    if SubmitGp(db, k, xs, now).Ok? {
      assert forall fk | fk in db.facts :: fk.period != k;
      GpItemsOnly(db.facts, k, xs);
    }
  }

  lemma EntryVolumes(db: Db, clock: Time, op: Op, now: Time)
    requires Timely(db.periods, db.facts, clock) && clock <= now && IsEntryOp(op)
    ensures var e := ApplyEntry(db, op, now);
      Timely(e.periods, e.facts, now) && (Agreed(db.facts) ==> Agreed(e.facts))
  {
    EntryStep(db, op, now);
    EffectEnters(db, op, now);
    var x := EffectOf(db, op, now);
    hide ApplyEntry, EffectOf;
    if x.Entered? {
      UpsertVolumes(db, clock, x.k, x.item, x.sc, x.opts, now);
      hide UpsertFact;
    }
    hide UpsertError;
  }

  lemma UpsertVolumes(db: Db, clock: Time, k: PeriodKey, item: int, sc: real, opts: UpsertOpts, now: Time)
    requires Timely(db.periods, db.facts, clock) && clock <= now
    ensures var e := UpsertFact(db, k, item, sc, opts, now).Or(db);
      Timely(e.periods, e.facts, now) && (Agreed(db.facts) ==> Agreed(e.facts))
  {
    var r := UpsertFact(db, k, item, sc, opts, now);
    if r.Ok? {
      var fk := FactKey(k, item);
      var f := UpsertedFact(db.facts, fk, sc, opts.spikeResponse);
      assert FactAgrees(f) && f.gp == GpOf(db.facts, fk);
      var p := db.periods[k];
      assert p.status == Open ==> NoTemplateInput(p, now);
      assert r.value.facts == db.facts[fk := f] && !ClosedStatus(p.status);
      assert r.value.periods == if p.status == GpSubmitted then db.periods[k := p.(status := Verification)]
        else db.periods;
      hide UpsertFact, UpsertError, UpsertedFact, FactAgrees;
    }
  }

  lemma DisputeVolumes(db: Db, clock: Time, k: PeriodKey, item: int, reason: Option<string>, now: Time)
    requires Timely(db.periods, db.facts, clock) && clock <= now
    ensures var e := CreateDispute(db, k, item, reason, now).Or(db);
      Timely(e.periods, e.facts, now) && (Agreed(db.facts) ==> Agreed(e.facts))
  {
    CreateDisputeTouches(db, k, item, reason, now);
    hide WithJobs, Timers, PendingIds, IsBlank;
  }

  lemma JobVolumes(db: Db, clock: Time, id: nat, pick: nat, now: Time)
    requires Timely(db.periods, db.facts, clock) && clock <= now
    ensures var e := ProcessEvent(db, id, pick, now);
      Timely(e.periods, e.facts, now) && (Agreed(db.facts) ==> Agreed(e.facts))
  {
    JobTouches(db, id, pick, now);
    JobEffect(db, id, pick, now);
    hide ProcessEvent, JobForces;
  }

  lemma CorrectTimely(db: Db, clock: Time, fk: FactKey, sc: real, accepted: real, now: Time)
    requires Timely(db.periods, db.facts, clock) && clock <= now
    ensures var e := AdminCorrect(db, fk, sc, accepted, now).Or(db); Timely(e.periods, e.facts, now)
  {
    hide CascadeFrom;
    var r := CorrectFact(db, fk, sc, accepted);
    if r.Ok? { CascadeTouches(r.value, fk.period.site, fk.period.number, now); }
  }

  lemma OtherVolumes(db: Db, clock: Time, op: Op, now: Time)
    requires Base(db) && Timely(db.periods, db.facts, clock) && clock <= now
    requires !IsEntryOp(op) && !op.DoSubmitGp? && !op.DoCorrectFact? && !op.DoCreateDispute? && !op.DoRunJob?
    ensures var e := Apply(db, op, now);
      Timely(e.periods, e.facts, now) && (Agreed(db.facts) ==> Agreed(e.facts))
  {
    var e := Apply(db, op, now);
    SameFacts(db, op, now);
    forall fk | fk in e.facts && fk.period in e.periods && e.periods[fk.period].status == Open
      ensures e.facts[fk].gp.None? && e.periods[fk.period].tokenExpiresAt.Some?
        && e.periods[fk.period].tokenExpiresAt.value < now
    {
      assert fk.period in db.periods;
      PeriodMoves(db, op, now, fk.period);
      hide Apply;
    }
  }

  lemma VolumesStep(db: Db, clock: Time, op: Op, now: Time)
    requires Base(db) && Timely(db.periods, db.facts, clock) && clock <= now
    ensures var e := Apply(db, op, now);
      Timely(e.periods, e.facts, now) && (Agreed(db.facts) && !op.DoCorrectFact? ==> Agreed(e.facts))
  {
    hide Timely, Agreed, Numbered, FactsOk, DisputesOk, PeriodsRefer;
    if IsEntryOp(op) { EntryVolumes(db, clock, op, now); }
    else {
      match op
      case DoSubmitGp(k, xs) => SubmitGpStep(db, clock, k, xs, now);
      case DoCorrectFact(fk, sc, accepted) => CorrectTimely(db, clock, fk, sc, accepted, now);
      case DoCreateDispute(k, item, reason) => DisputeVolumes(db, clock, k, item, reason, now);
      case DoRunJob(id, pick) => JobVolumes(db, clock, id, pick, now);
      case _ => OtherVolumes(db, clock, op, now);
    }
  }

  ghost predicate Uncorrected(steps: seq<Step>) { forall s | s in steps :: !s.op.DoCorrectFact? }

  lemma {:induction false} VolumesRun(db: Db, clock: Time, steps: seq<Step>)
    requires Base(db) && Timely(db.periods, db.facts, clock) && AllowedRun(db, clock, steps)
    ensures var e := Run(db, steps);
      && Base(e) && Timely(e.periods, e.facts, LastClock(clock, steps))
      && (Agreed(db.facts) && Uncorrected(steps) ==> Agreed(e.facts))
    decreases |steps|
  {
    hide Apply, Base, Timely, Agreed;
    if steps != [] {
      BaseStep(db, steps[0].op, steps[0].now);
      VolumesStep(db, clock, steps[0].op, steps[0].now);
      assert steps[0] in steps && forall s | s in steps[1..] :: s in steps;
      VolumesRun(Apply(db, steps[0].op, steps[0].now), steps[0].now, steps[1..]);
    }
  }

  /** On every run without admin correction the accepted volume is unset or the SC volume, and
      a confirmed fact has one figure in all three places. */
  lemma AcceptedIsScOrNone(sites: map<int, Site>, clock: Time, steps: seq<Step>, fk: FactKey)
    requires AllowedRun(EmptyDb(sites), clock, steps) && Uncorrected(steps)
    requires fk in Run(EmptyDb(sites), steps).facts
    ensures var f := Run(EmptyDb(sites), steps).facts[fk];
      && (f.accepted.None? || f.accepted == f.sc)
      && (f.discStatus == Some(FactConfirmed) ==> f.gp.Some? && f.gp == f.sc && f.sc == f.accepted)
      && (f.discStatus == Some(FactForced) ==> f.accepted == f.sc)
  {
    VolumesRun(EmptyDb(sites), clock, steps);
    hide Run;
  }

  // ---- forcing a figure ----

  function ScOrZero(f: Fact): real { if f.sc.Some? then f.sc.value else 0.0 }

  /** A timer that forces the SC figure keeps every effective volume exactly when the forced
      fact has no accepted volume or accepts the SC figure already. */
  lemma ForceKeepsVolumesIff(db: Db, id: nat, pick: nat, now: Time)
    requires JobForces(db, id, pick) && db.events[id].fact in db.facts
    ensures var f := db.facts[db.events[id].fact];
      (forall fk :: Volume(ProcessEvent(db, id, pick, now).facts, fk) == Volume(db.facts, fk))
        <==> f.accepted.None? || f.accepted.value == ScOrZero(f)
  {
    JobEffect(db, id, pick, now);
    var e, fk := ProcessEvent(db, id, pick, now), db.events[id].fact;
    hide ProcessEvent, JobForces;
    assert Volume(e.facts, fk) == ScOrZero(db.facts[fk]);
    assert Volume(db.facts, fk) == EffectiveVolume(db.facts[fk]);
    assert forall x | x != fk :: Volume(e.facts, x) == Volume(db.facts, x);
  }

  lemma AgreedForceUnseen(db: Db, id: nat, pick: nat, now: Time, fk: FactKey)
    requires Agreed(db.facts)
    ensures See(ProcessEvent(db, id, pick, now).facts, fk) == See(db.facts, fk)
  {
    JobEffect(db, id, pick, now);
    hide ProcessEvent, JobForces;
  }

  /** Without admin corrections no job of the worker ever changes an effective volume, in a
      closed period or not. */
  lemma TimersNeverMoveVolumes(sites: map<int, Site>, clock: Time, steps: seq<Step>, id: nat, pick: nat, now: Time,
      fk: FactKey)
    requires AllowedRun(EmptyDb(sites), clock, steps) && Uncorrected(steps)
    ensures var db := Run(EmptyDb(sites), steps);
      See(ProcessEvent(db, id, pick, now).facts, fk) == See(db.facts, fk)
  {
    VolumesRun(EmptyDb(sites), clock, steps);
    AgreedForceUnseen(Run(EmptyDb(sites), steps), id, pick, now, fk);
    hide Run, ProcessEvent;
  }

  ghost predicate ClosesInOrder(db: Db, steps: seq<Step>)
    decreases |steps|
  {
    steps == [] ||
    ((steps[0].op.DoClosePeriod? ==> InOrder(db, steps[0].op.k))
      && ClosesInOrder(Apply(db, steps[0].op, steps[0].now), steps[1..]))
  }

  lemma {:induction false} UncorrectedIsOrderly(db: Db, clock: Time, steps: seq<Step>)
    requires Base(db) && Timely(db.periods, db.facts, clock) && Agreed(db.facts)
    requires AllowedRun(db, clock, steps) && Uncorrected(steps) && ClosesInOrder(db, steps)
    ensures OrderlyRun(db, steps)
    decreases |steps|
  {
    hide Apply, Base, Timely, JobForces, ForcesClosed, InOrder;
    if steps != [] {
      BaseStep(db, steps[0].op, steps[0].now);
      VolumesStep(db, clock, steps[0].op, steps[0].now);
      assert steps[0] in steps && forall s | s in steps[1..] :: s in steps;
      assert forall fk :: ForceIsNeutral(db.facts, fk);
      hide Agreed, ForceIsNeutral;
      UncorrectedIsOrderly(Apply(db, steps[0].op, steps[0].now), steps[0].now, steps[1..]);
    }
  }

  /** With every timer of the worker running, closing in number order is enough for the stored
      rows and snapshots to stay those of a recomputation from scratch. */
  lemma TimersKeepFresh(sites: map<int, Site>, clock: Time, steps: seq<Step>)
    requires AllowedRun(EmptyDb(sites), clock, steps) && Uncorrected(steps) && ClosesInOrder(EmptyDb(sites), steps)
    ensures Fresh(Run(EmptyDb(sites), steps))
  {
    UncorrectedIsOrderly(EmptyDb(sites), clock, steps);
    OrderedRunsStayFresh(sites, steps);
  }
}

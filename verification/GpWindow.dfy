/** The contractor's submission and the entry without it exclude each other in a period, and
    the contractor's figures are frozen once submitted. */
module GpWindow {
  import opened Common
  import opened Store
  import opened Derived
  import opened PeriodSpec
  import opened DisputeSpec
  import opened Runs
  import opened Lifecycle
  import opened Freshness
  import opened Volumes

  /** The step is the contractor's successful submission for the period. */
  predicate Submits(db: Db, s: Step, k: PeriodKey) {
    s.op.DoSubmitGp? && s.op.k == k && SubmitGp(db, k, s.op.gpItems, s.now).Ok?
  }

  /** The step enters an SC figure in the period because the contractor's deadline passed. */
  predicate EntersLate(db: Db, s: Step, k: PeriodKey) {
    var x := EffectOf(db, s.op, s.now);
    x.Entered? && x.k == k && k in db.periods && NoTemplateInput(db.periods[k], s.now)
  }

  // ---- who writes the contractor's figure ----

  lemma {:induction false} GpItemsElsewhere(facts: map<FactKey, Fact>, k: PeriodKey, xs: seq<GpItem>, fk: FactKey)
    requires fk.period != k
    ensures GpOf(WithGpItems(facts, k, xs), fk) == GpOf(facts, fk)
    decreases |xs|
  {
    if xs != [] { GpItemsElsewhere(WithGp(facts, k, xs[0]), k, xs[1..], fk); }
  }

  lemma EntryKeepsGp(db: Db, op: Op, now: Time, fk: FactKey)
    requires IsEntryOp(op)
    ensures GpOf(ApplyEntry(db, op, now).facts, fk) == GpOf(db.facts, fk)
  {
    EntryStep(db, op, now);
    EffectEnters(db, op, now);
    var x := EffectOf(db, op, now);
    hide ApplyEntry, EffectOf;
    if x.Entered? {
      var f := UpsertedFact(db.facts, FactKey(x.k, x.item), x.sc, x.opts.spikeResponse);
      assert WithEffect(db, x, now).facts == db.facts[FactKey(x.k, x.item) := f];
      assert f.gp == GpOf(db.facts, FactKey(x.k, x.item));
      hide WithEffect, UpsertedFact;
    }
    hide UpsertError;
  }

  lemma CreateDisputeKeepsGp(db: Db, k: PeriodKey, item: int, reason: Option<string>, now: Time, fk: FactKey)
    ensures GpOf(CreateDispute(db, k, item, reason, now).Or(db).facts, fk) == GpOf(db.facts, fk)
  {
    hide WithJobs, Timers, PendingIds, IsBlank;
  }

  lemma JobKeepsGp(db: Db, id: nat, pick: nat, now: Time, fk: FactKey)
    ensures GpOf(ProcessEvent(db, id, pick, now).facts, fk) == GpOf(db.facts, fk)
  {
    JobEffect(db, id, pick, now);
    hide ProcessEvent, JobForces;
  }

  lemma CorrectKeepsGp(db: Db, x: FactKey, sc: real, accepted: real, now: Time, fk: FactKey)
    ensures GpOf(AdminCorrect(db, x, sc, accepted, now).Or(db).facts, fk) == GpOf(db.facts, fk)
  {
    hide CascadeFrom;
    var r := CorrectFact(db, x, sc, accepted);
    if r.Ok? { CascadeTouches(r.value, x.period.site, x.period.number, now); }
  }

  lemma SubmitKeepsGp(db: Db, k: PeriodKey, xs: seq<GpItem>, now: Time, fk: FactKey)
    requires fk.period != k || SubmitGp(db, k, xs, now).Fail?
    ensures GpOf(SubmitGp(db, k, xs, now).Or(db).facts, fk) == GpOf(db.facts, fk)
  {
    hide TokenError, FactAllowed, GpOf;
    if SubmitGp(db, k, xs, now).Ok? { GpItemsElsewhere(db.facts, k, xs, fk); }
  }

  /** Only the contractor's submission for the period writes a contractor's figure. */
  lemma GpStep(db: Db, s: Step, fk: FactKey)
    requires !Submits(db, s, fk.period)
    ensures GpOf(Apply(db, s.op, s.now).facts, fk) == GpOf(db.facts, fk)
  {
    hide GpOf;
    if IsEntryOp(s.op) { EntryKeepsGp(db, s.op, s.now, fk); hide ApplyEntry; }
    else {
      match s.op
      case DoSubmitGp(k, xs) => SubmitKeepsGp(db, k, xs, s.now, fk); hide SubmitGp;
      case DoCreateDispute(k, item, reason) => CreateDisputeKeepsGp(db, k, item, reason, s.now, fk); hide CreateDispute;
      case DoRunJob(id, pick) => JobKeepsGp(db, id, pick, s.now, fk); hide ProcessEvent;
      case DoCorrectFact(x, sc, accepted) => CorrectKeepsGp(db, x, sc, accepted, s.now, fk); hide AdminCorrect;
      case _ => SameFacts(db, s.op, s.now); hide Apply;
    }
  }

  // ---- after the submission ----

  lemma SubmittedRefuses(db: Db, s: Step, k: PeriodKey)
    requires Numbered(db.periods) && k in db.periods && db.periods[k].gpSubmittedAt.Some?
    ensures !Submits(db, s, k) && !EntersLate(db, s, k)
  {
    hide EffectOf;
  }

  /** Once the contractor has submitted, the submission time and every figure of the period stay. */
  lemma {:induction false} GpFrozen(db: Db, steps: seq<Step>, k: PeriodKey, item: int)
    requires Numbered(db.periods) && k in db.periods && db.periods[k].gpSubmittedAt.Some?
    ensures var e := Run(db, steps);
      && k in e.periods && Numbered(e.periods)
      && e.periods[k].gpSubmittedAt == db.periods[k].gpSubmittedAt
      && GpOf(e.facts, FactKey(k, item)) == GpOf(db.facts, FactKey(k, item))
    decreases |steps|
  {
    if steps != [] {
      PeriodsStep(db, steps[0].op, steps[0].now);
      PeriodMoves(db, steps[0].op, steps[0].now, k);
      SubmittedRefuses(db, steps[0], k);
      GpStep(db, steps[0], FactKey(k, item));
      var e := Apply(db, steps[0].op, steps[0].now);
      assert e.periods[k].gpSubmittedAt == db.periods[k].gpSubmittedAt;
      hide Apply, GpOf, Numbered, Moves, Submits, EntersLate, Advanced;
      GpFrozen(e, steps[1..], k, item);
    }
  }

  // ---- after the deadline ----

  /** A period still open when its deadline has passed stays exactly as it is for ever: it can
      neither be submitted nor verified nor closed, and the object can open no other period. */
  lemma {:induction false} LatePeriodIsStuck(db: Db, clock: Time, steps: seq<Step>, k: PeriodKey)
    requires Numbered(db.periods) && AllowedRun(db, clock, steps)
    requires k in db.periods && db.periods[k].status == Open
    requires db.periods[k].tokenExpiresAt.Some?
    requires db.periods[k].tokenExpiresAt.value < clock
    ensures var e := Run(db, steps); k in e.periods && e.periods[k] == db.periods[k] && HasOpenPeriod(e.periods, k.site)
    decreases |steps|
  {
    if steps != [] {
      PeriodsStep(db, steps[0].op, steps[0].now);
      PeriodMoves(db, steps[0].op, steps[0].now, k);
      hide Apply, Numbered, Advanced, HasOpenPeriod;
      LatePeriodIsStuck(Apply(db, steps[0].op, steps[0].now), steps[0].now, steps[1..], k);
    }
  }

  // ---- over a whole run ----

  /** Two steps of a run from the empty store, and the run between them. */
  lemma TwoSteps(sites: map<int, Site>, clock: Time, steps: seq<Step>, i: nat, j: nat) returns (d: Db)
    requires AllowedRun(EmptyDb(sites), clock, steps) && i < j < |steps|
    ensures d == Before(EmptyDb(sites), steps, i) && Base(d)
    ensures var e := Apply(d, steps[i].op, steps[i].now);
      && Before(EmptyDb(sites), steps, j) == Run(e, steps[i + 1..j])
      && AllowedRun(e, steps[i].now, steps[i + 1..j] + [steps[j]])
  {
    hide Run, AllowedRun, Apply, Base;
    EmptyBase(sites);
    BaseRun(EmptyDb(sites), steps[..i]);
    d := Before(EmptyDb(sites), steps, i);
    RunBetween(EmptyDb(sites), clock, steps, i, j);
  }

  lemma SubmissionMarks(d: Db, s: Step, k: PeriodKey)
    requires Numbered(d.periods) && Submits(d, s, k)
    ensures var e := Apply(d, s.op, s.now);
      Numbered(e.periods) && k in e.periods && e.periods[k].gpSubmittedAt == Some(s.now)
  {
    PeriodsStep(d, s.op, s.now);
    hide Numbered, WithGpItems, FactAllowed, TokenError;
  }

  lemma SubmissionThen(d: Db, s: Step, mid: seq<Step>, t: Step, k: PeriodKey)
    requires Numbered(d.periods) && Submits(d, s, k)
    ensures var e := Run(Apply(d, s.op, s.now), mid); !Submits(e, t, k) && !EntersLate(e, t, k)
  {
    var d' := Apply(d, s.op, s.now);
    SubmissionMarks(d, s, k);
    hide Apply, Numbered, Submits, EntersLate, Run;
    GpFrozen(d', mid, k, 0);
    SubmittedRefuses(Run(d', mid), t, k);
  }

  lemma EntersLateKeepsPeriod(d: Db, s: Step, k: PeriodKey)
    requires Numbered(d.periods) && EntersLate(d, s, k)
    ensures var e := Apply(d, s.op, s.now); k in e.periods && e.periods[k] == d.periods[k] && Numbered(e.periods)
  {
    PeriodsStep(d, s.op, s.now);
    PeriodMoves(d, s.op, s.now, k);
    hide Apply, Numbered;
  }

  lemma LateRefuses(db: Db, s: Step, k: PeriodKey)
    requires k in db.periods && db.periods[k].status == Open
    requires db.periods[k].tokenExpiresAt.Some? && db.periods[k].tokenExpiresAt.value < s.now
    ensures !Submits(db, s, k)
  {
  }

  lemma {:induction false} ClockMoves(db: Db, clock: Time, steps: seq<Step>)
    requires AllowedRun(db, clock, steps)
    ensures clock <= LastClock(clock, steps)
    decreases |steps|
  {
    hide Apply;
    if steps != [] { ClockMoves(Apply(db, steps[0].op, steps[0].now), steps[0].now, steps[1..]); }
  }

  lemma LateEntryThen(d: Db, s: Step, mid: seq<Step>, t: Step, k: PeriodKey)
    requires Numbered(d.periods) && EntersLate(d, s, k)
    requires AllowedRun(Apply(d, s.op, s.now), s.now, mid + [t])
    ensures !Submits(Run(Apply(d, s.op, s.now), mid), t, k)
  {
    var d' := Apply(d, s.op, s.now);
    EntersLateKeepsPeriod(d, s, k);
    assert d'.periods[k].status == Open && d'.periods[k].tokenExpiresAt.Some?
      && d'.periods[k].tokenExpiresAt.value < s.now by {
      hide EffectOf, Apply;
    }
    RunSplit(d', s.now, mid, [t]);
    ClockMoves(d', s.now, mid + [t]);
    assert LastClock(s.now, mid + [t]) == t.now;
    hide Apply, Numbered, Submits, EntersLate, Run, AllowedRun;
    LatePeriodIsStuck(d', s.now, mid, k);
    LateRefuses(Run(d', mid), t, k);
  }

  /** In a run with a monotone clock a period sees at most one successful submission of the
      contractor, and no entry without the contractor before or after it. */
  lemma SubmissionExcludesLateEntry(sites: map<int, Site>, clock: Time, steps: seq<Step>, k: PeriodKey, i: nat, j: nat)
    requires AllowedRun(EmptyDb(sites), clock, steps) && i < |steps| && j < |steps|
    requires Submits(Before(EmptyDb(sites), steps, i), steps[i], k)
    ensures j != i ==> !Submits(Before(EmptyDb(sites), steps, j), steps[j], k)
    ensures !EntersLate(Before(EmptyDb(sites), steps, j), steps[j], k)
  {
    hide Submits, EntersLate, Before, AllowedRun, Run, Apply, Numbered;
    if i < j {
      var d := TwoSteps(sites, clock, steps, i, j);
      SubmissionThen(d, steps[i], steps[i + 1..j], steps[j], k);
    } else if j < i {
      var d := TwoSteps(sites, clock, steps, j, i);
      if Submits(d, steps[j], k) { SubmissionThen(d, steps[j], steps[j + 1..i], steps[i], k); }
      if EntersLate(d, steps[j], k) { LateEntryThen(d, steps[j], steps[j + 1..i], steps[i], k); }
    } else {
      SubmitsNotEnters(Before(EmptyDb(sites), steps, i), steps[i], k);
    }
  }

  lemma SubmitsNotEnters(db: Db, s: Step, k: PeriodKey)
    requires Submits(db, s, k)
    ensures !EntersLate(db, s, k)
  {
  }

  /** From the submission of a period on, its time and every contractor figure of the period are
      the same in all later states of the run. */
  lemma FiguresStayAfterSubmission(sites: map<int, Site>, steps: seq<Step>, i: nat, j: nat, k: PeriodKey, item: int)
    requires i < j <= |steps| && Submits(Before(EmptyDb(sites), steps, i), steps[i], k)
    ensures var d, e := Before(EmptyDb(sites), steps, i + 1), Before(EmptyDb(sites), steps, j);
      && k in e.periods && e.periods[k].gpSubmittedAt == Some(steps[i].now)
      && GpOf(e.facts, FactKey(k, item)) == GpOf(d.facts, FactKey(k, item))
  {
    var d := Before(EmptyDb(sites), steps, i);
    NumberedAt(sites, steps, i);
    BeforeLater(EmptyDb(sites), steps, i, j);
    hide Before, Run, Apply, Numbered, Submits, GpOf;
    SubmissionMarks(d, steps[i], k);
    GpFrozen(Apply(d, steps[i].op, steps[i].now), steps[i + 1..j], k, item);
  }

  lemma NumberedAt(sites: map<int, Site>, steps: seq<Step>, i: nat)
    requires i <= |steps|
    ensures Numbered(Before(EmptyDb(sites), steps, i).periods)
  {
    EmptyBase(sites);
    BaseRun(EmptyDb(sites), steps[..i]);
    hide Run, Numbered, PeriodsRefer, FactsOk, DisputesOk;
  }

  /** From the first entry without the contractor on, the period stays exactly as it is in all
      later states of the run: it is never closed, and its object opens no other period. */
  lemma LateEntryEndsThePeriod(sites: map<int, Site>, clock: Time, steps: seq<Step>, i: nat, j: nat, k: PeriodKey)
    requires AllowedRun(EmptyDb(sites), clock, steps) && i < j <= |steps|
    requires EntersLate(Before(EmptyDb(sites), steps, i), steps[i], k)
    ensures var d, e := Before(EmptyDb(sites), steps, i), Before(EmptyDb(sites), steps, j);
      k in e.periods && e.periods[k] == d.periods[k] && HasOpenPeriod(e.periods, k.site)
  {
    var d := Before(EmptyDb(sites), steps, i);
    hide Before, Run, Apply, Numbered, EntersLate, HasOpenPeriod, AllowedRun;
    NumberedAt(sites, steps, i);
    BeforeLater(EmptyDb(sites), steps, i, j);
    RunAt(EmptyDb(sites), clock, steps, i);
    var d' := Apply(d, steps[i].op, steps[i].now);
    assert steps[i + 1..] == steps[i + 1..j] + steps[j..];
    RunSplit(d', steps[i].now, steps[i + 1..j], steps[j..]);
    LateIsLate(d, steps[i], k);
    EntersLateKeepsPeriod(d, steps[i], k);
    LatePeriodIsStuck(d', steps[i].now, steps[i + 1..j], k);
  }

  lemma LateIsLate(d: Db, s: Step, k: PeriodKey)
    requires EntersLate(d, s, k)
    ensures k in d.periods && NoTemplateInput(d.periods[k], s.now)
  {
    hide EffectOf;
  }
}

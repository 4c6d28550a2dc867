/** Timed safety of disputes: no SC figure is forced before the contractor's time is over. */
module DisputeTimers {
  import opened Common
  import opened Store
  import opened PeriodSpec
  import opened DisputeSpec
  import opened Runs
  import opened Lifecycle

  predicate Active(d: Discrepancy) { d.kind == 2 && d.status == DisputeOpen }

  /** The timer runs in scenario B, from the contractor's current response. */
  predicate DatedFrom(e: SlaEvent, t: Time) { e.scenario == B && e.scheduledAt == t + DueDays(e.eventType) * DAY }

  /** Every pending timer of a fact whose dispute the contractor has answered is dated from the answer. */
  ghost predicate ResponseTimers(ds: seq<Discrepancy>, es: seq<SlaEvent>) {
    forall d, e | d in ds && e in es && Active(d) && d.gcResponseAt.Some? && IsPending(e) && e.fact == d.fact ::
      DatedFrom(e, d.gcResponseAt.value)
  }

  ghost predicate OnePerFact(ds: seq<Discrepancy>) {
    forall i, j | 0 <= i < j < |ds| && Active(ds[i]) && Active(ds[j]) :: ds[i].fact != ds[j].fact
  }

  /** Scenario A forces on day 5 only, scenario B on day 14 only. */
  ghost predicate Typed(es: seq<SlaEvent>) {
    forall e | e in es :: if e.scenario == A then e.eventType == NotifyDay3 || e.eventType == ForceCloseDay5
                          else e.eventType != ForceCloseDay5
  }

  ghost predicate JobsReady(jobs: map<nat, Time>, es: seq<SlaEvent>) {
    forall i | i in jobs :: i < |es| && jobs[i] >= es[i].scheduledAt
  }

  ghost predicate PendingQueued(jobs: map<nat, Time>, es: seq<SlaEvent>) {
    forall i: nat | i < |es| && IsPending(es[i]) :: i in jobs
  }

  ghost predicate Timed(db: Db) {
    && ResponseTimers(db.discrepancies, db.events) && OnePerFact(db.discrepancies)
    && Typed(db.events) && JobsReady(db.jobs, db.events)
  }

  /** A new dispute is opened only on a fact without an open one. */
  ghost predicate Single(db: Db, op: Op) {
    op.DoCreateDispute? ==> forall d | d in db.discrepancies && d.fact == FactKey(op.k, op.item) :: !Active(d)
  }

  // ---- jobs ----

  lemma {:induction false} WithJobsReady(jobs: map<nat, Time>, es: seq<SlaEvent>, wanted: set<nat>, now: Time)
    requires JobsReady(jobs, es)
    ensures JobsReady(WithJobs(jobs, es, wanted, now), es)
    ensures forall i | i in jobs || (i in wanted && i < |es|) :: i in WithJobs(jobs, es, wanted, now)
  {
  }

  lemma {:induction false} JobsReadyLonger(jobs: map<nat, Time>, es: seq<SlaEvent>, more: seq<SlaEvent>)
    requires JobsReady(jobs, es)
    ensures JobsReady(jobs, es + more)
  {
  }

  /** Recovery queues every pending event, none too early, leaves the queued jobs as they are, and
      adds nothing when nothing was lost. */
  lemma RecoveryRestoresJobs(db: Db, now: Time)
    requires JobsReady(db.jobs, db.events)
    ensures var e := RecoverPending(db, now);
      && e == db.(jobs := e.jobs)
      && JobsReady(e.jobs, db.events) && PendingQueued(e.jobs, db.events)
      && (forall i | i in db.jobs :: i in e.jobs && e.jobs[i] == db.jobs[i])
      && (PendingQueued(db.jobs, db.events) ==> e == db)
  {
    var ids := AllPendingIds(db.events);
    WithJobsReady(db.jobs, db.events, ids, now);
    var w := WithJobs(db.jobs, db.events, ids, now);
    forall i: nat | i < |db.events| && IsPending(db.events[i]) ensures i in w { assert i in ids; }
    if PendingQueued(db.jobs, db.events) {
      assert forall i | i in ids :: i in db.jobs;
      assert w == db.jobs;
    }
  }

  // ---- scheduling ----

  lemma ScheduledJobs(db: Db, fk: FactKey, start: Time, s: Scenario, now: Time)
    requires JobsReady(db.jobs, db.events) && Typed(db.events)
    ensures var e := ScheduleEvents(db, fk, start, s, now);
      JobsReady(e.jobs, e.events) && Typed(e.events)
  {
    var ts := Timers(fk, s, start);
    var es := db.events + ts;
    assert forall t | t in ts :: IsPending(t) && t.fact == fk && t.scenario == s;
    JobsReadyLonger(db.jobs, db.events, ts);
    WithJobsReady(db.jobs, es, PendingIds(es, fk, s), now);
    hide WithJobs, PendingIds;
  }

  lemma {:induction false} AddTimers(ds: seq<Discrepancy>, es: seq<SlaEvent>, ts: seq<SlaEvent>, fk: FactKey)
    requires ResponseTimers(ds, es)
    requires forall t | t in ts :: t.fact == fk
    requires forall d, t | d in ds && t in ts && Active(d) && d.gcResponseAt.Some? && d.fact == fk ::
      DatedFrom(t, d.gcResponseAt.value)
    ensures ResponseTimers(ds, es + ts)
  {
    hide DatedFrom;
  }

  // ---- createDispute ----

  /** What a successful createDispute adds. */
  lemma CreateAdds(db: Db, k: PeriodKey, item: int, reason: Option<string>, now: Time)
    requires CreateDispute(db, k, item, reason, now).Ok?
    ensures var e, fk := CreateDispute(db, k, item, reason, now).value, FactKey(k, item);
      && e.discrepancies == db.discrepancies + [Discrepancy(fk, 2, DisputeOpen, None, now)]
      && e.events == db.events + Timers(fk, A, now)
      && e.jobs == ScheduleEvents(db, fk, now, A, now).jobs
  {
    hide WithJobs, PendingIds, IsBlank, Bumped, Timers;
  }

  lemma CreateTimed(db: Db, k: PeriodKey, item: int, reason: Option<string>, now: Time)
    requires Timed(db) && Single(db, DoCreateDispute(k, item, reason))
    ensures Timed(CreateDispute(db, k, item, reason, now).Or(db))
  {
    var r, fk := CreateDispute(db, k, item, reason, now), FactKey(k, item);
    if r.Ok? {
      CreateAdds(db, k, item, reason, now);
      ScheduledJobs(db, fk, now, A, now);
      var d := Discrepancy(fk, 2, DisputeOpen, None, now);
      hide CreateDispute, WithJobs, PendingIds, IsBlank;
      assert ResponseTimers(db.discrepancies + [d], db.events);
      assert OnePerFact(db.discrepancies + [d]);
      AddTimers(db.discrepancies + [d], db.events, Timers(fk, A, now), fk);
    }
  }

  /** Opening a second dispute on a fact breaks, in that step, the dating of its timers exactly when
      the contractor has answered an open one. */
  lemma SecondDisputeBreaksIff(db: Db, k: PeriodKey, item: int, reason: Option<string>, now: Time)
    requires ResponseTimers(db.discrepancies, db.events) && CreateDispute(db, k, item, reason, now).Ok?
    ensures var e := CreateDispute(db, k, item, reason, now).value;
      ResponseTimers(e.discrepancies, e.events) <==>
        forall d | d in db.discrepancies && d.fact == FactKey(k, item) && Active(d) :: d.gcResponseAt.None?
  {
    var fk := FactKey(k, item);
    CreateAdds(db, k, item, reason, now);
    var e := CreateDispute(db, k, item, reason, now).value;
    hide CreateDispute;
    var t := Timer(fk, A, NotifyDay3, now);
    var d' := Discrepancy(fk, 2, DisputeOpen, None, now);
    assert ResponseTimers(db.discrepancies + [d'], db.events);
    assert t == Timers(fk, A, now)[0] && t in e.events && !DatedFrom(t, 0);
    if forall d | d in db.discrepancies && d.fact == fk && Active(d) :: d.gcResponseAt.None? {
      AddTimers(db.discrepancies + [d'], db.events, Timers(fk, A, now), fk);
    } else {
      var d :| d in db.discrepancies && d.fact == fk && Active(d) && d.gcResponseAt.Some?;
      assert d in e.discrepancies && IsPending(t) && !DatedFrom(t, d.gcResponseAt.value);
    }
  }

  // ---- submitGpResponse and rejectGpResponse ----

  lemma {:induction false} CancelledPending(es: seq<SlaEvent>, fk: FactKey)
    ensures var cs := CancelEvents(es, fk);
      && |cs| == |es|
      && (forall i | 0 <= i < |es| ::
        cs[i].scheduledAt == es[i].scheduledAt && (IsPending(cs[i]) <==> IsPending(es[i]) && es[i].fact != fk)
            && (IsPending(cs[i]) ==> cs[i] == es[i]))
      && (forall e | e in cs && IsPending(e) :: e in es && e.fact != fk)
      && (Typed(es) ==> Typed(cs))
  {
    var cs := CancelEvents(es, fk);
    forall e | e in cs ensures exists x | x in es :: e == Cancelled(x, fk) {
      var i :| 0 <= i < |cs| && cs[i] == e;
      assert es[i] in es;
    }
  }

  lemma {:induction false} SetResponse(ds: seq<Discrepancy>, es: seq<SlaEvent>, id: nat, now: Time)
    requires id < |ds| && ds[id].status == DisputeOpen
    requires ResponseTimers(ds, es) && OnePerFact(ds)
    ensures var q, cs := ds[id := ds[id].(gcResponseAt := Some(now))], CancelEvents(es, ds[id].fact);
      ResponseTimers(q, cs) && OnePerFact(q)
  {
    CancelledPending(es, ds[id].fact);
    hide CancelEvents, DatedFrom, Typed;
  }

  lemma RespondTimed(db: Db, id: nat, position: Option<string>, now: Time)
    requires Timed(db)
    ensures var e := SubmitGpResponse(db, id, position, now).Or(db);
      Timed(e)
  {
    hide IsBlank;
    var r := SubmitGpResponse(db, id, position, now);
    if r.Ok? {
      SetResponse(db.discrepancies, db.events, id, now);
      CancelledPending(db.events, db.discrepancies[id].fact);
      hide CancelEvents, ResponseTimers, OnePerFact, Typed, IsPending;
      assert r.value.jobs == db.jobs && r.value.events == CancelEvents(db.events, db.discrepancies[id].fact);
    }
  }

  /** No other type-2 dispute is open on the fact of an open dispute. */
  lemma OnlyOneHere(db: Db, id: nat, x: Discrepancy)
    requires OnePerFact(db.discrepancies) && Base(db) && id < |db.discrepancies|
      && db.discrepancies[id].status == DisputeOpen
    requires x in db.discrepancies && Active(x) && x.fact == db.discrepancies[id].fact
    ensures x == db.discrepancies[id]
  {
    var d := db.discrepancies[id];
    var j :| 0 <= j < |db.discrepancies| && db.discrepancies[j] == x;
    assert d in db.discrepancies;
    hide FactsOk, Numbered, PeriodsRefer;
    assert d.fact.period in db.periods
      && !IsClosed(db.periods, d.fact.period) by { hide OnePerFact; ActiveInOpenPeriod(db, x); }
    assert d.kind == 2;
  }

  lemma ActiveInOpenPeriod(db: Db, x: Discrepancy)
    requires Base(db) && x in db.discrepancies && Active(x)
    ensures x.fact.period in db.periods && !IsClosed(db.periods, x.fact.period)
  {
  }

  lemma {:induction false} AnswerTimers(ds: seq<Discrepancy>, es: seq<SlaEvent>, d: Discrepancy, start: Time)
    requires ResponseTimers(ds, es) && d.gcResponseAt == Some(start)
    requires forall x | x in ds && Active(x) && x.fact == d.fact :: x == d
    ensures ResponseTimers(ds, es + Timers(d.fact, B, start))
  {
    var ts := Timers(d.fact, B, start);
    assert forall t | t in ts :: t.fact == d.fact && DatedFrom(t, start);
    hide Timers, ResponseTimers;
    AddTimers(ds, es, ts, d.fact);
  }

  lemma RejectTimed(db: Db, id: nat, now: Time)
    requires Timed(db) && Base(db)
    ensures var e := RejectGpResponse(db, id, now).Or(db);
      Timed(e)
  {
    var r := RejectGpResponse(db, id, now);
    if r.Ok? {
      var d := db.discrepancies[id];
      var fk, start := d.fact, d.gcResponseAt.value;
      assert r.value == ScheduleEvents(db, fk, start, B, now) && d.status == DisputeOpen;
      hide RejectGpResponse, OnePerFact, Base, ResponseTimers, WithJobs, PendingIds, JobsReady, Typed, Timers;
      ScheduledJobs(db, fk, start, B, now);
      forall x | x in db.discrepancies && Active(x) && x.fact == fk ensures x == d { OnlyOneHere(db, id, x); }
      AnswerTimers(db.discrepancies, db.events, d, start);
    } else {
      hide RejectGpResponse;
    }
  }

  // ---- jobs and escalations ----

  lemma {:induction false} FewerActive(ds: seq<Discrepancy>, qs: seq<Discrepancy>, es: seq<SlaEvent>, fs: seq<SlaEvent>)
    requires ResponseTimers(ds, es) && OnePerFact(ds) && |ds| <= |qs|
    requires forall i | 0 <= i < |qs| :: Active(qs[i]) ==> i < |ds| && qs[i] == ds[i]
    requires forall e | e in fs && IsPending(e) :: e in es
    ensures ResponseTimers(qs, fs) && OnePerFact(qs)
  {
    hide DatedFrom, Forces;
    assert forall d | d in qs && Active(d) :: d in ds;
  }

  lemma JobRuns(db: Db, id: nat, pick: nat, now: Time)
    ensures var e := ProcessEvent(db, id, pick, now);
      && e.jobs == db.jobs - {id}
      && e.events == if id < |db.events| && IsPending(db.events[id])
        then db.events[id := db.events[id].(executedAt := Some(now))] else db.events
  {
    hide ForceClose, IsPending;
    if id < |db.events| { ForceCloseTouches(db.(jobs := db.jobs - {id}), db.events[id].fact, pick); }
  }

  lemma JobTables(db: Db, id: nat, pick: nat, now: Time)
    ensures var e := ProcessEvent(db, id, pick, now);
      && e.jobs == db.jobs - {id}
      && |e.events| == |db.events|
      && (forall i | 0 <= i < |e.events| :: e.events[i].scheduledAt == db.events[i].scheduledAt
            && e.events[i].scenario == db.events[i].scenario && e.events[i].eventType == db.events[i].eventType
            && (IsPending(e.events[i]) <==> i != id && IsPending(db.events[i]))
              && (i != id ==> e.events[i] == db.events[i]))
  {
    JobRuns(db, id, pick, now);
    hide ProcessEvent;
  }

  lemma JobDisputes(db: Db, id: nat, pick: nat, now: Time)
    ensures var ds := ProcessEvent(db, id, pick, now).discrepancies;
      |ds| == |db.discrepancies| && forall i | 0 <= i < |ds| :: Active(ds[i]) ==> ds[i] == db.discrepancies[i]
  {
    JobEffect(db, id, pick, now);
    hide ProcessEvent;
  }

  lemma {:induction false} TypedAfter(es: seq<SlaEvent>, fs: seq<SlaEvent>)
    requires Typed(es) && |es| == |fs|
    requires forall i | 0 <= i < |es| :: fs[i].scenario == es[i].scenario && fs[i].eventType == es[i].eventType
    ensures Typed(fs)
  {
    forall x | x in fs ensures if x.scenario == A then x.eventType == NotifyDay3 || x.eventType == ForceCloseDay5
      else x.eventType != ForceCloseDay5 {
      var i :| 0 <= i < |fs| && fs[i] == x;
      assert es[i] in es;
    }
  }

  lemma JobTimed(db: Db, id: nat, pick: nat, now: Time)
    requires Timed(db)
    ensures var e := ProcessEvent(db, id, pick, now);
      Timed(e)
  {
    JobTables(db, id, pick, now);
    JobDisputes(db, id, pick, now);
    var e := ProcessEvent(db, id, pick, now);
    hide ProcessEvent, IsPending, ResponseTimers, OnePerFact;
    TypedAfter(db.events, e.events);
    hide Typed;
    assert forall x | x in e.events && IsPending(x) :: x in db.events;
    FewerActive(db.discrepancies, e.discrepancies, db.events, e.events);
  }

  lemma EscalateTimed(db: Db, op: Op, now: Time)
    requires Timed(db) && IsEntryOp(op)
    ensures var e := ApplyEntry(db, op, now);
      Timed(e)
  {
    EntryTouches(db, op, now);
    EntryDisputes(db, op, now);
    var e := ApplyEntry(db, op, now);
    assert e.events == db.events && e.jobs == db.jobs;
    hide ApplyEntry, Touches;
    FewerActive(db.discrepancies, e.discrepancies, db.events, e.events);
  }

  lemma EntryDisputes(db: Db, op: Op, now: Time)
    requires IsEntryOp(op)
    ensures var ds := ApplyEntry(db, op, now).discrepancies;
      |db.discrepancies| <= |ds| && forall i | 0 <= i < |ds| ::
          Active(ds[i]) ==> i < |db.discrepancies| && ds[i] == db.discrepancies[i]
  {
    EntryStep(db, op, now);
    EffectEnters(db, op, now);
    var x := EffectOf(db, op, now);
    hide ApplyEntry, EffectOf;
    if x.Entered? {
      assert WithEffect(db, x, now).discrepancies == db.discrepancies;
      hide WithEffect;
    }
    hide UpsertError;
  }

  lemma RecoverTimed(db: Db, now: Time)
    requires Timed(db)
    ensures Timed(RecoverPending(db, now))
  {
    hide ResponseTimers, OnePerFact, Typed, WithJobs;
    RecoveryRestoresJobs(db, now);
  }

  lemma UntouchedTimed(db: Db, op: Op, now: Time)
    requires Timed(db) && !IsEntryOp(op) && !IsDisputeOp(op)
    ensures var e := Apply(db, op, now); Timed(e) && e.discrepancies == db.discrepancies && e.events == db.events
  {
    Footprint(db, op, now);
    hide Apply, ResponseTimers, OnePerFact, Typed, JobsReady;
  }

  // ---- steps and runs ----

  lemma TimedStep(db: Db, op: Op, now: Time)
    requires Timed(db) && Base(db) && Single(db, op)
    ensures Timed(Apply(db, op, now))
  {
    hide Timed, Base, Single;
    if IsEntryOp(op) { EscalateTimed(db, op, now); hide ApplyEntry; }
    else {
      match op
      case DoCreateDispute(k, item, reason) => CreateTimed(db, k, item, reason, now); hide CreateDispute;
      case DoRespond(id, position) => RespondTimed(db, id, position, now); hide SubmitGpResponse;
      case DoReject(id) => RejectTimed(db, id, now); hide RejectGpResponse;
      case DoRunJob(id, pick) => JobTimed(db, id, pick, now); hide ProcessEvent;
      case DoRecover => RecoverTimed(db, now); hide WithJobs;
      case DoLoseJobs(lost) => LoseTimed(db, lost);
      case _ => UntouchedTimed(db, op, now); hide Apply;
    }
  }

  lemma LoseTimed(db: Db, lost: set<nat>)
    requires Timed(db)
    ensures Timed(db.(jobs := db.jobs - lost))
  {
    hide ResponseTimers, OnePerFact, Typed;
  }

  ghost predicate SingleRun(db: Db, steps: seq<Step>)
    decreases |steps|
  {
    steps == [] || (Single(db, steps[0].op) && SingleRun(Apply(db, steps[0].op, steps[0].now), steps[1..]))
  }

  lemma {:induction false} TimedRun(db: Db, steps: seq<Step>)
    requires Timed(db) && Base(db) && SingleRun(db, steps)
    ensures Timed(Run(db, steps))
    decreases |steps|
  {
    hide Apply, Timed, Base, Single;
    if steps != [] {
      TimedStep(db, steps[0].op, steps[0].now);
      BaseStep(db, steps[0].op, steps[0].now);
      TimedRun(Apply(db, steps[0].op, steps[0].now), steps[1..]);
    }
  }

  lemma ForcedInTime(db: Db, clock: Time, s: Step)
    requires Timed(db) && Allowed(db, clock, s) && s.op.DoRunJob? && JobForces(db, s.op.id, s.op.pick)
    ensures var d := db.discrepancies[s.op.pick];
      d.kind == 2 && d.gcResponseAt.Some? ==> s.now >= d.gcResponseAt.value + 14 * DAY
  {
    var d, e := db.discrepancies[s.op.pick], db.events[s.op.id];
    assert d in db.discrepancies && e in db.events;
    hide JobsReady;
    assert s.now >= e.scheduledAt by {
      hide ResponseTimers, OnePerFact, Typed;
      JobReady(db, s.op.id);
    }
  }

  lemma JobReady(db: Db, id: nat)
    requires JobsReady(db.jobs, db.events) && id in db.jobs
    ensures id < |db.events| && db.jobs[id] >= db.events[id].scheduledAt
  {
  }

  /** On every run with one open dispute per fact: once the contractor has answered, every
      pending timer of the fact is of scenario B and dated from the answer, so a job that is
      allowed to run forces no SC figure before 14 days after the answer have passed. */
  lemma AnsweredDisputeHasFourteenDays(sites: map<int, Site>, clock: Time, steps: seq<Step>, s: Step)
    requires SingleRun(EmptyDb(sites), steps)
    requires var db := Run(EmptyDb(sites), steps);
      Allowed(db, clock, s) && s.op.DoRunJob? && JobForces(db, s.op.id, s.op.pick)
    ensures var d := Run(EmptyDb(sites), steps).discrepancies[s.op.pick];
      d.kind == 2 && d.gcResponseAt.Some? ==> s.now >= d.gcResponseAt.value + 14 * DAY
    ensures var db := Run(EmptyDb(sites), steps); ResponseTimers(db.discrepancies, db.events)
  {
    EmptyBase(sites);
    TimedRun(EmptyDb(sites), steps);
    var db := Run(EmptyDb(sites), steps);
    hide Run, SingleRun, Base, JobForces, Allowed;
    ForcedInTime(db, clock, s);
  }
}

/** The two time limits of a dispute, and exactly which steps of a run make them fail. */
module DisputeDeadlines {
  import opened Common
  import opened Store
  import opened PeriodSpec
  import opened DisputeSpec
  import opened Runs
  import opened Lifecycle
  import opened DisputeTimers

  /** No SC figure within 14 days after the contractor's answer, or within five days after an
      unanswered dispute was opened. */
  datatype Promise = FourteenDays | FiveDays

  /** The moment before which the promise forbids to force the dispute. */
  function Deadline(r: Promise, d: Discrepancy): Option<Time> {
    if d.status != DisputeOpen then None
    else
      match r
      case FourteenDays => if d.gcResponseAt.Some? then Some(d.gcResponseAt.value + 14 * DAY) else None
      case FiveDays => if d.kind == 2 && d.gcResponseAt.None? then Some(d.createdAt + 5 * DAY) else None
  }

  predicate Pending(e: SlaEvent, fk: FactKey) { IsPending(e) && Forces(e.eventType) && e.fact == fk }

  predicate EndsAfter(r: Promise, d: Discrepancy, fk: FactKey, t: Time) {
    d.fact == fk && Deadline(r, d).Some? && t < Deadline(r, d).value
  }

  // ---- the steps that break a promise ----

  /** Opening a dispute breaks a promise when its day-5 timer comes before a deadline on the fact,
      or, for the new dispute itself, when a forcing timer of an earlier one is left. */
  ghost predicate OpeningBreaks(r: Promise, db: Db, fk: FactKey, now: Time) {
    || (exists d | d in db.discrepancies :: EndsAfter(r, d, fk, now + 5 * DAY))
    || (r == FiveDays && exists e | e in db.events :: Pending(e, fk) && e.scheduledAt < now + 5 * DAY)
  }

  /** Rejecting an answer of the moment t breaks a promise when a deadline on the same fact is
      still to come, and later than 14 days after t. */
  ghost predicate RejectingBreaks(r: Promise, db: Db, fk: FactKey, t: Time, now: Time) {
    exists d | d in db.discrepancies :: EndsAfter(r, d, fk, t + 14 * DAY) && EndsAfter(r, d, fk, now)
  }

  ghost predicate Careless(r: Promise, db: Db, s: Step) {
    match s.op
    case DoCreateDispute(k, item, reason) =>
      CreateDispute(db, k, item, reason, s.now).Ok? && OpeningBreaks(r, db, FactKey(k, item), s.now)
    case DoReject(id) =>
      RejectGpResponse(db, id, s.now).Ok?
      && RejectingBreaks(r, db, db.discrepancies[id].fact, db.discrepancies[id].gcResponseAt.value, s.now)
    case _ => false
  }

  ghost predicate CarefulRun(r: Promise, db: Db, steps: seq<Step>)
    decreases |steps|
  {
    steps == [] || (!Careless(r, db, steps[0]) && CarefulRun(r, Apply(db, steps[0].op, steps[0].now), steps[1..]))
  }

  // ---- what a broken promise is ----

  /** The step is a job that forces a dispute before its time. */
  predicate Early(r: Promise, db: Db, s: Step) {
    && s.op.DoRunJob? && JobForces(db, s.op.id, s.op.pick)
    && var limit := Deadline(r, db.discrepancies[s.op.pick]); limit.Some? && s.now < limit.value
  }

  /** An allowed run in which only the worker and its recovery act, and a step after it. */
  ghost predicate WorkerRun(db: Db, clock: Time, more: seq<Step>, s: Step) {
    (forall m | m in more :: m.op.DoRunJob? || m.op.DoRecover?) && AllowedRun(db, clock, more + [s])
  }

  ghost predicate NeverEarly(r: Promise, db: Db, clock: Time) {
    forall more, s :: WorkerRun(db, clock, more, s) ==> !Early(r, Run(db, more), s)
  }

  /** In every state of the run the worker can force no dispute before its time. */
  ghost predicate PromiseKept(r: Promise, db: Db, clock: Time, steps: seq<Step>)
    decreases |steps|
  {
    && NeverEarly(r, db, clock)
    && (steps == [] || PromiseKept(r, Apply(db, steps[0].op, steps[0].now), steps[0].now, steps[1..]))
  }

  // ---- the invariant ----

  /** A pending forcing timer comes before a deadline that is still to come. */
  predicate Threatens(r: Promise, d: Discrepancy, e: SlaEvent, clock: Time) {
    Pending(e, d.fact) && EndsAfter(r, d, d.fact, e.scheduledAt) && EndsAfter(r, d, d.fact, clock)
  }

  ghost predicate NoThreat(r: Promise, ds: seq<Discrepancy>, es: seq<SlaEvent>, clock: Time) {
    forall d, e | d in ds && e in es :: !Threatens(r, d, e, clock)
  }

  /** A queued job is ready no earlier than its event is scheduled, and then or at once. */
  ghost predicate JobsOk(jobs: map<nat, Time>, es: seq<SlaEvent>, clock: Time) {
    forall i | i in jobs ::
      i < |es| && es[i].scheduledAt <= jobs[i] && (jobs[i] <= clock || jobs[i] == es[i].scheduledAt)
  }

  lemma {:induction false} Fewer(r: Promise, ds: seq<Discrepancy>, qs: seq<Discrepancy>, es: seq<SlaEvent>,
      fs: seq<SlaEvent>, clock: Time, now: Time)
    requires NoThreat(r, ds, es, clock) && clock <= now
    requires forall q | q in qs && Deadline(r, q).Some? :: q in ds
    requires forall f | f in fs && IsPending(f) :: f in es
    ensures NoThreat(r, qs, fs, now)
  {
    hide Deadline, IsPending;
  }

  lemma CreateKeeps(r: Promise, db: Db, clock: Time, k: PeriodKey, item: int, reason: Option<string>, now: Time)
    requires NoThreat(r, db.discrepancies, db.events, clock) && clock <= now
    requires CreateDispute(db, k, item, reason, now).Ok? && !OpeningBreaks(r, db, FactKey(k, item), now)
    ensures var e := CreateDispute(db, k, item, reason, now).value; NoThreat(r, e.discrepancies, e.events, now)
  {
    var fk, ds, es := FactKey(k, item), db.discrepancies, db.events;
    CreateAdds(db, k, item, reason, now);
    var e := CreateDispute(db, k, item, reason, now).value;
    hide CreateDispute;
    var d0, ts := Discrepancy(fk, 2, DisputeOpen, None, now), Timers(fk, A, now);
    Fewer(r, ds, ds, es, es, clock, now);
    forall d, x | d in e.discrepancies && x in e.events ensures !Threatens(r, d, x, now) {
      if d in ds && x in es { assert !Threatens(r, d, x, now); }
      else if x in es { assert d == d0; assert !Pending(x, fk) || r != FiveDays || x.scheduledAt >= now + 5 * DAY; }
      else {
        assert x in ts && x.fact == fk && (Forces(x.eventType) ==> x.scheduledAt == now + 5 * DAY);
        if d in ds { assert !EndsAfter(r, d, fk, now + 5 * DAY); } else { assert d == d0; }
      }
    }
  }

  lemma RejectKeeps(r: Promise, db: Db, clock: Time, id: nat, now: Time)
    requires NoThreat(r, db.discrepancies, db.events, clock) && clock <= now
    requires RejectGpResponse(db, id, now).Ok?
    requires !RejectingBreaks(r, db, db.discrepancies[id].fact, db.discrepancies[id].gcResponseAt.value, now)
    ensures var e := RejectGpResponse(db, id, now).value; NoThreat(r, e.discrepancies, e.events, now)
  {
    var ds, es, d0 := db.discrepancies, db.events, db.discrepancies[id];
    var fk, t := d0.fact, d0.gcResponseAt.value;
    var ts := Timers(fk, B, t);
    var e := RejectGpResponse(db, id, now).value;
    assert e.events == es + ts && e.discrepancies == ds by { hide WithJobs, Timers, PendingIds; }
    hide RejectGpResponse;
    Fewer(r, ds, ds, es, es, clock, now);
    forall d, x | d in e.discrepancies && x in e.events ensures !Threatens(r, d, x, now) {
      if x in es { assert !Threatens(r, d, x, now); }
      else {
        assert x in ts && x.fact == fk && (Forces(x.eventType) ==> x.scheduledAt == t + 14 * DAY);
        assert !(EndsAfter(r, d, fk, t + 14 * DAY) && EndsAfter(r, d, fk, now));
      }
    }
  }

  lemma RespondKeeps(r: Promise, db: Db, clock: Time, id: nat, position: Option<string>, now: Time)
    requires NoThreat(r, db.discrepancies, db.events, clock) && clock <= now
    ensures var e := SubmitGpResponse(db, id, position, now).Or(db); NoThreat(r, e.discrepancies, e.events, now)
  {
    hide IsBlank;
    var ds, es := db.discrepancies, db.events;
    var o := SubmitGpResponse(db, id, position, now);
    Fewer(r, ds, ds, es, es, clock, now);
    if o.Ok? {
      var fk := ds[id].fact;
      CancelledPending(es, fk);
      var e := o.value;
      assert e.discrepancies == ds[id := ds[id].(gcResponseAt := Some(now))] && e.events == CancelEvents(es, fk);
      hide SubmitGpResponse, CancelEvents, IsPending;
      forall d, x | d in e.discrepancies && x in e.events ensures !Threatens(r, d, x, now) {
        if IsPending(x) {
          assert x in es && x.fact != fk;
          assert d in ds || d.fact == fk;
          if d in ds { assert !Threatens(r, d, x, now); }
        }
      }
    } else {
      hide SubmitGpResponse;
    }
  }

  /** A job opens no dispute and answers none. */
  lemma JobOpens(r: Promise, db: Db, id: nat, pick: nat, now: Time)
    ensures forall q | q in ProcessEvent(db, id, pick, now).discrepancies && Deadline(r, q).Some? ::
      q in db.discrepancies
  {
    JobEffect(db, id, pick, now);
    var e := ProcessEvent(db, id, pick, now);
    hide ProcessEvent;
    if JobForces(db, id, pick) {
      forall q | q in e.discrepancies && Deadline(r, q).Some? ensures q in db.discrepancies {
        var i :| 0 <= i < |e.discrepancies| && e.discrepancies[i] == q;
        assert q == db.discrepancies[i] || q.status == ForcedScFigure;
      }
    }
  }

  lemma JobKeeps(r: Promise, db: Db, clock: Time, id: nat, pick: nat, now: Time)
    requires NoThreat(r, db.discrepancies, db.events, clock) && clock <= now
    ensures var e := ProcessEvent(db, id, pick, now); NoThreat(r, e.discrepancies, e.events, now)
  {
    JobRuns(db, id, pick, now);
    JobOpens(r, db, id, pick, now);
    var e := ProcessEvent(db, id, pick, now);
    hide ProcessEvent, NoThreat, Deadline;
    assert forall f | f in e.events && IsPending(f) :: f in db.events;
    Fewer(r, db.discrepancies, e.discrepancies, db.events, e.events, clock, now);
  }

  lemma EntryKeeps(r: Promise, db: Db, clock: Time, op: Op, now: Time)
    requires NoThreat(r, db.discrepancies, db.events, clock) && clock <= now && IsEntryOp(op)
    ensures var e := ApplyEntry(db, op, now); NoThreat(r, e.discrepancies, e.events, now)
  {
    EntryTouches(db, op, now);
    EntryOpens(r, db, op, now);
    var e := ApplyEntry(db, op, now);
    assert e.events == db.events;
    hide ApplyEntry, Touches, NoThreat;
    Fewer(r, db.discrepancies, e.discrepancies, db.events, e.events, clock, now);
  }

  /** An escalation opens a dispute without a deadline. */
  lemma EntryOpens(r: Promise, db: Db, op: Op, now: Time)
    requires IsEntryOp(op)
    ensures forall q | q in ApplyEntry(db, op, now).discrepancies && Deadline(r, q).Some? :: q in db.discrepancies
  {
    EntryStep(db, op, now);
    EffectEnters(db, op, now);
    var x := EffectOf(db, op, now);
    hide ApplyEntry, EffectOf;
    if x.Entered? {
      assert WithEffect(db, x, now).discrepancies == db.discrepancies;
      hide WithEffect;
    }
    hide UpsertError;
  }

  lemma OtherKeeps(r: Promise, db: Db, clock: Time, op: Op, now: Time)
    requires NoThreat(r, db.discrepancies, db.events, clock) && clock <= now
    requires !IsEntryOp(op) && !op.DoCreateDispute? && !op.DoRespond? && !op.DoReject? && !op.DoRunJob?
    ensures var e := Apply(db, op, now); NoThreat(r, e.discrepancies, e.events, now)
  {
    Footprint(db, op, now);
    hide Apply, NoThreat;
    Fewer(r, db.discrepancies, db.discrepancies, db.events, db.events, clock, now);
  }

  /** A careful step lets no timer threaten a deadline. */
  lemma CarefulStep(r: Promise, db: Db, clock: Time, s: Step)
    requires NoThreat(r, db.discrepancies, db.events, clock) && clock <= s.now && !Careless(r, db, s)
    ensures var e := Apply(db, s.op, s.now); NoThreat(r, e.discrepancies, e.events, s.now)
  {
    if IsEntryOp(s.op) { EntryKeeps(r, db, clock, s.op, s.now); hide NoThreat, ApplyEntry; }
    else {
      match s.op
      case DoCreateDispute(k, item, reason) =>
        if CreateDispute(db, k, item, reason, s.now).Ok? { CreateKeeps(r, db, clock, k, item, reason, s.now); }
        else { Fewer(r, db.discrepancies, db.discrepancies, db.events, db.events, clock, s.now); }
        hide NoThreat, CreateDispute, OpeningBreaks;
      case DoReject(id) =>
        if RejectGpResponse(db, id, s.now).Ok? { RejectKeeps(r, db, clock, id, s.now); }
        else { Fewer(r, db.discrepancies, db.discrepancies, db.events, db.events, clock, s.now); }
        hide NoThreat, RejectGpResponse, RejectingBreaks;
      case DoRespond(id, position) => RespondKeeps(r, db, clock, id, position, s.now); hide NoThreat, SubmitGpResponse;
      case DoRunJob(id, pick) => JobKeeps(r, db, clock, id, pick, s.now); hide NoThreat, ProcessEvent;
      case _ => OtherKeeps(r, db, clock, s.op, s.now); hide NoThreat, Apply;
    }
  }

  // ---- jobs ----

  lemma {:induction false} QueueOk(jobs: map<nat, Time>, es: seq<SlaEvent>, more: seq<SlaEvent>, wanted: set<nat>,
      clock: Time, now: Time)
    requires JobsOk(jobs, es, clock) && clock <= now
    ensures JobsOk(WithJobs(jobs, es + more, wanted, now), es + more, now)
  {
  }

  lemma JobsStep(db: Db, clock: Time, op: Op, now: Time)
    requires JobsOk(db.jobs, db.events, clock) && clock <= now
    ensures var e := Apply(db, op, now); JobsOk(e.jobs, e.events, now)
  {
    hide JobsOk;
    match op
    case DoCreateDispute(k, item, reason) => CreateJobs(db, clock, k, item, reason, now); hide CreateDispute;
    case DoReject(id) => RejectJobs(db, clock, id, now); hide RejectGpResponse;
    case DoRespond(id, position) => RespondJobs(db, clock, id, position, now); hide SubmitGpResponse;
    case DoRunJob(id, pick) => RunJobJobs(db, clock, id, pick, now); hide ProcessEvent;
    case DoRecover => RecoverJobs(db, clock, now); hide WithJobs;
    case DoLoseJobs(lost) => LoseJobs(db, clock, lost, now);
    case _ => SameJobs(db, clock, op, now); hide Apply;
  }

  lemma CreateJobs(db: Db, clock: Time, k: PeriodKey, item: int, reason: Option<string>, now: Time)
    requires JobsOk(db.jobs, db.events, clock) && clock <= now
    ensures var e := CreateDispute(db, k, item, reason, now).Or(db); JobsOk(e.jobs, e.events, now)
  {
    if CreateDispute(db, k, item, reason, now).Ok? {
      CreateAdds(db, k, item, reason, now);
      var ts := Timers(FactKey(k, item), A, now);
      QueueOk(db.jobs, db.events, ts, PendingIds(db.events + ts, FactKey(k, item), A), clock, now);
    }
    hide CreateDispute, WithJobs, Timers, PendingIds;
  }

  lemma RunJobJobs(db: Db, clock: Time, id: nat, pick: nat, now: Time)
    requires JobsOk(db.jobs, db.events, clock) && clock <= now
    ensures var e := ProcessEvent(db, id, pick, now); JobsOk(e.jobs, e.events, now)
  {
    JobRuns(db, id, pick, now);
    hide ProcessEvent;
  }

  lemma RecoverJobs(db: Db, clock: Time, now: Time)
    requires JobsOk(db.jobs, db.events, clock) && clock <= now
    ensures var e := RecoverPending(db, now); JobsOk(e.jobs, e.events, now)
  {
    assert db.events + [] == db.events;
    QueueOk(db.jobs, db.events, [], AllPendingIds(db.events), clock, now);
    hide WithJobs, AllPendingIds;
  }

  lemma LoseJobs(db: Db, clock: Time, lost: set<nat>, now: Time)
    requires JobsOk(db.jobs, db.events, clock) && clock <= now
    ensures JobsOk(db.jobs - lost, db.events, now)
  {
  }

  lemma RejectJobs(db: Db, clock: Time, id: nat, now: Time)
    requires JobsOk(db.jobs, db.events, clock) && clock <= now
    ensures var e := RejectGpResponse(db, id, now).Or(db); JobsOk(e.jobs, e.events, now)
  {
    if RejectGpResponse(db, id, now).Ok? {
      var d := db.discrepancies[id];
      var ts := Timers(d.fact, B, d.gcResponseAt.value);
      QueueOk(db.jobs, db.events, ts, PendingIds(db.events + ts, d.fact, B), clock, now);
      hide WithJobs, Timers, PendingIds, JobsOk;
    } else {
      hide RejectGpResponse;
    }
  }

  lemma RespondJobs(db: Db, clock: Time, id: nat, position: Option<string>, now: Time)
    requires JobsOk(db.jobs, db.events, clock) && clock <= now
    ensures var e := SubmitGpResponse(db, id, position, now).Or(db); JobsOk(e.jobs, e.events, now)
  {
    hide IsBlank;
    if id < |db.discrepancies| { CancelledPending(db.events, db.discrepancies[id].fact); }
    hide CancelEvents, IsPending, Typed;
  }

  lemma SameJobs(db: Db, clock: Time, op: Op, now: Time)
    requires JobsOk(db.jobs, db.events, clock) && clock <= now
    requires !op.DoCreateDispute? && !op.DoRespond? && !op.DoReject? && !op.DoRunJob? && !op.DoRecover?
      && !op.DoLoseJobs?
    ensures var e := Apply(db, op, now); JobsOk(e.jobs, e.events, now)
  {
    Footprint(db, op, now);
    hide Apply;
  }

  lemma {:induction false} JobsRun(db: Db, clock: Time, steps: seq<Step>)
    requires JobsOk(db.jobs, db.events, clock) && AllowedRun(db, clock, steps)
    ensures var e := Run(db, steps); JobsOk(e.jobs, e.events, LastClock(clock, steps))
    decreases |steps|
  {
    hide Apply, JobsOk;
    if steps != [] {
      JobsStep(db, clock, steps[0].op, steps[0].now);
      JobsRun(Apply(db, steps[0].op, steps[0].now), steps[0].now, steps[1..]);
    }
  }

  /** In every run, jobs lost on the way included, a recovery step queues every pending event
      again, none before it is due. */
  lemma RecoveryInARun(sites: map<int, Site>, clock: Time, steps: seq<Step>, now: Time)
    requires AllowedRun(EmptyDb(sites), clock, steps)
    ensures var db := Run(EmptyDb(sites), steps);
      var e := RecoverPending(db, now);
      PendingQueued(e.jobs, e.events) && JobsReady(e.jobs, e.events)
  {
    JobsRun(EmptyDb(sites), clock, steps);
    var db := Run(EmptyDb(sites), steps);
    hide Run, AllowedRun;
    RecoveryRestoresJobs(db, now);
    hide WithJobs;
  }

  // ---- careful runs keep the promise ----

  lemma ForcedAfterDeadline(r: Promise, db: Db, clock: Time, s: Step)
    requires NoThreat(r, db.discrepancies, db.events, clock) && JobsOk(db.jobs, db.events, clock)
    requires Allowed(db, clock, s) && s.op.DoRunJob? && JobForces(db, s.op.id, s.op.pick)
    ensures var limit := Deadline(r, db.discrepancies[s.op.pick]); limit.Some? ==> s.now >= limit.value
  {
    var d, e := db.discrepancies[s.op.pick], db.events[s.op.id];
    assert d in db.discrepancies && e in db.events;
    assert !Threatens(r, d, e, clock);
    JobDue(db, clock, s);
    hide NoThreat, JobsOk;
  }

  lemma NotEarly(r: Promise, db: Db, clock: Time, s: Step)
    requires NoThreat(r, db.discrepancies, db.events, clock) && JobsOk(db.jobs, db.events, clock)
      && Allowed(db, clock, s)
    ensures !Early(r, db, s)
  {
    hide NoThreat, JobsOk, Allowed, JobForces;
    if s.op.DoRunJob? && JobForces(db, s.op.id, s.op.pick) { ForcedAfterDeadline(r, db, clock, s); }
  }

  lemma JobDue(db: Db, clock: Time, s: Step)
    requires JobsOk(db.jobs, db.events, clock) && Allowed(db, clock, s) && s.op.DoRunJob?
    ensures s.op.id < |db.events| && db.events[s.op.id].scheduledAt <= s.now
  {
  }

  lemma {:induction false} WorkerKeeps(r: Promise, db: Db, clock: Time, more: seq<Step>)
    requires NoThreat(r, db.discrepancies, db.events, clock) && JobsOk(db.jobs, db.events, clock)
    requires AllowedRun(db, clock, more) && forall m | m in more :: m.op.DoRunJob? || m.op.DoRecover?
    ensures var e, last := Run(db, more), LastClock(clock, more);
      NoThreat(r, e.discrepancies, e.events, last) && JobsOk(e.jobs, e.events, last)
    decreases |more|
  {
    hide Apply, NoThreat, JobsOk;
    if more != [] {
      assert more[0] in more && forall m | m in more[1..] :: m in more;
      CarefulStep(r, db, clock, more[0]);
      JobsStep(db, clock, more[0].op, more[0].now);
      WorkerKeeps(r, Apply(db, more[0].op, more[0].now), more[0].now, more[1..]);
    }
  }

  lemma NoThreatNeverEarly(r: Promise, db: Db, clock: Time)
    requires NoThreat(r, db.discrepancies, db.events, clock) && JobsOk(db.jobs, db.events, clock)
    ensures NeverEarly(r, db, clock)
  {
    hide NoThreat, JobsOk, Early, Run, Apply;
    forall more, s | WorkerRun(db, clock, more, s) ensures !Early(r, Run(db, more), s) {
      RunSplit(db, clock, more, [s]);
      WorkerKeeps(r, db, clock, more);
      assert [s][0] == s;
      NotEarly(r, Run(db, more), LastClock(clock, more), s);
    }
  }

  // ---- a careless step breaks it ----

  /** A timer in the queue may strike when it is ready. */
  lemma TimerStrikes(r: Promise, db: Db, clock: Time, p: nat, i: nat, t: Time)
    requires p < |db.discrepancies| && i < |db.events| && Threatens(r, db.discrepancies[p], db.events[i], clock)
    requires i in db.jobs && db.jobs[i] <= t && clock <= t
      && EndsAfter(r, db.discrepancies[p], db.discrepancies[p].fact, t)
    ensures Allowed(db, clock, Step(DoRunJob(i, p), t)) && Early(r, db, Step(DoRunJob(i, p), t))
  {
    assert IsOpenOn(db.discrepancies, p, db.events[i].fact);
  }

  /** A threat can strike: after a recovery the worker may run the timer before the deadline. */
  lemma ThreatStrikes(r: Promise, db: Db, clock: Time, p: nat, i: nat)
    requires JobsOk(db.jobs, db.events, clock) && p < |db.discrepancies| && i < |db.events|
    requires Threatens(r, db.discrepancies[p], db.events[i], clock)
    ensures !NeverEarly(r, db, clock)
  {
    var e := db.events[i];
    var first := Step(DoRecover, clock);
    var s := Step(DoRunJob(i, p), if clock < e.scheduledAt then e.scheduledAt else clock);
    var after := Apply(db, DoRecover, clock);
    RecoveredJob(db, clock, i);
    assert after == RecoverPending(db, clock) by { hide RecoverPending; }
    hide RecoverPending, Apply, JobsOk;
    assert EndsAfter(r, db.discrepancies[p], db.discrepancies[p].fact, s.now);
    hide Deadline;
    TimerStrikes(r, after, clock, p, i, s.now);
    assert Allowed(db, clock, first);
    hide Allowed, Early, Threatens, EndsAfter;
    TwoAllowed(db, clock, first, s);
    RunOne(db, first);
    StrikeSeen(r, db, clock, first, s);
  }

  lemma StrikeSeen(r: Promise, db: Db, clock: Time, first: Step, s: Step)
    requires first.op.DoRecover? && AllowedRun(db, clock, [first] + [s]) && Early(r, Run(db, [first]), s)
    ensures !NeverEarly(r, db, clock)
  {
    hide Run, AllowedRun, Early;
    assert WorkerRun(db, clock, [first], s);
  }

  lemma TwoAllowed(db: Db, clock: Time, first: Step, s: Step)
    requires Allowed(db, clock, first) && Allowed(Apply(db, first.op, first.now), first.now, s)
    ensures AllowedRun(db, clock, [first] + [s])
  {
    hide Apply, Allowed;
    var d := Apply(db, first.op, first.now);
    assert ([first] + [s])[1..] == [s] && [s][1..] == [];
    assert AllowedRun(Apply(d, s.op, s.now), s.now, []);
    assert AllowedRun(d, first.now, [s]);
  }

  lemma RecoveredJob(db: Db, clock: Time, i: nat)
    requires JobsOk(db.jobs, db.events, clock) && i < |db.events| && IsPending(db.events[i])
    ensures var e := RecoverPending(db, clock);
      && e == db.(jobs := e.jobs) && i in e.jobs
      && (e.jobs[i] <= clock || e.jobs[i] == db.events[i].scheduledAt)
  {
    RecoveryRestoresJobs(db, clock);
    JobsStep(db, clock, DoRecover, clock);
    hide WithJobs, AllPendingIds;
  }

  lemma OpeningThreatens(r: Promise, db: Db, k: PeriodKey, item: int, reason: Option<string>, now: Time)
      returns (p: nat, i: nat)
    requires CreateDispute(db, k, item, reason, now).Ok? && OpeningBreaks(r, db, FactKey(k, item), now)
    ensures var e := CreateDispute(db, k, item, reason, now).value;
      p < |e.discrepancies| && i < |e.events| && Threatens(r, e.discrepancies[p], e.events[i], now)
  {
    var fk, ds, es := FactKey(k, item), db.discrepancies, db.events;
    CreateAdds(db, k, item, reason, now);
    var e := CreateDispute(db, k, item, reason, now).value;
    hide CreateDispute;
    if exists d | d in ds :: EndsAfter(r, d, fk, now + 5 * DAY) {
      var d :| d in ds && EndsAfter(r, d, fk, now + 5 * DAY);
      p :| p < |ds| && ds[p] == d;
      i := |es| + 1;
      assert e.events[i] == Timer(fk, A, ForceCloseDay5, now) && e.discrepancies[p] == d;
    } else {
      var x :| x in es && Pending(x, fk) && x.scheduledAt < now + 5 * DAY;
      p := |ds|;
      i :| i < |es| && es[i] == x;
      assert e.events[i] == x && e.discrepancies[p] == Discrepancy(fk, 2, DisputeOpen, None, now);
    }
  }

  lemma RejectingThreatens(r: Promise, db: Db, id: nat, now: Time) returns (p: nat, i: nat)
    requires RejectGpResponse(db, id, now).Ok?
    requires RejectingBreaks(r, db, db.discrepancies[id].fact, db.discrepancies[id].gcResponseAt.value, now)
    ensures var e := RejectGpResponse(db, id, now).value;
      p < |e.discrepancies| && i < |e.events| && Threatens(r, e.discrepancies[p], e.events[i], now)
  {
    var ds, es := db.discrepancies, db.events;
    var fk, t := ds[id].fact, ds[id].gcResponseAt.value;
    var e := RejectGpResponse(db, id, now).value;
    assert e.events == es + Timers(fk, B, t) && e.discrepancies == ds by { hide WithJobs, PendingIds, Timers; }
    hide RejectGpResponse;
    var d :| d in ds && EndsAfter(r, d, fk, t + 14 * DAY) && EndsAfter(r, d, fk, now);
    p :| p < |ds| && ds[p] == d;
    i := |es| + 2;
    assert e.events[i] == Timer(fk, B, ScFigureDay14, t);
  }

  lemma CarelessBreaks(r: Promise, db: Db, clock: Time, s: Step)
    requires JobsOk(db.jobs, db.events, clock) && clock <= s.now && Careless(r, db, s)
    ensures !NeverEarly(r, Apply(db, s.op, s.now), s.now)
  {
    JobsStep(db, clock, s.op, s.now);
    var e := Apply(db, s.op, s.now);
    var p, i;
    match s.op
    case DoCreateDispute(k, item, reason) =>
      p, i := OpeningThreatens(r, db, k, item, reason, s.now);
      assert e == CreateDispute(db, k, item, reason, s.now).value by { hide CreateDispute, OpeningBreaks; }
      hide Apply, CreateDispute, JobsOk, Threatens, NeverEarly, OpeningBreaks;
      ThreatStrikes(r, e, s.now, p, i);
    case DoReject(id) =>
      p, i := RejectingThreatens(r, db, id, s.now);
      assert e == RejectGpResponse(db, id, s.now).value by { hide RejectGpResponse, RejectingBreaks; }
      hide Apply, RejectGpResponse, JobsOk, Threatens, NeverEarly, RejectingBreaks;
      ThreatStrikes(r, e, s.now, p, i);
  }

  // ---- exactly the careful runs keep the promise ----

  lemma {:induction false} KeptIffCareful(r: Promise, db: Db, clock: Time, steps: seq<Step>)
    requires NoThreat(r, db.discrepancies, db.events, clock) && JobsOk(db.jobs, db.events, clock)
    requires AllowedRun(db, clock, steps)
    ensures PromiseKept(r, db, clock, steps) <==> CarefulRun(r, db, steps)
    decreases |steps|
  {
    hide Apply, NoThreat, JobsOk, NeverEarly, Careless;
    NoThreatNeverEarly(r, db, clock);
    if steps != [] {
      var e, now := Apply(db, steps[0].op, steps[0].now), steps[0].now;
      if Careless(r, db, steps[0]) {
        CarelessBreaks(r, db, clock, steps[0]);
        assert !PromiseKept(r, e, now, steps[1..]);
      } else {
        CarefulStep(r, db, clock, steps[0]);
        JobsStep(db, clock, steps[0].op, now);
        KeptIffCareful(r, e, now, steps[1..]);
      }
    }
  }

  /** The 14 days after an answer, and the five days of an unanswered dispute, are kept in every
      state of a run exactly when no step of it is careless: none opens a dispute whose day-5 timer
      comes before a deadline on the fact (or, for the five days, while an earlier forcing timer
      is left), and none rejects an answer while a later deadline on the fact is still to come. */
  lemma PromiseKeptIff(r: Promise, sites: map<int, Site>, clock: Time, steps: seq<Step>)
    requires AllowedRun(EmptyDb(sites), clock, steps)
    ensures PromiseKept(r, EmptyDb(sites), clock, steps) <==> CarefulRun(r, EmptyDb(sites), steps)
  {
    KeptIffCareful(r, EmptyDb(sites), clock, steps);
  }
}

/** Runs in which a dispute is forced before its time. */
module WitnessDisputes {
  import opened Common
  import opened Store
  import opened PeriodSpec
  import opened DisputeSpec
  import opened Runs
  import opened DisputeTimers
  import opened DisputeDeadlines
  import opened WitnessRuns

  const ANSWER: Option<string> := Some("p")

  lemma Responding(db: Db, id: nat, now: Time)
    requires id < |db.discrepancies| && db.discrepancies[id].status == DisputeOpen
    ensures Apply(db, DoRespond(id, ANSWER), now) == db.(
      discrepancies := db.discrepancies[id := db.discrepancies[id].(gcResponseAt := Some(now))],
      events := CancelEvents(db.events, db.discrepancies[id].fact))
  {
    assert !IsBlank(ANSWER) by { assert "p"[0] in "p" && 'p' !in WHITESPACE; }
    hide CancelEvents, IsBlank;
  }

  lemma Rejecting(db: Db, id: nat, t: Time, now: Time)
    requires id < |db.discrepancies| && db.discrepancies[id].status == DisputeOpen
      && db.discrepancies[id].gcResponseAt == Some(t)
    ensures Apply(db, DoReject(id), now) == ScheduleEvents(db, db.discrepancies[id].fact, t, B, now)
  {
    hide ScheduleEvents;
  }

  /** The timers that a rejection adds, and the job of the last of them. */
  lemma ScheduledB(db: Db, t: Time, now: Time)
    requires JobsOk(db.jobs, db.events, now)
    ensures var e, n := ScheduleEvents(db, FK, t, B, now), |db.events|;
      && e == db.(events := db.events + Timers(FK, B, t), jobs := e.jobs) && |e.events| == n + 3
      && e.events[n + 2] == Timer(FK, B, ScFigureDay14, t)
      && n + 2 in e.jobs && (e.jobs[n + 2] <= now || e.jobs[n + 2] == t + 14 * DAY)
      && JobsOk(e.jobs, e.events, now)
      && (forall i | i in db.jobs :: i in e.jobs && e.jobs[i] == db.jobs[i])
  {
    var ts := Timers(FK, B, t);
    var es, n := db.events + ts, |db.events|;
    assert es[n + 2] == Timer(FK, B, ScFigureDay14, t);
    assert n + 2 in PendingIds(es, FK, B);
    QueueOk(db.jobs, db.events, ts, PendingIds(es, FK, B), now, now);
    hide PendingIds, Timers;
  }

  lemma ScheduledA(db: Db, now: Time)
    requires JobsOk(db.jobs, db.events, now)
    ensures var e := ScheduleEvents(db, FK, now, A, now);
      && e == db.(events := db.events + Timers(FK, A, now), jobs := e.jobs) && |e.events| == |db.events| + 2
      && JobsOk(e.jobs, e.events, now)
      && (forall i | i in db.jobs :: i in e.jobs && e.jobs[i] == db.jobs[i])
  {
    var ts := Timers(FK, A, now);
    QueueOk(db.jobs, db.events, ts, PendingIds(db.events + ts, FK, A), now, now);
    hide PendingIds, Timers;
  }

  const SECOND := Apply(D1, DISPUTE, 0)
  const FIRST_ANSWERED := Apply(SECOND, DoRespond(0, ANSWER), DAY)
  const BOTH_ANSWERED := Apply(FIRST_ANSWERED, DoRespond(1, ANSWER), 10 * DAY)
  const FIRST_REJECTED := Apply(BOTH_ANSWERED, DoReject(0), 10 * DAY)

  /** Two disputes on one fact, opened before either was answered; the first is answered on day 1
      and the second on day 10, and the first answer is rejected. */
  const CROSSING: seq<Step> :=
    VERIFYING + [Step(DISPUTE, 0)] + [Step(DISPUTE, 0)] + [Step(DoRespond(0, ANSWER), DAY)]
    + [Step(DoRespond(1, ANSWER), 10 * DAY)] + [Step(DoReject(0), 10 * DAY)]

  lemma ReachDisputed()
    ensures Reaches(VERIFYING + [Step(DISPUTE, 0)], D1, 0) && JobsOk(D1.jobs, D1.events, 0)
  {
    ReachVerifying();
    DisputeFirst();
    Extend(VERIFYING, P4, 0, Step(DISPUTE, 0), D1);
    JobsRun(EmptyDb(SITES), 0, VERIFYING + [Step(DISPUTE, 0)]);
    hide Apply, Timers, Run, AllowedRun;
  }

  lemma ReachCrossing()
    ensures Reaches(CROSSING, FIRST_REJECTED, 10 * DAY)
  {
    ReachDisputed();
    hide Apply;
    Extend(VERIFYING + [Step(DISPUTE, 0)], D1, 0, Step(DISPUTE, 0), SECOND);
    var two := VERIFYING + [Step(DISPUTE, 0)] + [Step(DISPUTE, 0)];
    Extend(two, SECOND, 0, Step(DoRespond(0, ANSWER), DAY), FIRST_ANSWERED);
    var one := two + [Step(DoRespond(0, ANSWER), DAY)];
    Extend(one, FIRST_ANSWERED, DAY, Step(DoRespond(1, ANSWER), 10 * DAY), BOTH_ANSWERED);
    Extend(one + [Step(DoRespond(1, ANSWER), 10 * DAY)], BOTH_ANSWERED, 10 * DAY, Step(DoReject(0), 10 * DAY),
      FIRST_REJECTED);
  }

  function Dispute(answered: Option<Time>): Discrepancy { Discrepancy(FK, 2, DisputeOpen, answered, 0) }

  lemma CrossingDisputes()
    ensures BOTH_ANSWERED.discrepancies == [Dispute(Some(DAY)), Dispute(Some(10 * DAY))] && |BOTH_ANSWERED.events| == 4
    ensures JobsOk(BOTH_ANSWERED.jobs, BOTH_ANSWERED.events, 10 * DAY)
  {
    ReachDisputed();
    Disputing(D1, 0);
    var d := D1.(facts := D1.facts[FK := Disputed(D1.facts[FK])], discrepancies := D1.discrepancies + [Dispute(None)]);
    ScheduledA(d, 0);
    assert SECOND.discrepancies == [Dispute(None), Dispute(None)] && |SECOND.events| == 4;
    hide Apply, Timers, ScheduleEvents;
    Responding(SECOND, 0, DAY);
    Responding(FIRST_ANSWERED, 1, 10 * DAY);
    assert |FIRST_ANSWERED.events| == 4 && |BOTH_ANSWERED.events| == 4;
    JobsStep(SECOND, 0, DoRespond(0, ANSWER), DAY);
    JobsStep(FIRST_ANSWERED, DAY, DoRespond(1, ANSWER), 10 * DAY);
  }

  /** Fourteen days are not kept with two disputes on a fact, even when the second was opened
      before the first was answered: here the timer of the first, dated from its answer on day 1,
      forces the second on day 15, five days after its answer. */
  lemma CrossingDisputesForcedEarly()
    ensures var s, db := Step(DoRunJob(6, 1), 15 * DAY), Run(EmptyDb(SITES), CROSSING);
      && AllowedRun(EmptyDb(SITES), 0, CROSSING + [s])
      && JobForces(db, 6, 1) && db.discrepancies[1].kind == 2 && db.discrepancies[1].gcResponseAt == Some(10 * DAY)
      && s.now < db.discrepancies[1].gcResponseAt.value + 14 * DAY
  {
    ReachCrossing();
    CrossingDisputes();
    Rejecting(BOTH_ANSWERED, 0, DAY, 10 * DAY);
    ScheduledB(BOTH_ANSWERED, DAY, 10 * DAY);
    hide Apply, ScheduleEvents, Timers;
    var db, s := FIRST_REJECTED, Step(DoRunJob(6, 1), 15 * DAY);
    assert db.events[6] == Timer(FK, B, ScFigureDay14, DAY) && IsOpenOn(db.discrepancies, 1, FK);
    Deliverable(db, 10 * DAY, 6, 1, 15 * DAY);
    hide Allowed;
    Extend(CROSSING, db, 10 * DAY, s, Apply(db, s.op, s.now));
    hide Run, AllowedRun;
  }

  const ONE_ANSWERED := Apply(D1, DoRespond(0, ANSWER), DAY)
  const REJECTED := Apply(ONE_ANSWERED, DoReject(0), DAY)
  const REJECTED_AGAIN := Apply(REJECTED, DoReject(0), DAY)
  const FORCED := Apply(REJECTED_AGAIN, DoRunJob(4, 0), 15 * DAY)
  const REOPENED := Apply(FORCED, DISPUTE, 15 * DAY)

  /** One dispute, its answer rejected twice, so that two day-14 timers have the same date; the
      first of them closes the dispute, and a new one is opened. */
  const LEFTOVER: seq<Step> :=
    VERIFYING + [Step(DISPUTE, 0)] + [Step(DoRespond(0, ANSWER), DAY)] + [Step(DoReject(0),
      DAY)] + [Step(DoReject(0), DAY)]
    + [Step(DoRunJob(4, 0), 15 * DAY)] + [Step(DISPUTE, 15 * DAY)]

  lemma OnceRejected()
    ensures var db := REJECTED;
      && db.discrepancies == [Dispute(Some(DAY))] && |db.events| == 5
      && db.events[4] == Timer(FK, B, ScFigureDay14, DAY)
      && 4 in db.jobs && db.jobs[4] <= 15 * DAY
      && JobsOk(db.jobs, db.events, DAY) && Disputable(db)
  {
    ReachDisputed();
    assert D1.discrepancies == [Dispute(None)] && |D1.events| == 2 && Disputable(D1);
    hide Apply, ScheduleEvents, Timers;
    Responding(D1, 0, DAY);
    JobsStep(D1, 0, DoRespond(0, ANSWER), DAY);
    hide JobsOk;
    Rejecting(ONE_ANSWERED, 0, DAY, DAY);
    ScheduledB(ONE_ANSWERED, DAY, DAY);
  }

  lemma RejectedTwice()
    ensures var db := REJECTED_AGAIN;
      && db.discrepancies == [Dispute(Some(DAY))] && |db.events| == 8
      && db.events[4] == Timer(FK, B, ScFigureDay14, DAY) && db.events[7] == Timer(FK, B, ScFigureDay14, DAY)
      && 4 in db.jobs && db.jobs[4] <= 15 * DAY && 7 in db.jobs && db.jobs[7] <= 15 * DAY
      && JobsOk(db.jobs, db.events, DAY) && Disputable(db)
  {
    OnceRejected();
    hide Apply, ScheduleEvents, Timers, JobsOk;
    Rejecting(REJECTED, 0, DAY, DAY);
    ScheduledB(REJECTED, DAY, DAY);
  }

  lemma ForcedAndReopened()
    ensures Allowed(REJECTED_AGAIN, DAY, Step(DoRunJob(4, 0), 15 * DAY))
    ensures var db := REOPENED;
      && |db.discrepancies| == 2 && db.discrepancies[1] == Discrepancy(FK, 2, DisputeOpen, None, 15 * DAY)
      && 7 < |db.events| && db.events[7] == Timer(FK, B, ScFigureDay14, DAY) && 7 in db.jobs && db.jobs[7] <= 15 * DAY
  {
    RejectedTwice();
    var db := REJECTED_AGAIN;
    assert IsOpenOn(db.discrepancies, 0, FK);
    Deliverable(db, DAY, 4, 0, 15 * DAY);
    Forcing(db, 4, 0, 15 * DAY);
    JobsStep(db, DAY, DoRunJob(4, 0), 15 * DAY);
    assert Disputable(FORCED) && FORCED.events[7] == db.events[7] && 7 in FORCED.jobs by { hide Timers, Apply, Timer; }
    hide Apply, ScheduleEvents, Timers, Allowed, Timer;
    Disputing(FORCED, 15 * DAY);
    ScheduledA(FORCED.(facts := FORCED.facts[FK := Disputed(FORCED.facts[FK])],
                       discrepancies := FORCED.discrepancies + [Discrepancy(FK, 2, DisputeOpen, None, 15 * DAY)]),
                         15 * DAY);
  }

  lemma ReachLeftover()
    ensures Reaches(LEFTOVER, REOPENED, 15 * DAY)
  {
    ReachDisputed();
    ForcedAndReopened();
    hide Apply, Timers;
    var run := VERIFYING + [Step(DISPUTE, 0)];
    Extend(run, D1, 0, Step(DoRespond(0, ANSWER), DAY), ONE_ANSWERED);
    Extend(run + [Step(DoRespond(0, ANSWER), DAY)], ONE_ANSWERED, DAY, Step(DoReject(0), DAY), REJECTED);
    var once := run + [Step(DoRespond(0, ANSWER), DAY)] + [Step(DoReject(0), DAY)];
    Extend(once, REJECTED, DAY, Step(DoReject(0), DAY), REJECTED_AGAIN);
    Extend(once + [Step(DoReject(0), DAY)], REJECTED_AGAIN, DAY, Step(DoRunJob(4, 0), 15 * DAY), FORCED);
    Extend(once + [Step(DoReject(0), DAY)] + [Step(DoRunJob(4, 0), 15 * DAY)], FORCED, 15 * DAY,
      Step(DISPUTE, 15 * DAY), REOPENED);
  }

  /** Five days are not kept when a forcing timer of an earlier dispute is left: here it forces the
      new dispute in the very moment in which it was opened. */
  lemma ReopenedDisputeForcedAtOnce()
    ensures var s, db := Step(DoRunJob(7, 1), 15 * DAY), Run(EmptyDb(SITES), LEFTOVER);
      && AllowedRun(EmptyDb(SITES), 0, LEFTOVER + [s])
      && JobForces(db, 7, 1) && db.discrepancies[1].kind == 2 && db.discrepancies[1].gcResponseAt == None
      && db.discrepancies[1].createdAt == s.now
  {
    ReachLeftover();
    ForcedAndReopened();
    hide Apply, Timers;
    var db, s := REOPENED, Step(DoRunJob(7, 1), 15 * DAY);
    assert IsOpenOn(db.discrepancies, 1, FK);
    Deliverable(db, 15 * DAY, 7, 1, 15 * DAY);
    hide Allowed;
    Extend(LEFTOVER, db, 15 * DAY, s, Apply(db, s.op, s.now));
    hide Run, AllowedRun;
  }
}

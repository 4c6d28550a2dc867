/** What the operations on disputes and their timers do to the store, in terms of its rows alone. */
module DisputeOutcomes {
  import opened Common
  import opened Store
  import opened PeriodSpec
  import opened DisputeSpec

  /** The text has a character other than a space, a tab or a line break. */
  predicate HasText(s: Option<string>) {
    s.Some? && exists c | c in s.value :: c != ' ' && c != '\t' && c != '\n' && c != '\r'
  }

  /** The event neither took place nor was cancelled. */
  predicate Waits(e: SlaEvent) { e.executedAt.None? && !e.isCancelled }

  /** The jobs that were there stay; the events that wait (all of them, or those of one fact and
      scenario) and had none get one, due at the event's time, or at once when that has passed;
      there are no others. */
  ghost predicate JobsAdded(before: map<nat, Time>, after: map<nat, Time>, events: seq<SlaEvent>,
      of: Option<(FactKey, Scenario)>,
      now: Time)
  {
    forall i: nat ::
      if i in before then i in after && after[i] == before[i]
      else if i < |events| && Waits(events[i]) && (of.None? || of.value == (events[i].fact, events[i].scenario)) then
        i in after && after[i] == (if events[i].scheduledAt > now then events[i].scheduledAt else now)
      else i !in after
  }

  lemma ScheduledJobs(db: Db, fk: FactKey, start: Time, s: Scenario, now: Time)
    ensures var e := ScheduleEvents(db, fk, start, s, now);
      JobsAdded(db.jobs, e.jobs, e.events, Some((fk, s)), now)
  {
    hide Timers;
  }

  // ---- opening a dispute ----

  /** The refusals of createDispute, in their order. */
  lemma DisputeRefuses(db: Db, k: PeriodKey, item: int, reason: Option<string>, now: Time)
    ensures CreateDispute(db, k, item, reason, now).Error() ==
      Needs(HasText(reason), DisputeReasonRequired,
      if k !in db.periods then Some(RowNotFound)
      else
        Needs(db.periods[k].status == Verification, PeriodWrongStatus,
        if FactKey(k, item) !in db.facts then Some(PeriodFactNotFound)
        else
          var f := db.facts[FactKey(k, item)];
          Needs(f.gp.Some? && f.sc.Some? && f.gp.value != f.sc.value, NoDeltaToDispute,
          Needs((k, Some(item)) in db.photos, Type2PhotoRequired, None))))
  {
    assert IsBlank(reason) <==> !HasText(reason);
    hide IsBlank, HasText, ScheduleEvents;
  }

  /** A dispute marks the fact, whose figures stay, adds an open discrepancy of type 2, and starts
      the clock: a notice after 3 days, and the forced close after 5. */
  lemma DisputeWrites(db: Db, k: PeriodKey, item: int, reason: Option<string>, now: Time)
    requires CreateDispute(db, k, item, reason, now).Ok?
    ensures var e, fk := CreateDispute(db, k, item, reason, now).value, FactKey(k, item);
      && fk in db.facts
      && e.facts == db.facts[fk := db.facts[fk].(discType := Some(2), discStatus := Some(FactOpen),
           version := db.facts[fk].version + (if db.facts[fk].discType == Some(2) then 0 else 1))]
      && e.discrepancies == db.discrepancies + [Discrepancy(fk, 2, DisputeOpen, None, now)]
      && e.events == db.events + [SlaEvent(fk, A, NotifyDay3, now + 259_200_000, None, false),
                                  SlaEvent(fk, A, ForceCloseDay5, now + 432_000_000, None, false)]
      && JobsAdded(db.jobs, e.jobs, e.events, Some((fk, A)), now)
      && e == db.(facts := e.facts, discrepancies := e.discrepancies, events := e.events, jobs := e.jobs)
  {
    var fk := FactKey(k, item);
    var f := db.facts[fk];
    var d := db.(facts := db.facts[fk := Bumped(f, f.(discType := Some(2), discStatus := Some(FactOpen)))],
                 discrepancies := db.discrepancies + [Discrepancy(fk, 2, DisputeOpen, None, now)]);
    ScheduledJobs(d, fk, now, A, now);
    hide IsBlank, JobsAdded, WithJobs, PendingIds;
  }

  // ---- the contractor's answer ----

  lemma ResponseRefuses(db: Db, id: nat, position: Option<string>, now: Time)
    ensures SubmitGpResponse(db, id, position, now).Error() ==
      Needs(HasText(position), GpPositionRequired,
      if id >= |db.discrepancies| then Some(RowNotFound)
      else Needs(db.discrepancies[id].status == DisputeOpen, DiscrepancyWrongStatus, None))
  {
    assert IsBlank(position) <==> !HasText(position);
    hide IsBlank, HasText, CancelEvents;
  }

  /** An answer is dated, and cancels what waits for the fact; other events and the jobs stay. */
  lemma ResponseWrites(db: Db, id: nat, position: Option<string>, now: Time)
    requires SubmitGpResponse(db, id, position, now).Ok?
    ensures id < |db.discrepancies|
    ensures var e := SubmitGpResponse(db, id, position, now).value;
      var d := db.discrepancies[id];
      && e.discrepancies == db.discrepancies[id := d.(gcResponseAt := Some(now))]
      && |e.events| == |db.events|
      && (forall i | 0 <= i < |db.events| ::
            e.events[i] == if db.events[i].fact == d.fact && Waits(db.events[i]) then db.events[i].(isCancelled := true)
                           else db.events[i])
      && e == db.(discrepancies := e.discrepancies, events := e.events)
  {
    hide IsBlank;
  }

  // ---- the rejected answer ----

  lemma RejectionRefuses(db: Db, id: nat, now: Time)
    ensures RejectGpResponse(db, id, now).Error() ==
      if id >= |db.discrepancies| then Some(RowNotFound)
      else
        Needs(db.discrepancies[id].status == DisputeOpen, DiscrepancyWrongStatus,
        Needs(db.discrepancies[id].gcResponseAt.Some?, GpResponseNotSubmitted, None))
  {
    hide ScheduleEvents;
  }

  /** A rejected answer starts the second clock at the time of the answer: 3, 7 and 14 days. */
  lemma RejectionWrites(db: Db, id: nat, now: Time)
    requires RejectGpResponse(db, id, now).Ok?
    ensures id < |db.discrepancies| && db.discrepancies[id].gcResponseAt.Some?
    ensures var e := RejectGpResponse(db, id, now).value;
      var fk, start := db.discrepancies[id].fact, db.discrepancies[id].gcResponseAt.value;
      && e.events == db.events + [SlaEvent(fk, B, NotifyDay3, start + 259_200_000, None, false),
                                  SlaEvent(fk, B, DirectorDeadlineDay7, start + 604_800_000, None, false),
                                  SlaEvent(fk, B, ScFigureDay14, start + 1_209_600_000, None, false)]
      && JobsAdded(db.jobs, e.jobs, e.events, Some((fk, B)), now)
      && e == db.(events := e.events, jobs := e.jobs)
  {
    ScheduledJobs(db, db.discrepancies[id].fact, db.discrepancies[id].gcResponseAt.value, B, now);
    hide JobsAdded, WithJobs, PendingIds;
  }

  // ---- the worker ----

  /** Recovery adds the jobs of all events that wait, and nothing else. */
  lemma RecoveryWrites(db: Db, now: Time)
    ensures var e := RecoverPending(db, now);
      JobsAdded(db.jobs, e.jobs, db.events, None, now) && e == db.(jobs := e.jobs)
  {
  }

  /** Forcing closes an open discrepancy of the fact with the SC figure, which becomes the accepted
      one; without such a discrepancy nothing changes. */
  lemma ForceWrites(db: Db, fk: FactKey, pick: nat)
    ensures ForceClose(db, fk, pick) ==
      if pick < |db.discrepancies| && db.discrepancies[pick].fact == fk
        && db.discrepancies[pick].status == DisputeOpen then
        db.(discrepancies := db.discrepancies[pick := db.discrepancies[pick].(status := ForcedScFigure)],
            facts := if fk in db.facts
              then db.facts[fk := db.facts[fk].(discStatus := Some(FactForced), accepted := db.facts[fk].sc)]
              else db.facts)
      else db
  {
  }

  /** A delivered job is gone. When its event waits, the event has taken place; the events of day 5
      and day 14, and no others, also force the discrepancy that was found. */
  lemma JobWrites(db: Db, id: nat, pick: nat, now: Time)
    ensures var e := ProcessEvent(db, id, pick, now);
      if id < |db.events| && Waits(db.events[id]) then
        var x := db.events[id];
        var forced := ForceClose(db, x.fact, pick);
        var act := x.eventType == ForceCloseDay5 || x.eventType == ScFigureDay14;
        e == db.(facts := if act then forced.facts else db.facts,
                 discrepancies := if act then forced.discrepancies else db.discrepancies,
                 events := db.events[id := x.(executedAt := Some(now))], jobs := db.jobs - {id})
      else e == db.(jobs := db.jobs - {id})
  {
    if id < |db.events| {
      var d := db.(jobs := db.jobs - {id});
      ForceWrites(db, db.events[id].fact, pick);
      ForceWrites(d, db.events[id].fact, pick);
      assert d.events == db.events && d.facts == db.facts && d.discrepancies == db.discrepancies;
    }
    hide ForceClose;
  }

  /** The worker forces an open discrepancy of the fact whenever there is one. */
  lemma FoundIsOpen(ds: seq<Discrepancy>, fk: FactKey, pick: nat, i: nat)
    requires PickAllowed(ds, fk, pick) && i < |ds| && ds[i].fact == fk && ds[i].status == DisputeOpen
    ensures pick < |ds| && ds[pick].fact == fk && ds[pick].status == DisputeOpen
  {
    assert IsOpenOn(ds, i, fk);
  }
}

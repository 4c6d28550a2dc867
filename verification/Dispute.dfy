/** Disputes over a fact and their SLA timers, each operation as one atomic step. */
module DisputeSpec {
  import opened Common
  import opened Store
  import opened PeriodSpec

  const WHITESPACE := {' ', '\t', '\n', '\r'}

  predicate IsBlank(s: Option<string>) { s.None? || forall c | c in s.value :: c in WHITESPACE }

  // ---- timers ----

  predicate IsPending(e: SlaEvent) { e.executedAt.None? && !e.isCancelled }

  /** Days after the start of the clock. */
  function DueDays(t: EventType): int {
    match t
    case NotifyDay3 => 3
    case ForceCloseDay5 => 5
    case DirectorDeadlineDay7 => 7
    case ScFigureDay14 => 14
  }

  predicate Forces(t: EventType) { t == ForceCloseDay5 || t == ScFigureDay14 }

  function Timer(fk: FactKey, s: Scenario, t: EventType, start: Time): SlaEvent {
    SlaEvent(fk, s, t, start + DueDays(t) * DAY, None, false)
  }

  function Timers(fk: FactKey, s: Scenario, start: Time): seq<SlaEvent> {
    match s
    case A => [Timer(fk, A, NotifyDay3, start), Timer(fk, A, ForceCloseDay5, start)]
    case B => [Timer(fk, B, NotifyDay3, start), Timer(fk, B, DirectorDeadlineDay7, start),
      Timer(fk, B, ScFigureDay14, start)]
  }

  /** The queue delivers a job no earlier than its delay after it was added. */
  function ReadyAt(e: SlaEvent, now: Time): Time {
    now + if e.scheduledAt - now > 0 then e.scheduledAt - now else 0
  }

  function PendingIds(events: seq<SlaEvent>, fk: FactKey, s: Scenario): set<nat> {
    set i: nat | i < |events| && IsPending(events[i]) && events[i].fact == fk && events[i].scenario == s
  }

  function AllPendingIds(events: seq<SlaEvent>): set<nat> { set i: nat | i < |events| && IsPending(events[i]) }

  /** Adds a job for each wanted event; a job id already in the queue is kept as it is. */
  function WithJobs(jobs: map<nat, Time>, events: seq<SlaEvent>, wanted: set<nat>, now: Time): map<nat, Time> {
    jobs + map i | i in wanted && i < |events| && i !in jobs :: ReadyAt(events[i], now)
  }

  function ScheduleEvents(db: Db, fk: FactKey, start: Time, s: Scenario, now: Time): Db {
    var events := db.events + Timers(fk, s, start);
    db.(events := events, jobs := WithJobs(db.jobs, events, PendingIds(events, fk, s), now))
  }

  function Cancelled(e: SlaEvent, fk: FactKey): SlaEvent {
    if e.fact == fk && IsPending(e) then e.(isCancelled := true) else e
  }

  function CancelEvents(events: seq<SlaEvent>, fk: FactKey): seq<SlaEvent> {
    seq(|events|, i requires 0 <= i < |events| => Cancelled(events[i], fk))
  }

  function RecoverPending(db: Db, now: Time): Db {
    db.(jobs := WithJobs(db.jobs, db.events, AllPendingIds(db.events), now))
  }

  // ---- disputes ----

  function CreateDispute(db: Db, k: PeriodKey, item: int, reason: Option<string>, now: Time): Result<Db> {
    var fk := FactKey(k, item);
    if IsBlank(reason) then Fail(DisputeReasonRequired)
    else if k !in db.periods then Fail(RowNotFound)
    else if db.periods[k].status != Verification then Fail(PeriodWrongStatus)
    else if fk !in db.facts then Fail(PeriodFactNotFound)
    else
      var f := db.facts[fk];
      if f.gp.None? || f.sc.None? || f.gp == f.sc then Fail(NoDeltaToDispute)
      else if (k, Some(item)) !in db.photos then Fail(Type2PhotoRequired)
      else
        var d := db.(facts := db.facts[fk := Bumped(f, f.(discType := Some(2), discStatus := Some(FactOpen)))],
                     discrepancies := db.discrepancies + [Discrepancy(fk, 2, DisputeOpen, None, now)]);
        Ok(ScheduleEvents(d, fk, now, A, now))
  }

  function SubmitGpResponse(db: Db, id: nat, position: Option<string>, now: Time): Result<Db> {
    if IsBlank(position) then Fail(GpPositionRequired)
    else if id >= |db.discrepancies| then Fail(RowNotFound)
    else
      var d := db.discrepancies[id];
      if d.status != DisputeOpen then Fail(DiscrepancyWrongStatus)
      else Ok(db.(discrepancies := db.discrepancies[id := d.(gcResponseAt := Some(now))],
                  events := CancelEvents(db.events, d.fact)))
  }

  function RejectGpResponse(db: Db, id: nat, now: Time): Result<Db> {
    if id >= |db.discrepancies| then Fail(RowNotFound)
    else
      var d := db.discrepancies[id];
      if d.status != DisputeOpen then Fail(DiscrepancyWrongStatus)
      else if d.gcResponseAt.None? then Fail(GpResponseNotSubmitted)
      else Ok(ScheduleEvents(db, d.fact, d.gcResponseAt.value, B, now))
  }

  // ---- the worker ----

  predicate IsOpenOn(ds: seq<Discrepancy>, pick: nat, fk: FactKey) {
    pick < |ds| && ds[pick].fact == fk && ds[pick].status == DisputeOpen
  }

  predicate HasOpenOn(ds: seq<Discrepancy>, fk: FactKey) { exists i: nat | i < |ds| :: IsOpenOn(ds, i, fk) }

  /** The fact with the SC figure as its accepted volume. */
  function Forced(f: Fact): Fact { f.(discStatus := Some(FactForced), accepted := f.sc) }

  /** Applies the SC figure to one open discrepancy of the fact. */
  function ForceClose(db: Db, fk: FactKey, pick: nat): Db {
    if !IsOpenOn(db.discrepancies, pick, fk) then db
    else
      var d := db.(discrepancies := db.discrepancies[pick := db.discrepancies[pick].(status := ForcedScFigure)]);
      if fk !in db.facts then d
      else
        var f := db.facts[fk];
        d.(facts := db.facts[fk := Forced(f)])
  }

  /** The store may return any open discrepancy of the fact; pick names the one it returned. */
  predicate PickAllowed(ds: seq<Discrepancy>, fk: FactKey, pick: nat) {
    HasOpenOn(ds, fk) ==> IsOpenOn(ds, pick, fk)
  }

  function ProcessEvent(db: Db, id: nat, pick: nat, now: Time): Db {
    var d := db.(jobs := db.jobs - {id});
    if id >= |db.events| || !IsPending(db.events[id]) then d
    else
      var e := db.events[id];
      var done := if Forces(e.eventType) then ForceClose(d, e.fact, pick) else d;
      done.(events := db.events[id := e.(executedAt := Some(now))])
  }

  /** The job would force a discrepancy. */
  predicate JobForces(db: Db, id: nat, pick: nat) {
    id < |db.events| && IsPending(db.events[id]) && Forces(db.events[id].eventType)
    && IsOpenOn(db.discrepancies, pick, db.events[id].fact)
  }

  /** The facts and discrepancies after a job. */
  lemma JobEffect(db: Db, id: nat, pick: nat, now: Time)
    ensures var e := ProcessEvent(db, id, pick, now);
      if JobForces(db, id, pick) then
        var fk := db.events[id].fact;
        && e.discrepancies == db.discrepancies[pick := db.discrepancies[pick].(status := ForcedScFigure)]
        && e.facts == (if fk in db.facts then db.facts[fk := Forced(db.facts[fk])] else db.facts)
      else e.discrepancies == db.discrepancies && e.facts == db.facts
  {
  }
}

/** The dispute services and the SLA worker, proved against DisputeSpec. */
module DisputeServices {
  import opened Common
  import opened Store
  import opened PeriodSpec
  import opened DisputeSpec

  lemma WithJobsAdd(jobs: map<nat, Time>, events: seq<SlaEvent>, s: set<nat>, i: nat, now: Time)
    requires i < |events| && i !in s
    ensures i in WithJobs(jobs, events, s, now) <==> i in jobs
    ensures WithJobs(jobs, events, s + {i}, now)
              == if i in jobs then WithJobs(jobs, events, s, now)
                else WithJobs(jobs, events, s, now)[i := ReadyAt(events[i], now)]
  {
    hide ReadyAt;
    var a, b := WithJobs(jobs, events, s + {i}, now), WithJobs(jobs, events, s, now);
    assert forall j :: j in a <==> j in b || j == i;
    assert forall j | j in b :: a[j] == b[j];
  }

  class DisputeSlaService {
    const db: Database

    constructor (db: Database)
      ensures this.db == db
    {
      this.db := db;
    }

    /** Adds a job per wanted event, in id order. */
    method Enqueue(wanted: set<nat>, now: Time)
      requires forall i | i in wanted :: i < |db.events|
      modifies db`jobs
      ensures db.jobs == WithJobs(old(db.jobs), db.events, wanted, now)
    {
      ghost var before := db.jobs;
      ghost var done: set<nat> := {};
      assert WithJobs(before, db.events, done, now) == before;
      hide WithJobs;
      for i := 0 to |db.events|
        invariant done <= wanted
        invariant forall j | j in wanted :: j in done <==> j < i
        invariant db.jobs == WithJobs(before, db.events, done, now)
        invariant forall j: nat | i <= j < |db.events| :: j in db.jobs <==> j in before
      {
        if i in wanted {
          WithJobsAdd(before, db.events, done, i, now);
          done := done + {i};
          if i !in db.jobs {
            var e := db.events[i];
            var delay := if e.scheduledAt - now > 0 then e.scheduledAt - now else 0;
            db.jobs := db.jobs[i := now + delay];
          }
        }
      }
      assert done == wanted;
    }

    method ScheduleEvents(fk: FactKey, start: Time, s: Scenario, now: Time)
      modifies db`events, db`jobs
      ensures db.View() == DisputeSpec.ScheduleEvents(old(db.View()), fk, start, s, now)
    {
      var data :=
        if s == A then [Timer(fk, A, NotifyDay3, start), Timer(fk, A, ForceCloseDay5, start)]
        else [Timer(fk, B, NotifyDay3, start), Timer(fk, B, DirectorDeadlineDay7, start),
          Timer(fk, B, ScFigureDay14, start)];
      db.events := db.events + data;
      Enqueue(PendingIds(db.events, fk, s), now);
    }

    method RecoverPending(now: Time) returns (count: nat)
      modifies db`jobs
      ensures db.View() == DisputeSpec.RecoverPending(old(db.View()), now)
      ensures count == |AllPendingIds(db.events)|
    {
      var wanted := AllPendingIds(db.events);
      Enqueue(wanted, now);
      return |wanted|;
    }

    method CancelEvents(fk: FactKey)
      modifies db`events
      ensures db.View() == old(db.View()).(events := DisputeSpec.CancelEvents(old(db.events), fk))
    {
      ghost var before := db.events;
      for i := 0 to |db.events|
        invariant |db.events| == |before|
        invariant forall j | 0 <= j < i :: db.events[j] == Cancelled(before[j], fk)
        invariant forall j | i <= j < |before| :: db.events[j] == before[j]
        invariant db.View() == old(db.View()).(events := db.events)
      {
        var e := db.events[i];
        if e.fact == fk && e.executedAt.None? && !e.isCancelled {
          db.events := db.events[i := e.(isCancelled := true)];
        }
      }
      assert db.events == DisputeSpec.CancelEvents(before, fk);
    }
  }

  class DisputeService {
    const db: Database
    const disputeSla: DisputeSlaService

    constructor (db: Database, disputeSla: DisputeSlaService)
      requires disputeSla.db == db
      ensures this.db == db && this.disputeSla == disputeSla
    {
      this.db := db;
      this.disputeSla := disputeSla;
    }

    method CreateDispute(k: PeriodKey, item: int, reason: Option<string>, now: Time) returns (e: Option<Error>)
      requires disputeSla.db == db
      modifies db
      ensures var r := DisputeSpec.CreateDispute(old(db.View()), k, item, reason, now);
        e == r.Error() && db.View() == r.Or(old(db.View()))
    {
      if IsBlank(reason) { return Some(DisputeReasonRequired); }
      if k !in db.periods { return Some(RowNotFound); }
      if db.periods[k].status != Verification { return Some(PeriodWrongStatus); }
      var fk := FactKey(k, item);
      if fk !in db.facts { return Some(PeriodFactNotFound); }
      var f := db.facts[fk];
      if f.gp.None? || f.sc.None? || f.gp.value - f.sc.value == 0.0 { return Some(NoDeltaToDispute); }
      if (k, Some(item)) !in db.photos { return Some(Type2PhotoRequired); }
      db.facts := db.facts[fk := Bumped(f, f.(discType := Some(2), discStatus := Some(FactOpen)))];
      db.discrepancies := db.discrepancies + [Discrepancy(fk, 2, DisputeOpen, None, now)];
      disputeSla.ScheduleEvents(fk, now, A, now);
      return None;
    }

    method SubmitGpResponse(id: nat, position: Option<string>, now: Time) returns (e: Option<Error>)
      requires disputeSla.db == db
      modifies db
      ensures var r := DisputeSpec.SubmitGpResponse(old(db.View()), id, position, now);
        e == r.Error() && db.View() == r.Or(old(db.View()))
    {
      if IsBlank(position) { return Some(GpPositionRequired); }
      if id >= |db.discrepancies| { return Some(RowNotFound); }
      var d := db.discrepancies[id];
      if d.status != DisputeOpen { return Some(DiscrepancyWrongStatus); }
      db.discrepancies := db.discrepancies[id := d.(gcResponseAt := Some(now))];
      disputeSla.CancelEvents(d.fact);
      return None;
    }

    method RejectGpResponse(id: nat, now: Time) returns (e: Option<Error>)
      requires disputeSla.db == db
      modifies db
      ensures var r := DisputeSpec.RejectGpResponse(old(db.View()), id, now);
        e == r.Error() && db.View() == r.Or(old(db.View()))
    {
      if id >= |db.discrepancies| { return Some(RowNotFound); }
      var d := db.discrepancies[id];
      if d.status != DisputeOpen { return Some(DiscrepancyWrongStatus); }
      if d.gcResponseAt.None? { return Some(GpResponseNotSubmitted); }
      disputeSla.ScheduleEvents(d.fact, d.gcResponseAt.value, B, now);
      return None;
    }
  }

  class DisputeSlaWorker {
    const db: Database

    constructor (db: Database)
      ensures this.db == db
    {
      this.db := db;
    }

    /** Any open discrepancy of the fact, or none when there is none. */
    method FindOpenDiscrepancy(fk: FactKey) returns (found: Option<nat>)
      ensures found.Some? ==> IsOpenOn(db.discrepancies, found.value, fk)
      ensures found.None? ==> !HasOpenOn(db.discrepancies, fk)
    {
      var ds := db.discrepancies;
      var open := set i: nat | i < |ds| && IsOpenOn(ds, i, fk);
      if open == {} {
        assert forall i: nat | i < |ds| && IsOpenOn(ds, i, fk) :: i in open;
        return None;
      }
      MemberExists(open);
      var i :| i in open;
      return Some(i);
    }

    method HandleForceClose(fk: FactKey) returns (pick: nat)
      modifies db`discrepancies, db`facts
      ensures db.View() == ForceClose(old(db.View()), fk, pick)
      ensures PickAllowed(old(db.discrepancies), fk, pick)
    {
      var found := FindOpenDiscrepancy(fk);
      if found.None? { return 0; }
      pick := found.value;
      db.discrepancies := db.discrepancies[pick := db.discrepancies[pick].(status := ForcedScFigure)];
      if fk in db.facts {
        var f := db.facts[fk];
        db.facts := db.facts[fk := f.(discStatus := Some(FactForced), accepted := f.sc)];
      }
    }

    /** Runs one delivered job. */
    method Process(id: nat, now: Time) returns (pick: nat)
      modifies db
      ensures db.View() == ProcessEvent(old(db.View()), id, pick, now)
      ensures id < |old(db.events)| && old(IsPending(db.events[id]) && Forces(db.events[id].eventType)) ==>
                PickAllowed(old(db.discrepancies), old(db.events)[id].fact, pick)
    {
      pick := 0;
      db.jobs := db.jobs - {id};
      if id >= |db.events| { return; }
      var e := db.events[id];
      if e.executedAt.Some? || e.isCancelled { return; }
      if e.eventType == ForceCloseDay5 || e.eventType == ScFigureDay14 {
        pick := HandleForceClose(e.fact);
      }
      db.events := db.events[id := e.(executedAt := Some(now))];
    }
  }

  lemma MemberExists<T>(s: set<T>)
    requires s != {}
    ensures exists x :: x in s
  {
    var x := MemberOf(s);
  }
}

/** Derived data over whole runs: what is stored for closed periods stays equal to the
    recomputation from scratch. */
module Freshness {
  import opened Common
  import opened Store
  import opened Derived
  import opened CascadeTheorems
  import opened PeriodSpec
  import opened DisputeSpec
  import opened Runs
  import opened Lifecycle

  /** No later period of the object is closed already. */
  ghost predicate InOrder(db: Db, k: PeriodKey) {
    forall j | k.number < j :: !IsClosed(db.periods, PeriodKey(k.site, j))
  }

  /** Forcing the SC figure on the fact leaves its effective volume alone. */
  predicate ForceIsNeutral(facts: map<FactKey, Fact>, fk: FactKey) {
    fk in facts ==> EffectiveVolume(Forced(facts[fk])) == EffectiveVolume(facts[fk])
  }

  /** The job forces a figure in a closed period. */
  predicate ForcesClosed(db: Db, id: nat, pick: nat) {
    JobForces(db, id, pick) && IsClosed(db.periods, db.events[id].fact.period)
  }

  /** Periods are closed in number order, and in a closed period timers force no figure over a
      different accepted one. */
  ghost predicate Orderly(db: Db, op: Op) {
    && (op.DoClosePeriod? ==> InOrder(db, op.k))
    && (op.DoRunJob? && ForcesClosed(db, op.id, op.pick) ==> ForceIsNeutral(db.facts, db.events[op.id].fact))
  }

  ghost predicate OrderlyRun(db: Db, steps: seq<Step>)
    decreases |steps|
  {
    steps == [] || (Orderly(db, steps[0].op) && OrderlyRun(Apply(db, steps[0].op, steps[0].now), steps[1..]))
  }

  // ---- steps that neither close nor correct ----

  /** Nothing that the derived data read of a closed period differs. */
  ghost predicate SeenSame(db: Db, facts: map<FactKey, Fact>) {
    forall fk: FactKey {:trigger See(facts, fk)} {:trigger See(db.facts, fk)} ::
      IsClosed(db.periods, fk.period) ==> See(facts, fk) == See(db.facts, fk)
  }

  lemma EntrySeen(db: Db, op: Op, now: Time)
    requires IsEntryOp(op)
    ensures SeenSame(db, ApplyEntry(db, op, now).facts)
  {
    EntryStep(db, op, now);
    EffectEnters(db, op, now);
    var x := EffectOf(db, op, now);
    hide ApplyEntry, EffectOf;
    if x.Entered? {
      var fk := FactKey(x.k, x.item);
      assert WithEffect(db, x, now).facts == db.facts[fk := UpsertedFact(db.facts, fk, x.sc, x.opts.spikeResponse)];
      assert !IsClosed(db.periods, x.k);
      hide WithEffect, UpsertError, UpsertedFact, EffectiveVolume;
    }
  }

  lemma {:induction false} GpItemsSeen(facts: map<FactKey, Fact>, k: PeriodKey, xs: seq<GpItem>, fk: FactKey)
    requires fk.period != k
    ensures See(WithGpItems(facts, k, xs), fk) == See(facts, fk)
    decreases |xs|
  {
    if xs != [] { GpItemsSeen(WithGp(facts, k, xs[0]), k, xs[1..], fk); }
  }

  lemma SubmitGpSeen(db: Db, k: PeriodKey, xs: seq<GpItem>, now: Time)
    ensures SeenSame(db, SubmitGp(db, k, xs, now).Or(db).facts)
  {
    hide TokenError, FactAllowed;
    if SubmitGp(db, k, xs, now).Ok? {
      forall fk: FactKey | IsClosed(db.periods, fk.period)
        ensures See(WithGpItems(db.facts, k, xs), fk) == See(db.facts, fk) {
        GpItemsSeen(db.facts, k, xs, fk);
      }
    }
  }

  lemma CreateDisputeSeen(db: Db, k: PeriodKey, item: int, reason: Option<string>, now: Time)
    ensures SeenSame(db, CreateDispute(db, k, item, reason, now).Or(db).facts)
  {
    hide WithJobs, Timers, PendingIds, IsBlank, Bumped;
  }

  lemma RunJobSeen(db: Db, id: nat, pick: nat, now: Time)
    requires ForcesClosed(db, id, pick) ==> ForceIsNeutral(db.facts, db.events[id].fact)
    ensures SeenSame(db, ProcessEvent(db, id, pick, now).facts)
  {
    JobEffect(db, id, pick, now);
    hide ProcessEvent, JobForces;
  }

  lemma SameFacts(db: Db, op: Op, now: Time)
    requires !IsEntryOp(op) && !op.DoSubmitGp? && !op.DoCorrectFact? && !op.DoCreateDispute? && !op.DoRunJob?
    ensures Apply(db, op, now).facts == db.facts
  {
    Footprint(db, op, now);
    hide Apply;
  }

  lemma StepSeen(db: Db, op: Op, now: Time)
    requires !op.DoCorrectFact? && Orderly(db, op)
    ensures SeenSame(db, Apply(db, op, now).facts)
  {
    if IsEntryOp(op) { EntrySeen(db, op, now); hide SeenSame, ApplyEntry, Orderly; }
    else {
      match op
      case DoSubmitGp(k, xs) => SubmitGpSeen(db, k, xs, now); hide SeenSame, SubmitGp;
      case DoCreateDispute(k, item, reason) => CreateDisputeSeen(db, k, item, reason, now);
        hide SeenSame, CreateDispute;
      case DoRunJob(id, pick) => RunJobSeen(db, id, pick, now); hide SeenSame, ProcessEvent;
      case _ => SameFacts(db, op, now); hide Apply;
    }
  }

  lemma DerivedKept(db: Db, op: Op, now: Time)
    requires !op.DoClosePeriod? && !op.DoCorrectFact?
    ensures var e := Apply(db, op, now); e.sites == db.sites && e.pace == db.pace && e.snaps == db.snaps
  {
    Footprint(db, op, now);
    hide Apply;
  }

  lemma StepClosed(db: Db, op: Op, now: Time, k: PeriodKey)
    requires Base(db) && !op.DoClosePeriod?
    ensures var e := Apply(db, op, now);
      && (IsClosed(db.periods, k) <==> IsClosed(e.periods, k))
      && (IsClosed(db.periods, k) ==> e.periods[k] == db.periods[k] && PeriodItems(db, k) == PeriodItems(e, k))
  {
    var e := Apply(db, op, now);
    PeriodsStep(db, op, now);
    VersionsStep(db, op, now);
    if IsClosed(e.periods, k) && !IsClosed(db.periods, k) { ClosingFindsNoOpenDispute(db, op, now, k); }
    hide Apply, Numbered, FactsOk, DisputesOk;
    if IsClosed(db.periods, k) { PeriodItemsStep(db, e, k); }
  }

  lemma StepSameClosed(db: Db, op: Op, now: Time, k: PeriodKey)
    requires Base(db) && !op.DoCorrectFact? && !op.DoClosePeriod? && Orderly(db, op)
    ensures SameClosed(db, Apply(db, op, now), k)
  {
    var e := Apply(db, op, now);
    StepClosed(db, op, now, k);
    StepSeen(db, op, now);
    hide Apply, Base, Orderly;
    if IsClosed(db.periods, k) {
      forall i ensures See(db.facts, FactKey(k, i)) == See(e.facts, FactKey(k, i)) {}
    }
  }

  /** A store that agrees on every closed period, and holds the same rows and snapshots. */
  lemma FreshFrame(d: Db, e: Db)
    requires Fresh(d) && d.sites == e.sites && d.pace == e.pace && d.snaps == e.snaps
    requires forall k: PeriodKey {:trigger SameClosed(d, e, k)} :: SameClosed(d, e, k)
    requires forall k | k in e.periods :: k.number > 0
    ensures Fresh(e)
  {
    forall site, n ensures FreshBelow(e, site, n) {
      forall j | 0 < j < n ensures FreshAt(e, site, j) {
        assert FreshBelow(d, site, n);
        forall i | 0 < i <= j ensures SameClosed(d, e, PeriodKey(site, i)) {}
        FreshAtFrame(d, e, site, j);
      }
    }
    forall fk | fk in e.pace ensures IsClosed(e.periods, fk.period)
      && fk in RowKeys(fk.period, PeriodItems(e, fk.period)) {
      assert SameClosed(d, e, fk.period);
    }
    forall k | k in e.snaps ensures IsClosed(e.periods, k) { assert SameClosed(d, e, k); }
  }

  lemma QuietFresh(db: Db, op: Op, now: Time)
    requires Base(db) && Fresh(db) && !op.DoCorrectFact? && !op.DoClosePeriod? && Orderly(db, op)
    ensures Fresh(Apply(db, op, now))
  {
    var e := Apply(db, op, now);
    PeriodsStep(db, op, now);
    DerivedKept(db, op, now);
    forall k: PeriodKey ensures SameClosed(db, e, k) { StepSameClosed(db, op, now, k); }
    assert forall k | k in e.periods :: k.number > 0;
    hide Apply, Fresh, Base, SameClosed, Orderly, Numbered, Advanced;
    FreshFrame(db, e);
  }

  // ---- closing ----

  /** Marking a period as closed keeps the history of other objects and of earlier periods. */
  lemma MarkedKeeps(db: Db, k: PeriodKey, site: int, n: int)
    requires k in db.periods && (site != k.site || n < k.number)
    ensures SameHistory(db, MarkedClosed(db, k), site, n)
  {
    var d := MarkedClosed(db, k);
    forall j | 0 < j <= n ensures SameClosed(db, d, PeriodKey(site, j)) {}
  }

  lemma MarkedFreshBelow(db: Db, k: PeriodKey, site: int, n: int)
    requires Fresh(db) && k in db.periods && !ClosedStatus(db.periods[k].status) && (site != k.site || n <= k.number)
    ensures FreshBelow(MarkedClosed(db, k), site, n)
  {
    var d := MarkedClosed(db, k);
    forall j | 0 < j < n ensures FreshAt(d, site, j) {
      MarkedKeeps(db, k, site, j);
      assert FreshBelow(db, site, n);
      hide MarkedClosed, FreshBelow, SameHistory;
      FreshAtMarked(db, k, site, j);
    }
  }

  lemma FreshAtMarked(db: Db, k: PeriodKey, site: int, j: int)
    requires k in db.periods && j > 0 && SameHistory(db, MarkedClosed(db, k), site, j) && FreshAt(db, site, j)
    ensures FreshAt(MarkedClosed(db, k), site, j)
  {
    FreshAtFrame(db, MarkedClosed(db, k), site, j);
  }

  lemma MarkedShape(db: Db, k: PeriodKey)
    requires Shape(db) && k in db.periods
    ensures Shape(MarkedClosed(db, k)) && IsClosed(MarkedClosed(db, k).periods, k)
  {
    var d := MarkedClosed(db, k);
    assert forall x | x in db.periods :: PeriodItems(d, x) == PeriodItems(db, x);
  }

  lemma CloseFresh(db: Db, k: PeriodKey, now: Time)
    requires Fresh(db) && InOrder(db, k) && ClosePeriod(db, k, now).Ok?
    ensures Fresh(ClosePeriod(db, k, now).value)
  {
    var d, e := MarkedClosed(db, k), ClosePeriod(db, k, now).value;
    assert e == Recalculated(d, k, now) && k in db.periods && !ClosedStatus(db.periods[k].status);
    MarkedShape(db, k);
    MarkedFreshBelow(db, k, k.site, k.number);
    RecalculatedFresh(d, k, now);
    RecalculatedPeriods(d, k, now);
    forall site, n ensures FreshBelow(e, site, n) {
      if site != k.site { MarkedFreshBelow(db, k, site, n); }
      forall j | 0 < j < n ensures FreshAt(e, site, j) {
        if site != k.site {
          assert FreshAt(d, site, j);
          RecalculatedKeepsOthers(d, k, now, site, j);
        } else if j > k.number {
          assert !IsClosed(e.periods, PeriodKey(site, j));
        }
      }
    }
  }

  // ---- correcting ----

  lemma CorrectedKeeps(db: Db, fk: FactKey, sc: real, accepted: real, site: int, n: int)
    requires CorrectFact(db, fk, sc, accepted).Ok? && (site != fk.period.site || n < fk.period.number)
    ensures SameHistory(db, CorrectFact(db, fk, sc, accepted).value, site, n)
  {
    var d := CorrectFact(db, fk, sc, accepted).value;
    forall j | 0 < j <= n ensures SameClosed(db, d, PeriodKey(site, j)) {}
  }

  lemma CorrectedFreshBelow(db: Db, fk: FactKey, sc: real, accepted: real)
    requires Fresh(db) && CorrectFact(db, fk, sc, accepted).Ok?
    ensures var d := CorrectFact(db, fk, sc, accepted).value;
      Shape(d) && FreshBelow(d, fk.period.site, fk.period.number)
  {
    var d := CorrectFact(db, fk, sc, accepted).value;
    assert forall x | x in db.periods :: PeriodItems(d, x) == PeriodItems(db, x);
    var site, n := fk.period.site, fk.period.number;
    forall j | 0 < j < n ensures FreshAt(d, site, j) {
      assert FreshBelow(db, site, n);
      CorrectedKeeps(db, fk, sc, accepted, site, j);
      FreshAtFrame(db, d, site, j);
    }
  }

  lemma CorrectedOther(db: Db, e: Db, fk: FactKey, sc: real, accepted: real, site: int, j: int)
    requires Fresh(db) && CorrectFact(db, fk, sc, accepted).Ok? && site != fk.period.site && j > 0
    requires OnlyDerived(CorrectFact(db, fk, sc, accepted).value, e, fk.period.site, fk.period.number)
    ensures FreshAt(e, site, j)
  {
    var d := CorrectFact(db, fk, sc, accepted).value;
    assert FreshBelow(db, site, j + 1);
    assert FreshAt(db, site, j);
    CorrectedKeeps(db, fk, sc, accepted, site, j);
    forall i | 0 < i <= j
      ensures SameClosed(db, e, PeriodKey(site, i)) { assert SameClosed(db, d, PeriodKey(site, i)); }
    FreshAtFrame(db, e, site, j);
  }

  /** An admin correction with its cascade makes everything fresh again, in whatever order the
      periods were closed above the corrected one. */
  lemma CorrectFresh(db: Db, fk: FactKey, sc: real, accepted: real, now: Time)
    requires Base(db) && Fresh(db) && AdminCorrect(db, fk, sc, accepted, now).Ok?
    ensures Fresh(AdminCorrect(db, fk, sc, accepted, now).value)
  {
    var d, e := CorrectFact(db, fk, sc, accepted).value, AdminCorrect(db, fk, sc, accepted, now).value;
    var site, n := fk.period.site, fk.period.number;
    assert fk in db.facts && fk.period in db.periods;
    CorrectedFreshBelow(db, fk, sc, accepted);
    assert e == CascadeFrom(d, site, n, now);
    CascadeEqualsRecompute(d, site, n, now);
    hide CascadeFrom, CorrectFact, AdminCorrect, OnlyDerived, Base;
    forall s, m ensures FreshBelow(e, s, m) {
      if s != site {
        forall j | 0 < j < m ensures FreshAt(e, s, j) { CorrectedOther(db, e, fk, sc, accepted, s, j); }
      }
    }
  }

  // ---- runs ----

  lemma FreshStep(db: Db, op: Op, now: Time)
    requires Base(db) && Fresh(db) && Orderly(db, op)
    ensures Fresh(Apply(db, op, now))
  {
    match op
    case DoClosePeriod(k) =>
      if ClosePeriod(db, k, now).Ok? { CloseFresh(db, k, now); }
      hide ClosePeriod, Fresh;
    case DoCorrectFact(fk, sc, accepted) =>
      if AdminCorrect(db, fk, sc, accepted, now).Ok? { CorrectFresh(db, fk, sc, accepted, now); }
      hide AdminCorrect, Fresh;
    case _ =>
      hide Fresh, Apply;
      QuietFresh(db, op, now);
  }

  lemma {:induction false} FreshRun(db: Db, steps: seq<Step>)
    requires Base(db) && Fresh(db) && OrderlyRun(db, steps)
    ensures Fresh(Run(db, steps))
    decreases |steps|
  {
    hide Apply, Base, Fresh, Orderly;
    if steps != [] {
      BaseStep(db, steps[0].op, steps[0].now);
      FreshStep(db, steps[0].op, steps[0].now);
      FreshRun(Apply(db, steps[0].op, steps[0].now), steps[1..]);
    }
  }

  /** On every run that closes periods in number order, corrections and their cascades
      included, the stored pace rows and snapshots of all closed periods are those of a
      recomputation from scratch. */
  lemma OrderedRunsStayFresh(sites: map<int, Site>, steps: seq<Step>)
    requires OrderlyRun(EmptyDb(sites), steps)
    ensures Fresh(Run(EmptyDb(sites), steps))
  {
    FreshRun(EmptyDb(sites), steps);
  }

  // ---- closing out of order ----

  /** The next closed period after k. */
  ghost predicate IsNextClosed(db: Db, k: PeriodKey, next: int) {
    && k.number < next && IsClosed(db.periods, PeriodKey(k.site, next))
    && forall j | k.number < j < next :: !IsClosed(db.periods, PeriodKey(k.site, j))
  }

  /** Closing k makes it, instead of its own predecessor, the one before the next closed period. */
  lemma NewPredecessor(p: map<PeriodKey, Period>, k: PeriodKey, next: int, done: Period)
    requires 0 < k.number < next && !IsClosed(p, k) && ClosedStatus(done.status)
    requires forall j | k.number < j < next :: !IsClosed(p, PeriodKey(k.site, j))
    ensures PrevClosed(p, k.site, next) == PrevClosed(p, k.site, k.number)
    ensures PrevClosed(p[k := done], k.site, next) == k.number
  {
    var q := p[k := done];
    var m, a, b := PrevClosed(p, k.site, k.number), PrevClosed(p, k.site, next), PrevClosed(q, k.site, next);
    assert k == PeriodKey(k.site, k.number);
    assert IsClosed(q, PeriodKey(k.site, k.number));
  }

  /** Closing a period below an already closed one leaves the rows of the next closed period
      right exactly when no item of that period moved in the period being closed. */
  lemma LateCloseIsRightIff(db: Db, k: PeriodKey, now: Time, next: int)
    requires Fresh(db) && ClosePeriod(db, k, now).Ok? && IsNextClosed(db, k, next)
    ensures RowsFresh(ClosePeriod(db, k, now).value, PeriodKey(k.site, next))
      <==> forall fk | fk in RowKeys(PeriodKey(k.site, next), PeriodItems(db, PeriodKey(k.site, next))) ::
        Delta(db, k, fk.item) == 0.0
  {
    var d, e, q := MarkedClosed(db, k), ClosePeriod(db, k, now).value, PeriodKey(k.site, next);
    assert e == Recalculated(d, k, now) && k in db.periods && !ClosedStatus(db.periods[k].status) && k.number > 0;
    RecalculatedPeriods(d, k, now);
    assert e.facts == db.facts && e.versions == db.versions
      && e.periods == db.periods[k := db.periods[k].(status := Closed)];
    assert FreshBelow(db, k.site, next + 1) && FreshAt(db, k.site, next) && RowsFresh(db, q) && d.pace == db.pace;
    NewPredecessor(db.periods, k, next, db.periods[k].(status := Closed));
    hide ClosePeriod, Recalculated, MarkedClosed, Fresh, FreshBelow, FreshAt, IsNextClosed, PrevClosed, CloseError;
    assert PeriodItems(e, q) == PeriodItems(db, q);
    forall fk | fk in RowKeys(q, PeriodItems(db, q))
      ensures fk in e.pace && (e.pace[fk] == RowFor(e, q, fk.item) <==> Delta(db, k, fk.item) == 0.0)
    {
      RecalculatedRowKept(d, k, now, fk);
      LateRow(db, e, k, q, fk.item);
    }
    hide RowFor, Delta, PeriodItems;
  }

  lemma LateRow(db: Db, e: Db, k: PeriodKey, q: PeriodKey, item: int)
    requires q.site == k.site && k.number > 0 && q in db.periods && q in e.periods && e.facts == db.facts
    requires e.periods[q].plannedPause == db.periods[q].plannedPause
    requires PrevClosed(e.periods, k.site, q.number) == k.number
    requires PrevClosed(db.periods, k.site, q.number) == PrevClosed(db.periods, k.site, k.number)
    ensures RowFor(db, q, item) == RowFor(e, q, item) <==> Delta(db, k, item) == 0.0
  {
    hide PrevClosed;
    assert k == PeriodKey(k.site, k.number);
  }

  lemma RecalculatedRowKept(db: Db, k: PeriodKey, now: Time, fk: FactKey)
    requires fk.period != k
    ensures var e := Recalculated(db, k, now);
      (fk in e.pace <==> fk in db.pace) && (fk in db.pace ==> e.pace[fk] == db.pace[fk])
  {
    assert forall x | x in RowsFor(db, k) :: x.period == k;
    hide RowsFor, SnapshotFor, SpikesOf;
  }

  // ---- forcing in a closed period ----

  /** A figure forced in a closed period leaves the rows of that period right exactly when it
      leaves the effective volume alone: no cascade follows it. */
  lemma ForceKeepsRowsIff(db: Db, id: nat, pick: nat, now: Time)
    requires Base(db) && Fresh(db) && ForcesClosed(db, id, pick)
    ensures var fk := db.events[id].fact;
      RowsFresh(ProcessEvent(db, id, pick, now), fk.period) <==> ForceIsNeutral(db.facts, fk)
  {
    var e, fk := ProcessEvent(db, id, pick, now), db.events[id].fact;
    JobEffect(db, id, pick, now);
    JobTouches(db, id, pick, now);
    assert db.discrepancies[pick] in db.discrepancies && fk in db.facts;
    assert HasItem(PeriodItems(db, fk.period), fk.item) && fk.period.number >= 1;
    assert FreshBelow(db, fk.period.site, fk.period.number + 1) && FreshAt(db, fk.period.site, fk.period.number);
    hide ProcessEvent, Fresh, Base, FreshBelow, FreshAt, SnapFresh;
    var k := fk.period;
    assert fk in RowKeys(k, PeriodItems(db, k));
    assert PeriodItems(e, k) == PeriodItems(db, k) && e.pace == db.pace;
    forall x | x in RowKeys(k, PeriodItems(db, k))
      ensures RowFor(e, k, x.item) == RowFor(db, k, x.item) <==> x != fk || ForceIsNeutral(db.facts, fk)
    {
      ForcedRow(db, e, fk, x);
    }
    hide RowFor, PeriodItems, JobForces, ForceIsNeutral;
  }

  /** A figure forced in a closed period leaves everything stored right exactly when it leaves the
      effective volume alone. */
  lemma ForceKeepsFreshIff(db: Db, id: nat, pick: nat, now: Time)
    requires Base(db) && Fresh(db) && ForcesClosed(db, id, pick)
    ensures Fresh(ProcessEvent(db, id, pick, now)) <==> ForceIsNeutral(db.facts, db.events[id].fact)
  {
    assert id < |db.events|;
    hide ProcessEvent, Fresh, Base, ForceIsNeutral, JobForces, RowsFresh;
    ForceKeepsRowsIff(db, id, pick, now);
    if ForceIsNeutral(db.facts, db.events[id].fact) {
      JobApplied(db, id, pick, now);
      hide Apply;
      QuietFresh(db, DoRunJob(id, pick), now);
    } else {
      ForcedPeriod(db, id, pick, now);
      FreshRowsAt(ProcessEvent(db, id, pick, now), db.events[id].fact.period);
    }
  }

  lemma JobApplied(db: Db, id: nat, pick: nat, now: Time)
    ensures Apply(db, DoRunJob(id, pick), now) == ProcessEvent(db, id, pick, now)
  {
    hide ProcessEvent;
  }

  lemma FreshRowsAt(db: Db, k: PeriodKey)
    requires k.number > 0 && IsClosed(db.periods, k)
    ensures Fresh(db) ==> RowsFresh(db, k)
  {
    hide RowsFresh, SnapFresh;
    if Fresh(db) { assert FreshBelow(db, k.site, k.number + 1) && FreshAt(db, k.site, k.number); }
  }

  lemma ForcedPeriod(db: Db, id: nat, pick: nat, now: Time)
    requires Base(db) && ForcesClosed(db, id, pick)
    ensures var k := db.events[id].fact.period; k.number > 0 && IsClosed(ProcessEvent(db, id, pick, now).periods, k)
  {
    JobTouches(db, id, pick, now);
    hide ProcessEvent, JobForces;
  }

  lemma ForcedRow(db: Db, e: Db, fk: FactKey, x: FactKey)
    requires fk in db.facts && e.facts == db.facts[fk := Forced(db.facts[fk])] && e.periods == db.periods
    requires x.period == fk.period
    ensures RowFor(e, fk.period, x.item) == RowFor(db, fk.period, x.item) <==> x != fk || ForceIsNeutral(db.facts, fk)
  {
    var m := PrevClosed(db.periods, fk.period.site, fk.period.number);
    assert m == 0 || m < fk.period.number;
    hide PrevClosed;
    assert x == FactKey(fk.period, x.item);
  }
}

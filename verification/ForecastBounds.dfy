/** What the object forecast of a reachable state says about dates. */
module ForecastBounds {
  import opened Common
  import opened Store
  import opened Pace
  import opened Derived
  import opened BoqSpec
  import opened Runs
  import opened Lifecycle
  import opened BoqChain
  import opened PeriodSpec
  import opened CascadeTheorems
  import opened Telescoping
  import opened Freshness

  /** Going on at the given pace reaches the plan exactly at the forecast end, or has reached
      it already. */
  lemma PlanIsReachedAtEnd(plan: real, cumulative: real, pace: real, now: Time)
    requires pace > 0.0
    ensures var periods := (EndDate(plan, cumulative, pace, now) - now as real) / (PERIOD_LENGTH_DAYS * (DAY as real));
      cumulative + pace * periods == if cumulative < plan then plan else cumulative
  {
    var remaining := if plan - cumulative > 0.0 then plan - cumulative else 0.0;
    var q := remaining / pace;
    assert q * pace == remaining;
    var l := PERIOD_LENGTH_DAYS * (DAY as real);
    assert EndDate(plan, cumulative, pace, now) - now as real == q * l;
    assert (q * l) / l == q;
  }

  /** The gap flag is raised exactly when both dates exist and lie apart by the configured
      number of periods. */
  lemma GapFlagIff(weighted: Option<real>, critical: Option<real>, gapPeriods: real)
    ensures GapFlag(weighted, critical, gapPeriods) <==>
      weighted.Some? && critical.Some?
      && (critical.value - weighted.value >= gapPeriods * PERIOD_LENGTH_DAYS * (DAY as real)
          || weighted.value - critical.value >= gapPeriods * PERIOD_LENGTH_DAYS * (DAY as real))
  {
    if weighted.Some? && critical.Some? {
      var gap := Abs(critical.value - weighted.value);
      var q := gap / (DAY as real) / PERIOD_LENGTH_DAYS;
      assert gap == q * PERIOD_LENGTH_DAYS * (DAY as real);
      assert gap >= 0.0;
      assert q >= gapPeriods <==> gap >= gapPeriods * PERIOD_LENGTH_DAYS * (DAY as real);
    }
  }

  /** Forecast entries carry the weights of items, and end no earlier than now. */
  lemma {:induction false} EntriesBounded(db: Db, k: PeriodKey, items: seq<Item>, now: Time)
    requires forall x | x in items :: x.weight.Some? ==> 0.0 < x.weight.value <= 1.0
    ensures forall e | e in Entries(db, k, items, now) :: 0.0 < e.weight <= 1.0 && e.end >= now as real
  {
    if items != [] {
      assert items[0] in items && forall x | x in items[1..] :: x in items;
      EntriesBounded(db, k, items[1..], now);
      ItemEndNotPast(db, k, items[0], now);
      hide ItemEnd;
    }
  }

  lemma ItemEndNotPast(db: Db, k: PeriodKey, x: Item, now: Time)
    ensures ItemEnd(db, k, x, now).Some? ==> ItemEnd(db, k, x, now).value >= now as real
  {
    var pace, s := ItemPace(db, k, x.id), See(db.facts, FactKey(k, x.id));
    if pace > 0.0 && s.Some? { SlowerPaceLaterDate(x.plan, s.value.volume, pace, pace, now); }
    hide ItemPace, EndDate;
  }

  lemma ReachableItems(db: Db, k: PeriodKey)
    requires Base(db) && Chain(db.versions, db.nextItem) && k in db.periods
    ensures forall x | x in PeriodItems(db, k) :: x.weight.Some? && 0.0 < x.weight.value <= 1.0
  {
    assert LinkOk(db.versions, db.periods[k].version);
    hide Numbered, FactsOk, DisputesOk;
  }

  /** The date lies between the earliest and the latest of the entries, and not in the past. */
  ghost predicate Within(es: seq<Entry>, date: real, now: Time) {
    now as real <= date && (exists e | e in es :: e.end <= date) && (exists e | e in es :: date <= e.end)
  }

  /** The date is the latest end among the entries at or above the threshold, none if there is none. */
  ghost predicate LatestCritical(es: seq<Entry>, threshold: real, date: Option<real>) {
    match date
    case None => forall e | e in es :: e.weight < threshold
    case Some(d) =>
      (exists e | e in es :: e.weight >= threshold && e.end == d)
        && (forall e | e in es && e.weight >= threshold :: e.end <= d)
  }

  /** Both dates exist and lie apart by at least the number of periods of 30 days. */
  predicate Apart(weighted: Option<real>, critical: Option<real>, periods: real) {
    weighted.Some? && critical.Some?
    && (critical.value - weighted.value >= periods * 2_592_000_000.0
        || weighted.value - critical.value >= periods * 2_592_000_000.0)
  }

  ghost predicate ForecastOk(es: seq<Entry>, f: Forecast, threshold: real, gapPeriods: real, now: Time) {
    && (f.gapFlag <==> Apart(f.weightedDate, f.criticalDate, gapPeriods))
    && (f.weightedDate.Some? <==> es != [])
    && (f.weightedDate.Some? ==> Within(es, f.weightedDate.value, now))
    && LatestCritical(es, threshold, f.criticalDate)
    && (es != [] && (forall e | e in es :: e.weight >= threshold) ==> f.weightedDate.value <= f.criticalDate.value)
  }

  lemma GapIsApart(weighted: Option<real>, critical: Option<real>, periods: real)
    ensures GapFlag(weighted, critical, periods) <==> Apart(weighted, critical, periods)
  {
    GapFlagIff(weighted, critical, periods);
    var limit := periods * PERIOD_LENGTH_DAYS * (DAY as real);
    assert limit == periods * 2_592_000_000.0;
    hide GapFlag;
  }

  /** The flag of a forecast is about the dates of that forecast. */
  lemma ForecastGap(es: seq<Entry>, cfg: Config)
    ensures var f := ForecastFrom(es, cfg); f.gapFlag <==> Apart(f.weightedDate, f.criticalDate, cfg.forecastGapPeriods)
  {
    GapIsApart(WeightedDate(es), CriticalDate(es, cfg.weightThreshold, None), cfg.forecastGapPeriods);
    hide GapFlag, Apart, WeightedDate, CriticalDate;
  }

  lemma {:induction false} ForecastOf(es: seq<Entry>, cfg: Config, now: Time)
    requires forall e | e in es :: 0.0 < e.weight <= 1.0 && e.end >= now as real
    ensures ForecastOk(es, ForecastFrom(es, cfg), cfg.weightThreshold, cfg.forecastGapPeriods, now)
  {
    ForecastGap(es, cfg);
    hide GapFlag, Apart;
    CriticalDateIsMaximum(es, cfg.weightThreshold, None);
    if es != [] {
      var least, greatest := WeightedDateBetween(es);
      assert least.end >= now as real;
      hide CriticalDate;
      if forall e | e in es :: e.weight >= cfg.weightThreshold { assert greatest.weight >= cfg.weightThreshold; }
    }
  }

  /** In every reachable state and for every period: the weighted date exists exactly when some
      item has a forecast, lies between the earliest and the latest of them and not in the past;
      the critical date is the latest among the items at or above the threshold, and not before
      the weighted date when all of them are; the gap flag is raised exactly when both dates exist
      and lie apart by the configured number of periods of 30 days. */
  lemma ReachableForecast(sites: map<int, Site>, steps: seq<Step>, k: PeriodKey, now: Time)
    requires k in Run(EmptyDb(sites), steps).periods
    ensures var db := Run(EmptyDb(sites), steps);
      ForecastOk(Entries(db, k, PeriodItems(db, k), now), ObjectForecast(db, k, now),
        ConfigOf(db, k.site).weightThreshold, ConfigOf(db, k.site).forecastGapPeriods, now)
  {
    var db := Run(EmptyDb(sites), steps);
    EmptyBase(sites);
    AscendRun(EmptyDb(sites), steps);
    hide Run;
    ReachableItems(db, k);
    hide Base, Chain;
    EntriesBounded(db, k, PeriodItems(db, k), now);
    ForecastOf(Entries(db, k, PeriodItems(db, k), now), ConfigOf(db, k.site), now);
    hide Entries, ForecastFrom, ConfigOf, ForecastOk;
  }

  // ---- stored snapshots ----

  /** The stored flag of every snapshot is about its stored dates. */
  ghost predicate GapsOk(db: Db) {
    forall k | k in db.snaps ::
      db.snaps[k].gapFlag <==>
      Apart(db.snaps[k].weightedDate, db.snaps[k].criticalDate, ConfigOf(db, k.site).forecastGapPeriods)
  }

  lemma SnapshotGap(db: Db, k: PeriodKey, now: Time)
    ensures var s := SnapshotFor(db, k, now);
      s.gapFlag <==> Apart(s.weightedDate, s.criticalDate, ConfigOf(db, k.site).forecastGapPeriods)
  {
    ForecastGap(Entries(db, k, PeriodItems(db, k), now), ConfigOf(db, k.site));
    hide Entries, ForecastFrom, Apart, Readiness, ConfigOf;
  }

  lemma RecalculatedGaps(db: Db, k: PeriodKey, now: Time)
    requires GapsOk(db)
    ensures GapsOk(Recalculated(db, k, now))
  {
    var w, e := WithRows(db, k), Recalculated(db, k, now);
    SnapshotGap(w, k, now);
    assert e.snaps == db.snaps[k := SnapshotFor(w, k, now)] && e.sites == db.sites && w.sites == db.sites by {
      hide SnapshotFor, RowsFor, SpikesOf;
    }
    hide Recalculated, SnapshotFor, WithRows, Apart;
  }

  lemma {:induction false} CascadeGaps(db: Db, site: int, numbers: seq<int>, now: Time)
    requires GapsOk(db)
    ensures GapsOk(Cascade(db, site, numbers, now))
    decreases |numbers|
  {
    hide Recalculated, GapsOk;
    if numbers != [] {
      RecalculatedGaps(db, PeriodKey(site, numbers[0]), now);
      CascadeGaps(Recalculated(db, PeriodKey(site, numbers[0]), now), site, numbers[1..], now);
    }
  }

  lemma CloseGaps(db: Db, k: PeriodKey, now: Time)
    requires GapsOk(db)
    ensures GapsOk(ClosePeriod(db, k, now).Or(db))
  {
    hide Recalculated, HasOpenDiscrepancy, Apart;
    if ClosePeriod(db, k, now).Ok? { RecalculatedGaps(MarkedClosed(db, k), k, now); }
  }

  lemma CorrectGaps(db: Db, fk: FactKey, sc: real, accepted: real, now: Time)
    requires GapsOk(db)
    ensures GapsOk(AdminCorrect(db, fk, sc, accepted, now).Or(db))
  {
    hide Cascade, ClosedFrom, LastNumber, Apart;
    var r := CorrectFact(db, fk, sc, accepted);
    if r.Ok? {
      var d, site, n := r.value, fk.period.site, fk.period.number;
      CascadeGaps(d, site, ClosedFrom(d.periods, site, n, LastNumber(d.periods, site)), now);
    }
  }

  lemma OtherGaps(db: Db, op: Op, now: Time)
    requires GapsOk(db) && !op.DoClosePeriod? && !op.DoCorrectFact?
    ensures GapsOk(Apply(db, op, now))
  {
    Footprint(db, op, now);
    hide Apply, Apart;
  }

  lemma GapsStep(db: Db, op: Op, now: Time)
    requires GapsOk(db)
    ensures GapsOk(Apply(db, op, now))
  {
    hide GapsOk;
    match op
    case DoClosePeriod(k) => CloseGaps(db, k, now); hide ClosePeriod;
    case DoCorrectFact(fk, sc, accepted) => CorrectGaps(db, fk, sc, accepted, now); hide AdminCorrect;
    case _ => OtherGaps(db, op, now); hide Apply;
  }

  lemma {:induction false} GapsRun(db: Db, steps: seq<Step>)
    requires GapsOk(db)
    ensures GapsOk(Run(db, steps))
    decreases |steps|
  {
    hide Apply, GapsOk;
    if steps != [] {
      GapsStep(db, steps[0].op, steps[0].now);
      GapsRun(Apply(db, steps[0].op, steps[0].now), steps[1..]);
    }
  }

  /** Every snapshot ever stored raises its flag exactly when its own two dates exist and lie apart
      by the configured number of periods of 30 days. */
  lemma StoredFlagsAreRight(sites: map<int, Site>, steps: seq<Step>, i: nat, k: PeriodKey)
    requires i <= |steps| && k in Before(EmptyDb(sites), steps, i).snaps
    ensures var db := Before(EmptyDb(sites), steps, i);
      db.snaps[k].gapFlag <==>
      Apart(db.snaps[k].weightedDate, db.snaps[k].criticalDate, ConfigOf(db, k.site).forecastGapPeriods)
  {
    GapsRun(EmptyDb(sites), steps[..i]);
    hide Run, Apart;
  }

  lemma AfterRows(d: Db, k: PeriodKey, now: Time)
    requires Shape(d) && IsClosed(d.periods, k)
    ensures var w, e := WithRows(d, k), Recalculated(d, k, now);
      && PeriodItems(e, k) == PeriodItems(w, k) && ConfigOf(e, k.site) == ConfigOf(w, k.site)
      && Entries(e, k, PeriodItems(w, k), now) == Entries(w, k, PeriodItems(w, k), now)
      && k in e.snaps && e.snaps[k] == SnapshotFor(w, k, now)
  {
    var w, e := WithRows(d, k), Recalculated(d, k, now);
    WithRowsShape(d, k);
    assert e == w.(snaps := e.snaps, spikes := e.spikes) && k in e.snaps && e.snaps[k] == SnapshotFor(w, k, now) by {
      hide SnapshotFor, WithRows, SpikesOf, Shape;
    }
    assert IsClosed(w.periods, k);
    hide WithRows, Recalculated, SnapshotFor;
    EntriesFrame(w, e, k, PeriodItems(w, k), now);
  }

  function ForecastIn(s: Snapshot): Forecast { Forecast(s.weightedDate, s.criticalDate, s.gapFlag) }

  /** A recalculation stores the forecast of the state that it leaves. */
  lemma StoredForecast(d: Db, k: PeriodKey, now: Time)
    requires Shape(d) && IsClosed(d.periods, k)
    ensures var e := Recalculated(d, k, now);
      k in e.snaps && ForecastIn(e.snaps[k]) == ForecastFrom(Entries(e, k, PeriodItems(e, k), now), ConfigOf(e, k.site))
  {
    AfterRows(d, k, now);
    hide Entries, ForecastFrom, Readiness, Recalculated, WithRows, PeriodItems, ConfigOf, Shape;
  }

  /** The snapshot of the period holds the dates and the flag of a forecast of its items. */
  ghost predicate HoldsForecast(e: Db, k: PeriodKey, now: Time) {
    var cfg := ConfigOf(e, k.site);
    k in e.snaps
    && ForecastOk(Entries(e, k, PeriodItems(e, k), now), ForecastIn(e.snaps[k]), cfg.weightThreshold,
                  cfg.forecastGapPeriods, now)
  }

  /** The snapshot that closing a period stores holds a forecast of the items as they stand then. */
  lemma ClosedForecast(sites: map<int, Site>, steps: seq<Step>, k: PeriodKey, now: Time)
    requires ClosePeriod(Run(EmptyDb(sites), steps), k, now).Ok?
    ensures HoldsForecast(ClosePeriod(Run(EmptyDb(sites), steps), k, now).value, k, now)
  {
    RunShape(sites, steps);
    ClosedForecastOf(Run(EmptyDb(sites), steps), k, now);
    hide Run, EmptyDb, Base, Chain, Shape, HoldsForecast, ClosePeriod;
  }

  lemma RunShape(sites: map<int, Site>, steps: seq<Step>)
    ensures var db := Run(EmptyDb(sites), steps); Base(db) && Chain(db.versions, db.nextItem) && Shape(db)
  {
    EmptyBase(sites);
    assert Shape(EmptyDb(sites)) && Chain(EmptyDb(sites).versions, 1) && VersionsAscend(EmptyDb(sites).periods);
    hide Run, Base, Chain, Shape, VersionsAscend;
    AscendRun(EmptyDb(sites), steps);
    ShapeRun(EmptyDb(sites), steps);
  }

  lemma ClosedIsRecalculated(db: Db, k: PeriodKey, now: Time)
    requires ClosePeriod(db, k, now).Ok?
    ensures k in db.periods && ClosePeriod(db, k, now).value == Recalculated(MarkedClosed(db, k), k, now)
    ensures ClosePeriod(db, k, now).value == Apply(db, DoClosePeriod(k), now)
  {
    hide Recalculated, HasOpenDiscrepancy;
  }

  lemma ClosedForecastOf(db: Db, k: PeriodKey, now: Time)
    requires Base(db) && Chain(db.versions, db.nextItem) && Shape(db) && ClosePeriod(db, k, now).Ok?
    ensures HoldsForecast(ClosePeriod(db, k, now).value, k, now)
  {
    hide ClosePeriod, Recalculated, Base, Chain, Apply, Shape, Entries, ForecastFrom, ConfigOf, ForecastOk, PeriodItems,
      MarkedClosed;
    ClosedIsRecalculated(db, k, now);
    var d, e := MarkedClosed(db, k), ClosePeriod(db, k, now).value;
    MarkedShape(db, k);
    StoredForecast(d, k, now);
    BaseStep(db, DoClosePeriod(k), now);
    ChainStep(db, DoClosePeriod(k), now);
    RecalculatedPeriods(d, k, now);
    ReachableItems(e, k);
    EntriesBounded(e, k, PeriodItems(e, k), now);
    ForecastOf(Entries(e, k, PeriodItems(e, k), now), ConfigOf(e, k.site), now);
  }
}

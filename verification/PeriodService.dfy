/** The period service, proved against the steps of PeriodSpec. */
module PeriodServices {
  import opened Common
  import opened Store
  import opened Pace
  import opened Derived
  import opened PeriodSpec
  import opened WorkPaceServices

  /** The rows of the first items of a version, while they are being written. */
  ghost function RowsForItems(db: Db, k: PeriodKey, items: seq<Item>): map<FactKey, PaceRow> {
    map fk | fk in RowKeys(k, items) :: RowFor(db, k, fk.item)
  }

  lemma RowsForItemsStep(db: Db, k: PeriodKey, items: seq<Item>, i: nat)
    requires i < |items|
    ensures var fk := FactKey(k, items[i].id);
      RowsForItems(db, k, items[..i + 1]) == RowsForItems(db, k, items[..i])[fk := RowFor(db, k, items[i].id)]
  {
    assert items[..i + 1] == items[..i] + [items[i]];
    var fk := FactKey(k, items[i].id);
    assert RowKeys(k, items[..i + 1]) == RowKeys(k, items[..i]) + {fk};
  }

  lemma Override<K, V>(a: map<K, V>, b: map<K, V>, k: K, v: V)
    ensures (a + b)[k := v] == a + b[k := v]
  {
  }

  /** The old snapshot is not read when the new one is computed. */
  lemma WithoutSnapshot(d: Db, k: PeriodKey, now: Time)
    ensures var v := d.(snaps := d.snaps - {k});
      && Readiness(v, k) == Readiness(WithRows(d, k), k)
      && WithRows(v, k) == WithRows(d, k).(snaps := v.snaps) && WithRows(d, k).snaps == d.snaps
      && PeriodItems(v, k) == PeriodItems(WithRows(d, k), k) == PeriodItems(WithRows(v, k), k)
      && ObjectForecast(WithRows(v, k), k, now) == ObjectForecast(WithRows(d, k), k, now)
      && SpikesOf(WithRows(v, k), k, PeriodItems(v, k)) == SpikesOf(WithRows(d, k), k, PeriodItems(v, k))
  {
    var v := d.(snaps := d.snaps - {k});
    assert forall item :: RowFor(v, k, item) == RowFor(d, k, item);
    assert RowsFor(v, k) == RowsFor(d, k);
    ForecastReads(WithRows(d, k), WithRows(v, k), k, PeriodItems(d, k), now);
  }

  lemma Assembled(d: Db, k: PeriodKey, now: Time)
    ensures var w := WithRows(d, k);
      var f := ObjectForecast(w, k, now);
      Recalculated(d, k, now) == w.(
        snaps := (d.snaps - {k})[k := Snapshot(Readiness(w, k), f.weightedDate, f.criticalDate, f.gapFlag, now)],
        spikes := w.spikes + SpikesOf(w, k, PeriodItems(w, k)))
  {
    var s := SnapshotFor(WithRows(d, k), k, now);
    assert (d.snaps - {k})[k := s] == d.snaps[k := s];
  }

  class PeriodService {
    const db: Database
    const workPace: WorkPaceService

    constructor (db: Database, workPace: WorkPaceService)
      requires workPace.db == db
      ensures this.db == db && this.workPace == workPace
    {
      this.db := db;
      this.workPace := workPace;
    }

    method OpenPeriod(site: int, plannedPause: bool, pauseReason: Option<string>, lockFree: bool, now: Time)
        returns (e: Option<Error>)
      modifies db
      ensures var r := PeriodSpec.OpenPeriod(old(db.View()), site, plannedPause, pauseReason, lockFree, now);
        e == r.Error() && db.View() == r.Or(old(db.View()))
    {
      if plannedPause {
        if pauseReason.None? || pauseReason.value !in PAUSE_REASONS { return Some(InvalidPauseReason); }
      }
      if !lockFree { return Some(PeriodLockTimeout); }
      if site !in db.sites { return Some(RowNotFound); }
      if !HasApprovedReport(db.View(), site) { return Some(ZeroReportNotApproved); }
      if HasOpenPeriod(db.periods, site) { return Some(PeriodAlreadyOpen); }
      var last := LastNumber(db.periods, site);
      var v := ActiveVersion(db.versions, site);
      if v.None? { return Some(RowNotFound); }
      db.periods := db.periods[PeriodKey(site, last + 1) := Period(v.value, Open, plannedPause,
        Some(now + GP_TOKEN_EXPIRES), None)];
      return None;
    }

    method SubmitGp(k: PeriodKey, xs: seq<GpItem>, now: Time) returns (e: Option<Error>)
      modifies db
      ensures var r := PeriodSpec.SubmitGp(old(db.View()), k, xs, now);
        e == r.Error() && db.View() == r.Or(old(db.View()))
    {
      if k !in db.periods { return Some(GpTokenNotFound); }
      var p := db.periods[k];
      if TokenError(p, now).Some? { return TokenError(p, now); }
      if p.status != Open { return Some(PeriodWrongStatus); }
      if exists x | x in xs :: x.extraField { return Some(ProtectedField); }
      if exists x | x in xs :: !FactAllowed(db.View(), k, x.item, x.gp) { return Some(ConstraintViolation); }
      ghost var d := db.View();
      for i := 0 to |xs|
        invariant db.View() == d.(facts := db.facts)
        invariant WithGpItems(db.facts, k, xs[i..]) == WithGpItems(d.facts, k, xs)
      {
        var fk := FactKey(k, xs[i].item);
        assert xs[i..][0] == xs[i] && xs[i..][1..] == xs[i + 1..];
        if fk in db.facts {
          var f := db.facts[fk];
          db.facts := db.facts[fk := Bumped(f, f.(gp := xs[i].gp, gpNote := xs[i].note))];
        } else {
          db.facts := db.facts[fk := NEW_FACT.(gp := xs[i].gp, gpNote := xs[i].note)];
        }
      }
      db.periods := db.periods[k := p.(gpSubmittedAt := Some(now), status := GpSubmitted)];
      return None;
    }

    method UpsertPeriodFact(k: PeriodKey, item: int, sc: real, opts: UpsertOpts, now: Time) returns (e: Option<Error>)
      modifies db`facts, db`periods
      ensures var r := UpsertFact(old(db.View()), k, item, sc, opts, now);
        e == r.Error() && db.View() == r.Or(old(db.View()))
    {
      if k !in db.periods { return Some(RowNotFound); }
      var p := db.periods[k];
      if ClosedStatus(p.status) { return Some(PeriodAlreadyClosed); }
      var noTemplateInput := p.status == Open && p.tokenExpiresAt.Some? && p.tokenExpiresAt.value < now;
      if !noTemplateInput && p.status != GpSubmitted && p.status != Verification { return Some(PeriodWrongStatus); }
      if opts.workAccessible == Some(false) {
        if (k, Some(item)) !in db.photos { return Some(Type2PhotoRequired); }
      }
      var fk := FactKey(k, item);
      var existing: Option<Fact> := if fk in db.facts then Some(db.facts[fk]) else None;
      if opts.expectedVersion.Some? {
        var serverVersion := if existing.Some? then existing.value.version else 0;
        if serverVersion != opts.expectedVersion.value {
          return Some(VersionConflict(if existing.Some? then existing.value.sc else None, serverVersion));
        }
      }
      if !FactAllowed(db.View(), k, item, Some(sc)) { return Some(ConstraintViolation); }
      var discType, discStatus, accepted := Some(1), Some(FactOpen), None;
      if existing.Some? && existing.value.gp == Some(sc) {
        discType, discStatus, accepted := None, Some(FactConfirmed), Some(sc);
      }
      var before := if existing.Some? then existing.value else NEW_FACT;
      var after := before.(sc := Some(sc), discType := discType, discStatus := discStatus, accepted := accepted,
                           spikeResponse := opts.spikeResponse);
      db.facts := db.facts[fk := if existing.Some? then Bumped(before, after) else after];
      if p.status == GpSubmitted {
        db.periods := db.periods[k := p.(status := Verification)];
      }
      return None;
    }

    method RecordWorkPaceDeltas(k: PeriodKey)
      requires k in db.periods
      modifies db`pace
      ensures db.View() == WithRows(old(db.View()), k)
    {
      ghost var d := db.View();
      var period := db.periods[k];
      var items := PeriodItems(db.View(), k);
      for i := 0 to |items|
        invariant db.View() == d.(pace := db.pace)
        invariant db.pace == d.pace + RowsForItems(d, k, items[..i])
      {
        var item := items[i].id;
        var cumulative := Volume(db.facts, FactKey(k, item));
        var prev := PrevClosed(db.periods, k.site, k.number);
        var prevCumulative := 0.0;
        if prev != 0 {
          prevCumulative := Volume(db.facts, FactKey(PeriodKey(k.site, prev), item));
        }
        var delta := cumulative - prevCumulative;
        assert PaceRow(delta, delta, period.plannedPause) == RowFor(d, k, item);
        RowsForItemsStep(d, k, items, i);
        hide RowsForItems, RowFor;
        Override(d.pace, RowsForItems(d, k, items[..i]), FactKey(k, item), RowFor(d, k, item));
        db.pace := db.pace[FactKey(k, item) := PaceRow(delta, delta, period.plannedPause)];
      }
      assert items[..|items|] == items;
    }

    /** Adds the facts of the period, in whatever order the store returns them. */
    method CalcReadiness(k: PeriodKey) returns (readiness: real)
      requires FactsFit(db.View()) && k in db.periods
      ensures readiness == Readiness(db.View(), k)
    {
      var items, facts := PeriodItems(db.View(), k), db.facts;
      assert DistinctItems(items) && forall fk | fk in facts && fk.period == k :: HasItem(items, fk.item);
      var rest := set fk | fk in facts && fk.period == k;
      readiness := 0.0;
      AllFacts(facts, rest, k, items);
      hide ReadinessSum, ReadinessTerm, FactsFit, PeriodItems, DistinctItems, HasItem, Only;
      while rest != {}
        invariant forall fk | fk in rest :: fk in facts && fk.period == k
        invariant readiness + ReadinessSum(Only(facts, rest), k, items) == ReadinessSum(facts, k, items)
      {
        var fk :| fk in rest;
        TakeFact(facts, rest, k, items, fk);
        rest := rest - {fk};
        var x := ItemWith(items, fk.item);
        SkippedTerm(x, See(facts, fk));
        if x.plan <= 0.0 || x.weight.None? { continue; }
        var term := CappedTerm(x, facts[fk]);
        readiness := readiness + term;
      }
      NoFactsNoReadiness(Only(facts, {}), k, items) by { assert Only(facts, {}) == map[]; }
      return ((readiness * 100.0 + 0.5).Floor as real) / 100.0;
    }

    /** The capped percentage of one fact, times the weight of its item. */
    method CappedTerm(x: Item, f: Fact) returns (term: real)
      requires x.plan > 0.0 && x.weight.Some?
      ensures term == ReadinessTerm(x, Some(Seen(EffectiveVolume(f), f.spikeResponse)))
    {
      var pct := EffectiveVolume(f) / x.plan * 100.0;
      if pct >= 100.0 { pct := 100.0; }
      return pct * x.weight.value;
    }

    method ClosePeriod(k: PeriodKey, now: Time) returns (e: Option<Error>)
      requires workPace.db == db && FactsFit(db.View())
      modifies db
      ensures var r := PeriodSpec.ClosePeriod(old(db.View()), k, now);
        e == r.Error() && db.View() == r.Or(old(db.View()))
    {
      if k !in db.periods { return Some(RowNotFound); }
      var p := db.periods[k];
      if ClosedStatus(p.status) { return Some(PeriodAlreadyClosed); }
      if p.status != Verification { return Some(PeriodWrongStatus); }
      if HasOpenDiscrepancy(db.View(), k) { return Some(OpenDiscrepanciesExist); }
      if k in db.snaps { return Some(ConstraintViolation); } // one snapshot per period
      ghost var before := db.View();
      db.periods := db.periods[k := p.(status := Closed)];
      ClosingFits(before, k);
      var readinessPct := CalcReadiness(k);
      RecordWorkPaceDeltas(k);
      var forecast := workPace.CalcObjectForecast(k, now);
      db.snaps := db.snaps[k := Snapshot(readinessPct, forecast.weightedDate, forecast.criticalDate,
        forecast.gapFlag, now)];
      return None;
    }

    /** One transaction of the cascade. */
    method Recalculate(k: PeriodKey, now: Time)
      requires workPace.db == db && k in db.periods && FactsFit(db.View())
      modifies db`snaps, db`pace, db`spikes
      ensures db.View() == Recalculated(old(db.View()), k, now)
    {
      ghost var d := db.View();
      WithoutSnapshot(d, k, now);
      hide Readiness, WithRows, ObjectForecast, SpikesOf, PeriodItems, Recalculated;
      db.snaps := db.snaps - {k};
      SameFit(d, db.View());
      var readinessPct := CalcReadiness(k);
      RecordWorkPaceDeltas(k);
      var forecast := workPace.CalcObjectForecast(k, now);
      db.snaps := db.snaps[k := Snapshot(readinessPct, forecast.weightedDate, forecast.criticalDate,
        forecast.gapFlag, now)];
      Assembled(d, k, now);
    }

    method RecalcSnapshotCascade(site: int, fromNumber: int, now: Time)
      requires workPace.db == db && FactsFit(db.View())
      modifies db`snaps, db`pace, db`spikes
      ensures db.View() == CascadeFrom(old(db.View()), site, fromNumber, now)
    {
      ghost var d := db.View();
      var numbers := ClosedFrom(db.periods, site, fromNumber, LastNumber(db.periods, site));
      AllClosed(db.periods, site, fromNumber, LastNumber(db.periods, site));
      for i := 0 to |numbers|
        invariant db.View() == d.(snaps := db.snaps, pace := db.pace, spikes := db.spikes)
        invariant Cascade(db.View(), site, numbers[i..], now) == Cascade(d, site, numbers, now)
      {
        assert numbers[i] in numbers;
        assert numbers[i..][0] == numbers[i] && numbers[i..][1..] == numbers[i + 1..];
        SameFit(d, db.View());
        Recalculate(PeriodKey(site, numbers[i]), now);
      }
    }

    method AdminCorrectFact(fk: FactKey, sc: real, accepted: real, now: Time) returns (e: Option<Error>)
      requires workPace.db == db && FactsFit(db.View())
      modifies db
      ensures var r := AdminCorrect(old(db.View()), fk, sc, accepted, now);
        e == r.Error() && db.View() == r.Or(old(db.View()))
    {
      if fk !in db.facts { return Some(RowNotFound); }
      if sc < 0.0 || accepted < 0.0 { return Some(ConstraintViolation); }
      ghost var before := db.View();
      var f := db.facts[fk];
      db.facts := db.facts[fk := Bumped(f, f.(sc := Some(sc), accepted := Some(accepted)))];
      SameFit(before, db.View());
      RecalcSnapshotCascade(fk.period.site, fk.period.number, now);
      return None;
    }
  }

  lemma SkippedTerm(x: Item, s: Option<Seen>)
    ensures x.plan <= 0.0 || x.weight.None? ==> ReadinessTerm(x, s) == 0.0
  {
  }

  lemma AllFacts(facts: map<FactKey, Fact>, all: set<FactKey>, k: PeriodKey, items: seq<Item>)
    requires forall fk :: fk in all <==> fk in facts && fk.period == k
    ensures ReadinessSum(Only(facts, all), k, items) == ReadinessSum(facts, k, items)
  {
    var d := EmptyDb(map[]);
    ReadinessFrame(d.(facts := facts), d.(facts := Only(facts, all)), k, items);
  }

  lemma TakeFact(facts: map<FactKey, Fact>, rest: set<FactKey>, k: PeriodKey, items: seq<Item>, fk: FactKey)
    requires DistinctItems(items) && fk in rest && fk in facts && fk.period == k && HasItem(items, fk.item)
    ensures ReadinessSum(Only(facts, rest), k, items) ==
      ReadinessTerm(ItemWith(items, fk.item), See(facts, fk)) + ReadinessSum(Only(facts, rest - {fk}), k, items)
  {
    ReadinessOfFact(Only(facts, rest), k, items, fk);
    assert Only(facts, rest) - {fk} == Only(facts, rest - {fk});
    hide ReadinessSum, ReadinessTerm;
  }

  lemma SameFit(d: Db, e: Db)
    requires FactsFit(d) && e.periods == d.periods && e.versions == d.versions && e.facts.Keys == d.facts.Keys
    ensures FactsFit(e)
  {
    assert forall k :: PeriodItems(e, k) == PeriodItems(d, k);
    hide PeriodItems, DistinctItems, HasItem;
  }

  lemma ClosingFits(d: Db, k: PeriodKey)
    requires FactsFit(d) && k in d.periods
    ensures FactsFit(MarkedClosed(d, k))
  {
    var e := MarkedClosed(d, k);
    assert forall j :: PeriodItems(e, j) == PeriodItems(d, j);
    hide PeriodItems, DistinctItems, HasItem;
  }

  lemma {:induction false} AllClosed(periods: map<PeriodKey, Period>, site: int, n: int, last: int)
    ensures forall j | j in ClosedFrom(periods, site, n, last) :: PeriodKey(site, j) in periods
    decreases last - n
  {
    if n <= last { AllClosed(periods, site, n + 1, last); }
  }
}

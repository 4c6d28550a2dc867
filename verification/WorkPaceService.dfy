/** Pace and forecast as the service computes them, step by step over the stored rows. */
module WorkPaceServices {
  import opened Common
  import opened Store
  import opened Pace
  import opened Derived

  /** The two stores agree on every table that the forecast reads. */
  ghost predicate SameReads(d: Db, e: Db) {
    d.sites == e.sites && d.versions == e.versions && d.periods == e.periods && d.facts == e.facts && d.pace == e.pace
  }

  lemma {:induction false} WindowReads(d: Db, e: Db, site: int, item: int, n: int, take: nat)
    requires SameReads(d, e)
    ensures Window(d, site, item, n, take) == Window(e, site, item, n, take)
    decreases n
  {
    if n > 0 && take > 0 {
      WindowReads(d, e, site, item, n - 1, take);
      WindowReads(d, e, site, item, n - 1, take - 1);
    }
  }

  lemma {:induction false} CleanReads(d: Db, e: Db, site: int, item: int, w: seq<int>)
    requires SameReads(d, e)
    ensures Clean(d, site, item, w) == Clean(e, site, item, w)
    ensures Volumes(d, site, item, w) == Volumes(e, site, item, w)
  {
    if w != [] { CleanReads(d, e, site, item, w[1..]); }
  }

  lemma ItemReads(d: Db, e: Db, k: PeriodKey, x: Item, now: Time)
    requires SameReads(d, e)
    ensures ItemEnd(d, k, x, now) == ItemEnd(e, k, x, now)
    ensures SpikeOf(d, k, x.id) == SpikeOf(e, k, x.id)
  {
    var n, take := k.number, ConfigOf(d, k.site).avgPacePeriods;
    WindowReads(d, e, k.site, x.id, n, take);
    CleanReads(d, e, k.site, x.id, Window(d, k.site, x.id, n, take));
    CleanReads(d, e, k.site, x.id, CleanWindow(d, k, x.id));
  }

  lemma {:induction false} ForecastReads(d: Db, e: Db, k: PeriodKey, items: seq<Item>, now: Time)
    requires SameReads(d, e)
    ensures Entries(d, k, items, now) == Entries(e, k, items, now)
    ensures SpikesOf(d, k, items) == SpikesOf(e, k, items)
  {
    if items != [] {
      ItemReads(d, e, k, items[0], now);
      ForecastReads(d, e, k, items[1..], now);
    }
  }

  /** Adds volumes to a running sum with weights d^k, d^(k+1), ... */
  method Accumulate(vs: seq<real>, d: real, k: nat, sum0: real, total0: real) returns (sum: real, total: real)
    ensures sum == sum0 + WeightedSum(vs, d, k)
    ensures total == total0 + WeightTotal(|vs|, d, k)
  {
    sum, total := sum0, total0;
    for i := 0 to |vs|
      invariant sum + WeightedSum(vs[i..], d, k + i) == sum0 + WeightedSum(vs, d, k)
      invariant total + WeightTotal(|vs| - i, d, k + i) == total0 + WeightTotal(|vs|, d, k)
    {
      var weight := Pow(d, k + i);
      sum := sum + vs[i] * weight;
      total := total + weight;
      assert vs[i..][1..] == vs[i + 1..];
    }
  }

  method Undamped(vs: seq<real>, d: real) returns (pace: real)
    ensures pace == Mean(vs, d)
  {
    var sum, total := Accumulate(vs, d, 0, 0.0, 0.0);
    pace := if total > 0.0 then sum / total else 0.0;
  }

  /** The pace after a spike: the latest period leaves the window or keeps half its weight. */
  method Damp(vs: seq<real>, d: real, response: Option<SpikeResponse>) returns (pace: real)
    requires vs != []
    ensures pace == if response == Some(DataEntryError) then Excluded(vs, d) else Halved(vs, d)
  {
    var pw, w;
    if response == Some(DataEntryError) {
      pw, w := Accumulate(vs[1..], d, 0, 0.0, 0.0);
    } else {
      pw, w := Accumulate(vs[1..], d, 1, vs[0] * 0.5, 0.5);
    }
    pace := if w > 0.0 then pw / w else 0.0;
  }

  /** Adds one item's forecast to the running sums and the running maximum. */
  method AddEntry(e: Entry, threshold: real, sum0: real, total0: real, best: Option<real>)
    returns (sum: real, total: real, critical: Option<real>)
    ensures sum == sum0 + Contribution(e) && total == total0 + e.weight
    ensures critical == Later(best, e, threshold)
  {
    sum := sum0 + e.end * e.weight;
    total := total0 + e.weight;
    critical := best;
    if e.weight >= threshold {
      if best.None? || e.end > best.value { critical := Some(e.end); }
    }
  }

  lemma EntriesNone(d: Db, k: PeriodKey, now: Time)
    ensures Entries(d, k, [], now) == [] && SpikesOf(d, k, []) == {}
    ensures SumEnds([]) == 0.0 && SumWeights([]) == 0.0
    ensures forall t, best :: CriticalDate([], t, best) == best
  {
  }

  lemma EntriesStep(d: Db, k: PeriodKey, items: seq<Item>, now: Time, threshold: real, best: Option<real>)
    requires items != []
    ensures var x, rest, es := items[0], Entries(d, k, items[1..], now), Entries(d, k, items, now);
      if InForecast(x) && ItemEnd(d, k, x, now).Some? then
        var e := Entry(x.weight.value, ItemEnd(d, k, x, now).value);
        && SumEnds(es) == Contribution(e) + SumEnds(rest)
        && SumWeights(es) == e.weight + SumWeights(rest)
        && CriticalDate(es, threshold, best) == CriticalDate(rest, threshold, Later(best, e, threshold))
      else es == rest
    ensures SpikesOf(d, k, items) == (if InForecast(items[0]) then SpikeOf(d, k, items[0].id)
      else {}) + SpikesOf(d, k, items[1..])
  {
    var x, rest := items[0], Entries(d, k, items[1..], now);
    if InForecast(x) && ItemEnd(d, k, x, now).Some? {
      var e := Entry(x.weight.value, ItemEnd(d, k, x, now).value);
      assert ([e] + rest)[1..] == rest;
    }
  }

  class WorkPaceService {
    const db: Database

    constructor (db: Database)
      ensures this.db == db
    {
      this.db := db;
    }

    /** The pace of one item over its window, flagging the spike of the latest period. */
    method WindowPace(item: int, k: PeriodKey) returns (finalPace: real, vs: seq<real>)
      modifies db`spikes
      ensures var d := old(db.View());
        && finalPace == ItemPace(d, k, item) && vs == CleanVolumes(d, k, item)
        && db.View() == d.(spikes := d.spikes + SpikeOf(d, k, item))
    {
      var d := db.View();
      var cfg := ConfigOf(d, k.site);
      var window := Window(d, k.site, item, k.number, cfg.avgPacePeriods);
      var windowClean := Clean(d, k.site, item, window);
      vs := Volumes(d, k.site, item, windowClean);
      VolumesLength(d, k.site, item, windowClean);
      hide Window, Clean, Volumes, Mean, Halved;
      finalPace := Undamped(vs, cfg.decayFactor);
      if |vs| > 0 && finalPace > 0.0 {
        var latestVolume := vs[0];
        if latestVolume > finalPace * cfg.spikeThreshold {
          var fk := FactKey(PeriodKey(k.site, windowClean[0]), item);
          var response: Option<SpikeResponse> := None;
          if fk in db.facts {
            response := db.facts[fk].spikeResponse;
            db.spikes := db.spikes + {fk};
          }
          finalPace := Damp(vs, cfg.decayFactor, response);
        }
      }
    }

    /** Pace and forecast end of one item as of a period. */
    method CalcItemPace(x: Item, k: PeriodKey, now: Time)
      returns (paceWeighted: real, forecastEnd: Option<real>, isAllZero: bool)
      modifies db`spikes
      ensures var d := old(db.View());
        && paceWeighted == (if ItemPace(d, k, x.id) > 0.0 then ItemPace(d, k, x.id) else 0.0)
        && forecastEnd == ItemEnd(d, k, x, now)
        && isAllZero == AllZero(CleanVolumes(d, k, x.id))
        && db.View() == d.(spikes := d.spikes + SpikeOf(d, k, x.id))
    {
      var finalPace, vs := WindowPace(x.id, k);
      hide ItemPace, CleanVolumes, SpikeOf;
      isAllZero := |vs| > 0 && forall v | v in vs :: v == 0.0;
      if finalPace <= 0.0 { return 0.0, None, isAllZero; }
      var fk := FactKey(k, x.id);
      if fk !in db.facts { return finalPace, None, isAllZero; }
      var f := db.facts[fk];
      var cumulative := if f.accepted.Some? then f.accepted.value else if f.sc.Some? then f.sc.value else 0.0;
      return finalPace, Some(EndDate(x.plan, cumulative, finalPace, now)), isAllZero;
    }

    /** Weighted date, critical-path date and gap flag of the object as of a period. */
    method CalcObjectForecast(k: PeriodKey, now: Time) returns (f: Forecast)
      modifies db`spikes
      ensures var d := old(db.View());
        && f == ObjectForecast(d, k, now)
        && db.View() == d.(spikes := d.spikes + SpikesOf(d, k, PeriodItems(d, k)))
    {
      ghost var d := db.View();
      var cfg := ConfigOf(db.View(), k.site);
      var items := PeriodItems(db.View(), k);
      ghost var entries := Entries(d, k, items, now);
      EntriesNone(d, k, now);
      hide SumEnds, SumWeights, CriticalDate, Entries, SpikesOf, ItemEnd, SpikeOf, Contribution, Window, CleanWindow;
      assert items[0..] == items;
      var weightedSum, weightedTotal, criticalMax := 0.0, 0.0, None;
      for i := 0 to |items|
        invariant SameReads(d, db.View())
        invariant db.View() == d.(spikes := db.spikes)
        invariant db.spikes + SpikesOf(d, k, items[i..]) == d.spikes + SpikesOf(d, k, items)
        invariant weightedSum + SumEnds(Entries(d, k, items[i..], now)) == SumEnds(entries)
        invariant weightedTotal + SumWeights(Entries(d, k, items[i..], now)) == SumWeights(entries)
        invariant CriticalDate(Entries(d, k, items[i..], now), cfg.weightThreshold,
          criticalMax) == CriticalDate(entries, cfg.weightThreshold, None)
      {
        var x := items[i];
        assert items[i..][0] == x && items[i..][1..] == items[i + 1..];
        ghost var rest := Entries(d, k, items[i + 1..], now);
        ItemReads(d, db.View(), k, x, now);
        EntriesStep(d, k, items[i..], now, cfg.weightThreshold, criticalMax);
        if x.active && x.weight.Some? {
          var _, end, _ := CalcItemPace(x, k, now);
          if end.Some? {
            weightedSum, weightedTotal, criticalMax :=
              AddEntry(Entry(x.weight.value, end.value), cfg.weightThreshold, weightedSum, weightedTotal, criticalMax);
          }
        }
      }
      assert items[|items|..] == [];
      var weightedDate := if weightedTotal > 0.0 then Some(weightedSum / weightedTotal) else None;
      var gap := false;
      if weightedDate.Some? && criticalMax.Some? {
        var diffDays := Abs(criticalMax.value - weightedDate.value) / (DAY as real);
        gap := diffDays / PERIOD_LENGTH_DAYS >= cfg.forecastGapPeriods;
      }
      f := Forecast(weightedDate, criticalMax, gap);
    }
  }

  lemma {:induction false} VolumesLength(d: Db, site: int, item: int, w: seq<int>)
    ensures |Volumes(d, site, item, w)| == |w|
  {
    if w != [] { VolumesLength(d, site, item, w[1..]); }
  }
}

/** What goes into the pace and the forecast of an item, in terms of the stored rows alone. */
module PaceOutcomes {
  import opened Common
  import opened Store
  import opened Pace
  import opened Derived

  function RowKey(site: int, j: int, item: int): FactKey { FactKey(PeriodKey(site, j), item) }

  // ---- the window ----

  /** The window is the latest periods up to n that hold a row of the item, at most `take` of them,
      latest first: a period with a row is left out only when it is earlier than a full window. */
  lemma {:induction false} WindowIsLatest(db: Db, site: int, item: int, n: int, take: nat)
    ensures var w := Window(db, site, item, n, take);
      && |w| <= take
      && (forall i | 0 <= i < |w| :: 0 < w[i] <= n && RowKey(site, w[i], item) in db.pace)
      && (forall i, j | 0 <= i < j < |w| :: w[j] < w[i])
      && (forall m | 0 < m <= n && RowKey(site, m, item) in db.pace && m !in w ::
            |w| == take && forall i | 0 <= i < |w| :: m < w[i])
    decreases n
  {
    if n > 0 && take > 0 {
      if RowKey(site, n, item) in db.pace {
        WindowIsLatest(db, site, item, n - 1, take - 1);
        var rest := Window(db, site, item, n - 1, take - 1);
        var w := Window(db, site, item, n, take);
        assert w == [n] + rest;
        assert forall i | 0 < i < |w| :: w[i] == rest[i - 1];
        assert forall m :: m in w <==> m == n || m in rest;
        hide Window;
      } else {
        WindowIsLatest(db, site, item, n - 1, take);
      }
    }
  }

  /** The period is a planned pause. */
  predicate Paused(db: Db, k: PeriodKey) { k in db.periods && db.periods[k].plannedPause }

  lemma {:induction false} CleanIff(db: Db, site: int, item: int, w: seq<int>)
    requires forall j | j in w :: RowKey(site, j, item) in db.pace
    ensures forall j :: j in Clean(db, site, item, w) <==>
      j in w && !Paused(db, PeriodKey(site, j)) && !db.pace[RowKey(site, j, item)].excluded
  {
    if w != [] {
      assert w[0] in w && forall j | j in w[1..] :: j in w;
      CleanIff(db, site, item, w[1..]);
      assert forall j :: j in w <==> j == w[0] || j in w[1..];
    }
  }

  /** A period of the window counts exactly when it is not a planned pause and its row is not
      excluded. */
  lemma PausesLeaveTheWindow(db: Db, k: PeriodKey, item: int, j: int)
    ensures var w := Window(db, k.site, item, k.number, ConfigOf(db, k.site).avgPacePeriods);
      j in CleanWindow(db, k, item) <==>
        j in w && RowKey(k.site, j, item) in db.pace
        && !Paused(db, PeriodKey(k.site, j)) && !db.pace[RowKey(k.site, j, item)].excluded
  {
    var take := ConfigOf(db, k.site).avgPacePeriods;
    var w := Window(db, k.site, item, k.number, take);
    WindowIsLatest(db, k.site, item, k.number, take);
    assert forall m | m in w :: RowKey(k.site, m, item) in db.pace;
    CleanIff(db, k.site, item, w);
    hide Window, Clean;
  }

  lemma {:induction false} VolumesAre(db: Db, site: int, item: int, w: seq<int>)
    requires forall j | j in w :: RowKey(site, j, item) in db.pace
    ensures |Volumes(db, site, item, w)| == |w|
    ensures forall i | 0 <= i < |w| :: Volumes(db, site, item, w)[i] == db.pace[RowKey(site, w[i], item)].volume
  {
    if w != [] {
      assert w[0] in w && forall j | j in w[1..] :: j in w;
      VolumesAre(db, site, item, w[1..]);
    }
  }

  /** The volumes of the pace are those of the rows that count, latest first. */
  lemma VolumesOfTheWindow(db: Db, k: PeriodKey, item: int)
    ensures var w, vs := CleanWindow(db, k, item), CleanVolumes(db, k, item);
      |vs| == |w| && forall i | 0 <= i < |w| ::
        RowKey(k.site, w[i], item) in db.pace && vs[i] == db.pace[RowKey(k.site, w[i], item)].volume
  {
    var w := CleanWindow(db, k, item);
    forall j | j in w ensures RowKey(k.site, j, item) in db.pace { PausesLeaveTheWindow(db, k, item, j); }
    hide CleanWindow;
    VolumesAre(db, k.site, item, w);
  }

  // ---- rows that do not count ----

  /** The stores differ in one row, which counts in neither. */
  predicate IdleRow(d: Db, e: Db, fk: FactKey) {
    && fk in d.pace && fk in e.pace && e == d.(pace := d.pace[fk := e.pace[fk]])
    && (Paused(d, fk.period) || (d.pace[fk].excluded && e.pace[fk].excluded))
  }

  lemma {:induction false} SameWindow(d: Db, e: Db, site: int, item: int, n: int, take: nat)
    requires d.pace.Keys == e.pace.Keys
    ensures Window(d, site, item, n, take) == Window(e, site, item, n, take)
    decreases n
  {
    if n > 0 && take > 0 {
      assert RowKey(site, n, item) in d.pace.Keys <==> RowKey(site, n, item) in e.pace.Keys;
      SameWindow(d, e, site, item, n - 1, take);
      SameWindow(d, e, site, item, n - 1, take - 1);
    }
  }

  lemma {:induction false} SameClean(d: Db, e: Db, fk: FactKey, site: int, item: int, w: seq<int>)
    requires IdleRow(d, e, fk)
    ensures Clean(d, site, item, w) == Clean(e, site, item, w)
    ensures Volumes(d, site, item, Clean(d, site, item, w)) == Volumes(e, site, item, Clean(e, site, item, w))
  {
    if w != [] {
      SameClean(d, e, fk, site, item, w[1..]);
      var rest := Clean(d, site, item, w[1..]);
      assert ([w[0]] + rest)[1..] == rest && [] + rest == rest;
      assert Counts(d, site, item, w[0]) <==> Counts(e, site, item, w[0]);
      assert Counts(d, site, item, w[0]) ==> RowKey(site, w[0], item) != fk;
    }
  }

  /** Whatever volume stands in the row of a planned pause, or in an excluded row, no pace, no
      forecast end and no spike depends on it. */
  lemma IdleRowChangesNothing(d: Db, e: Db, fk: FactKey, k: PeriodKey, x: Item, now: Time)
    requires IdleRow(d, e, fk)
    ensures CleanVolumes(d, k, x.id) == CleanVolumes(e, k, x.id)
    ensures ItemPace(d, k, x.id) == ItemPace(e, k, x.id)
    ensures ItemEnd(d, k, x, now) == ItemEnd(e, k, x, now)
    ensures SpikeOf(d, k, x.id) == SpikeOf(e, k, x.id)
  {
    var take := ConfigOf(d, k.site).avgPacePeriods;
    assert e.pace.Keys == d.pace.Keys && e.facts == d.facts && ConfigOf(e, k.site) == ConfigOf(d, k.site);
    SameWindow(d, e, k.site, x.id, k.number, take);
    SameClean(d, e, fk, k.site, x.id, Window(d, k.site, x.id, k.number, take));
    hide Window, Clean, Volumes, FinalPace, EndDate, SpikeFires, IdleRow;
  }

  // ---- the pace ----

  /** A constant window has that pace. */
  lemma {:induction false} MeanOfConstant(vs: seq<real>, v: real, d: real, k: nat)
    requires forall i | 0 <= i < |vs| :: vs[i] == v
    ensures WeightedSum(vs, d, k) == v * WeightTotal(|vs|, d, k)
  {
    if vs != [] {
      MeanOfConstant(vs[1..], v, d, k + 1);
      var p, t := Pow(d, k), WeightTotal(|vs| - 1, d, k + 1);
      assert v * p + v * t == v * (p + t);
    }
  }

  lemma ShiftedMean(v: real, s: real, t: real, d: real)
    requires d > 0.0 && t > 0.0
    ensures 1.0 + d * t > 0.0 && (v + d * s) / (1.0 + d * t) == (v + d * (t * (s / t))) / (1.0 + d * t)
  {
    var q := s / t;
    assert t * q == s;
  }

  /** Each period weighs the decay factor times the one after it. */
  lemma MeanDecays(v: real, rest: seq<real>, d: real)
    requires d > 0.0 && rest != []
    ensures var t := WeightTotal(|rest|, d, 0);
      t > 0.0 && 1.0 + d * t > 0.0 && Mean([v] + rest, d) == (v + d * (t * Mean(rest, d))) / (1.0 + d * t)
  {
    var vs, s, t := [v] + rest, WeightedSum(rest, d, 0), WeightTotal(|rest|, d, 0);
    assert vs[0] == v && vs[1..] == rest && |vs| - 1 == |rest|;
    MeanUnfolded(vs, d);
    WeightsShift(rest, d, 0);
    WeightTotalPositive(|rest|, d, 0);
    assert Mean(rest, d) == s / t;
    hide Mean, WeightedSum, WeightTotal;
    ShiftedMean(v, s, t, d);
  }

  /** With one volume the pace is that volume. */
  lemma MeanOfOne(v: real, d: real)
    ensures Mean([v], d) == v
  {
    assert [v][1..] == [] && Pow(d, 0) == 1.0;
    assert WeightedSum([], d, 1) == 0.0 && WeightTotal(0, d, 1) == 0.0;
    assert WeightedSum([v], d, 0) == v * Pow(d, 0) + WeightedSum([], d, 1);
    assert WeightTotal(1, d, 0) == Pow(d, 0) + WeightTotal(0, d, 1);
    hide Pow, WeightedSum, WeightTotal;
  }

  /** After a spike, an answer of data entry error takes the latest volume out of the pace: the rest
      of the window alone decides. Any other answer, and none, keeps it with half its weight. */
  lemma SpikeAnswers(vs: seq<real>, d: real, threshold: real, r: Option<SpikeResponse>)
    requires d > 0.0 && |vs| > 1 && Mean(vs, d) > 0.0 && vs[0] > Mean(vs, d) * threshold
    ensures r == Some(DataEntryError) ==> FinalPace(vs, d, threshold, r) == Mean(vs[1..], d)
    ensures r != Some(DataEntryError) ==>
      var t := WeightTotal(|vs| - 1, d, 1);
      t > 0.0 && FinalPace(vs, d, threshold, r) == (vs[0] * 0.5 + t * Mean(vs[1..], d)) / (0.5 + t)
  {
    var s, t := WeightedSum(vs[1..], d, 1), WeightTotal(|vs| - 1, d, 1);
    WeightTotalPositive(|vs| - 1, d, 1);
    RestartedWeightsSameMean(vs[1..], d, 1);
    var q := s / t;
    assert t * q == s && Mean(vs[1..], d) == q;
  }

  /** Without a spike the pace is the decayed mean. */
  lemma NoSpikeKeepsMean(vs: seq<real>, d: real, threshold: real, r: Option<SpikeResponse>)
    requires vs == [] || Mean(vs, d) <= 0.0 || vs[0] <= Mean(vs, d) * threshold
    ensures FinalPace(vs, d, threshold, r) == Mean(vs, d)
  {
    hide Mean;
  }

  /** The pace of an item is that of its volumes, under the settings of the organization, with the
      answer on the fact of the latest period that counts. */
  lemma ItemPaceUses(db: Db, k: PeriodKey, item: int)
    ensures var w := CleanWindow(db, k, item);
      var fk := if w == [] then FactKey(k, item) else RowKey(k.site, w[0], item);
      var answer := if w != [] && fk in db.facts then db.facts[fk].spikeResponse else None;
      var cfg := if k.site in db.sites then db.sites[k.site].config else Config(5, 0.8, 3.0, 0.1, 2.0);
      ItemPace(db, k, item) == FinalPace(CleanVolumes(db, k, item), cfg.decayFactor, cfg.spikeThreshold, answer)
  {
    hide CleanWindow, CleanVolumes, FinalPace;
  }

  /** A fact is flagged exactly when it belongs to the latest period that counts and its volume
      exceeds the mean by the threshold. */
  lemma SpikeIs(db: Db, k: PeriodKey, item: int, fk: FactKey)
    ensures var w, vs := CleanWindow(db, k, item), CleanVolumes(db, k, item);
      var cfg := ConfigOf(db, k.site);
      fk in SpikeOf(db, k, item) <==>
        w != [] && vs != [] && fk == RowKey(k.site, w[0], item) && fk in db.facts
        && Mean(vs, cfg.decayFactor) > 0.0 && vs[0] > Mean(vs, cfg.decayFactor) * cfg.spikeThreshold
  {
    hide CleanWindow, CleanVolumes, Mean;
  }

  /** An item has a forecast exactly when its pace is positive and the period holds a fact for it;
      the remaining volume then takes 30 days for each period it needs. */
  lemma EndIs(db: Db, k: PeriodKey, x: Item, now: Time)
    ensures var pace, fk := ItemPace(db, k, x.id), FactKey(k, x.id);
      && (ItemEnd(db, k, x, now).Some? <==> pace > 0.0 && fk in db.facts)
      && (ItemEnd(db, k, x, now).Some? ==>
            var left := x.plan - Volume(db.facts, fk);
            ItemEnd(db, k, x, now).value == now as real + (if left > 0.0 then left else 0.0) / pace * 2_592_000_000.0)
  {
    hide ItemPace;
    var pace, s := ItemPace(db, k, x.id), See(db.facts, FactKey(k, x.id));
    if pace > 0.0 && s.Some? {
      var left := x.plan - s.value.volume;
      var q := (if left > 0.0 then left else 0.0) / pace;
      assert q * 30.0 * 86_400_000.0 == q * 2_592_000_000.0;
    }
  }

  /** The entries of a forecast are the active items with a weight that have a forecast. */
  lemma {:induction false} EntriesAre(db: Db, k: PeriodKey, items: seq<Item>, now: Time, e: Entry)
    ensures e in Entries(db, k, items, now) <==>
      exists x | x in items :: x.active && x.weight == Some(e.weight) && ItemEnd(db, k, x, now) == Some(e.end)
  {
    hide ItemEnd;
    if items != [] {
      EntriesAre(db, k, items[1..], now, e);
      assert forall x :: x in items <==> x == items[0] || x in items[1..];
      var rest := Entries(db, k, items[1..], now);
      var head := Entries(db, k, items, now);
      var first := items[0].active && items[0].weight == Some(e.weight)
        && ItemEnd(db, k, items[0], now) == Some(e.end);
      assert e in head <==> e in rest || first;
    }
  }

  /** The weighted distances of the entries from a date. */
  function Moment(es: seq<Entry>, date: real): real {
    if es == [] then 0.0 else es[0].weight * (es[0].end - date) + Moment(es[1..], date)
  }

  lemma {:induction false} MomentIs(es: seq<Entry>, date: real)
    ensures Moment(es, date) == SumEnds(es) - date * SumWeights(es)
  {
    if es != [] {
      MomentIs(es[1..], date);
      var w, s := es[0].weight, SumWeights(es[1..]);
      assert w * (es[0].end - date) == es[0].end * w - date * w && date * w + date * s == date * (w + s);
    }
  }

  lemma {:induction false} WeightsPositive(es: seq<Entry>)
    requires forall e | e in es :: e.weight > 0.0
    ensures SumWeights(es) >= 0.0 && (es != [] ==> SumWeights(es) > 0.0)
  {
    if es != [] {
      assert es[0] in es && forall e | e in es[1..] :: e in es;
      WeightsPositive(es[1..]);
    }
  }

  /** The weighted date is the one date on which early and late entries, by their weights, balance. */
  lemma WeightedDateBalances(es: seq<Entry>, date: real)
    requires es != [] && forall e | e in es :: e.weight > 0.0
    ensures WeightedDate(es) == Some(date) <==> Moment(es, date) == 0.0
  {
    MomentIs(es, date);
    WeightsPositive(es);
    hide SumEnds, SumWeights, Moment;
    QuotientIff(SumEnds(es), SumWeights(es), date);
  }

  lemma QuotientIff(s: real, t: real, q: real)
    requires t > 0.0
    ensures s / t == q <==> s - q * t == 0.0
  {
    var r := s / t;
    assert r * t == s;
    if s - q * t == 0.0 { assert (r - q) * t == 0.0; }
  }

  // ---- readiness ----

  /** An item adds its weight times the percentage done, and all of its weight once it is done. */
  lemma TermMeans(x: Item, volume: real, response: Option<SpikeResponse>)
    requires x.plan > 0.0 && x.weight.Some?
    ensures var term, w := ReadinessTerm(x, Some(Seen(volume, response))), x.weight.value;
      && (volume >= x.plan ==> term == 100.0 * w)
      && (volume <= x.plan ==> term * x.plan == 100.0 * volume * w)
  {
    var r := volume / x.plan;
    assert r * x.plan == volume;
    var w := x.weight.value;
    if volume >= x.plan {
      assert r >= 1.0;
    } else {
      assert r < 1.0;
      assert r * 100.0 * w * x.plan == 100.0 * (r * x.plan) * w;
    }
  }

  /** Without a fact, a positive plan and a weight, an item adds nothing. */
  lemma NoTerm(x: Item, s: Option<Seen>)
    requires s.None? || x.plan <= 0.0 || x.weight.None?
    ensures ReadinessTerm(x, s) == 0.0
  {
  }
}

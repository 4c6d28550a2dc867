/** The readiness of a period: bounds, monotonicity and rounding. */
module ReadinessBounds {
  import opened Common
  import opened Store
  import opened Derived
  import opened PeriodSpec
  import opened BoqSpec
  import opened Runs
  import opened Lifecycle
  import opened BoqChain
  import opened CascadeTheorems

  // ---- rounding ----

  lemma RoundError(x: real)
    ensures -0.005 < Round2(x) - x <= 0.005
  {
  }

  lemma RoundMonotone(x: real, y: real)
    requires x <= y
    ensures Round2(x) <= Round2(y)
  {
    var a, b := x * 100.0 + 0.5, y * 100.0 + 0.5;
    var m, n := a.Floor, b.Floor;
    assert m as real <= a && b < n as real + 1.0;
    assert m < n + 1;
  }

  lemma RoundExact()
    ensures Round2(0.0) == 0.0 && Round2(100.0) == 100.0 && Round2(100.1) == 100.1
  {
    assert (100.1 * 100.0 + 0.5).Floor == 10010;
    assert (100.0 * 100.0 + 0.5).Floor == 10000;
    assert (0.0 * 100.0 + 0.5).Floor == 0;
  }

  // ---- one term ----

  function Capped(volume: real, plan: real): real
    requires plan > 0.0
  {
    var pct := volume / plan * 100.0;
    if pct < 100.0 then pct else 100.0
  }

  lemma CapBounds(volume: real, plan: real)
    requires plan > 0.0 && volume >= 0.0
    ensures 0.0 <= Capped(volume, plan) <= 100.0
  {
    assert volume / plan >= 0.0;
  }

  lemma CapMonotone(v: real, w: real, plan: real)
    requires plan > 0.0 && v <= w
    ensures Capped(v, plan) <= Capped(w, plan)
  {
    DivMonotone(v, w, plan);
  }

  lemma DivMonotone(v: real, w: real, p: real)
    requires p > 0.0 && v <= w
    ensures v / p <= w / p
  {
    assert w / p - v / p == (w - v) / p;
  }

  lemma TimesMonotone(a: real, b: real, w: real)
    requires a <= b && w >= 0.0
    ensures a * w <= b * w
  {
  }

  predicate SeenOk(s: Option<Seen>) { s.Some? ==> s.value.volume >= 0.0 }

  predicate WeightOk(x: Item) { x.weight.Some? ==> x.weight.value >= 0.0 }

  function WeightOf(x: Item): real { if x.weight.Some? then x.weight.value else 0.0 }

  function TotalWeight(items: seq<Item>): real { if items == [] then 0.0
      else WeightOf(items[0]) + TotalWeight(items[1..]) }

  lemma TermIs(x: Item, s: Option<Seen>)
    requires s.Some? && x.plan > 0.0 && x.weight.Some?
    ensures ReadinessTerm(x, s) == Capped(s.value.volume, x.plan) * x.weight.value
  {
  }

  lemma CappedShare(a: real, w: real) returns (share: real)
    requires 0.0 <= a <= 100.0 && w >= 0.0
    ensures share == a * w && 0.0 <= share <= 100.0 * w
  {
    share := a * w;
    TimesMonotone(a, 100.0, w);
  }

  lemma TermBounds(x: Item, s: Option<Seen>)
    requires SeenOk(s) && WeightOk(x)
    ensures 0.0 <= ReadinessTerm(x, s) <= 100.0 * WeightOf(x)
  {
    if s.Some? && x.plan > 0.0 && x.weight.Some? {
      CapBounds(s.value.volume, x.plan);
      TermIs(x, s);
      hide ReadinessTerm, Capped;
      var share := CappedShare(Capped(s.value.volume, x.plan), x.weight.value);
      assert ReadinessTerm(x, s) == share;
      assert 100.0 * WeightOf(x) == 100.0 * x.weight.value;
    } else {
      assert ReadinessTerm(x, s) == 0.0;
      assert WeightOf(x) >= 0.0;
    }
  }

  /** The fact was seen with at most this volume: it may also not have existed. */
  predicate SeenLess(s: Option<Seen>, t: Option<Seen>) {
    s.Some? ==> t.Some? && s.value.volume <= t.value.volume
  }

  lemma TermMonotone(x: Item, s: Option<Seen>, t: Option<Seen>)
    requires WeightOk(x) && SeenOk(t) && SeenLess(s, t)
    ensures ReadinessTerm(x, s) <= ReadinessTerm(x, t)
  {
    if s.Some? && x.plan > 0.0 && x.weight.Some? {
      CapMonotone(s.value.volume, t.value.volume, x.plan);
      TermIs(x, s);
      TermIs(x, t);
      hide ReadinessTerm, Capped;
      var a, b, w := Capped(s.value.volume, x.plan), Capped(t.value.volume, x.plan), x.weight.value;
      TimesMonotone(a, b, w);
      assert ReadinessTerm(x, s) == a * w && ReadinessTerm(x, t) == b * w;
    } else {
      assert ReadinessTerm(x, s) == 0.0;
      hide ReadinessTerm;
      TermBounds(x, t);
    }
  }

  // ---- the sum ----

  lemma {:induction false} SumBounds(facts: map<FactKey, Fact>, k: PeriodKey, items: seq<Item>)
    requires forall i :: SeenOk(See(facts, FactKey(k, i)))
    requires forall x | x in items :: WeightOk(x)
    ensures 0.0 <= ReadinessSum(facts, k, items) <= 100.0 * TotalWeight(items)
  {
    if items != [] {
      assert items[0] in items && forall x | x in items[1..] :: x in items;
      TermBounds(items[0], See(facts, FactKey(k, items[0].id)));
      hide ReadinessTerm, See;
      SumBounds(facts, k, items[1..]);
    }
  }

  lemma {:induction false} SumMonotone(f: map<FactKey, Fact>, g: map<FactKey, Fact>, k: PeriodKey, items: seq<Item>)
    requires forall i :: SeenOk(See(g, FactKey(k, i))) && SeenLess(See(f, FactKey(k, i)), See(g, FactKey(k, i)))
    requires forall x | x in items :: WeightOk(x)
    ensures ReadinessSum(f, k, items) <= ReadinessSum(g, k, items)
  {
    if items != [] {
      assert items[0] in items && forall x | x in items[1..] :: x in items;
      TermMonotone(items[0], See(f, FactKey(k, items[0].id)), See(g, FactKey(k, items[0].id)));
      hide ReadinessTerm, See;
      SumMonotone(f, g, k, items[1..]);
    }
  }

  /** For volumes and weights that are not negative, readiness is within 0..100.1 when the
      weights pass the check, within 0..100 when they do not exceed one, and at most 0.005 off
      the exact weighted sum. */
  lemma ReadinessWithinBounds(db: Db, k: PeriodKey)
    requires forall i :: SeenOk(See(db.facts, FactKey(k, i)))
    requires forall x | x in PeriodItems(db, k) :: WeightOk(x)
    ensures TotalWeight(PeriodItems(db, k)) <= 1.001 ==> 0.0 <= Readiness(db, k) <= 100.1
    ensures TotalWeight(PeriodItems(db, k)) <= 1.0 ==> 0.0 <= Readiness(db, k) <= 100.0
    ensures -0.005 < Readiness(db, k) - ReadinessSum(db.facts, k, PeriodItems(db, k)) <= 0.005
  {
    var items := PeriodItems(db, k);
    var sum := ReadinessSum(db.facts, k, items);
    SumBounds(db.facts, k, items);
    RoundError(sum);
    RoundExact();
    RoundMonotone(0.0, sum);
    if TotalWeight(items) <= 1.001 { RoundMonotone(sum, 100.1); }
    if TotalWeight(items) <= 1.0 { RoundMonotone(sum, 100.0); }
    assert Readiness(db, k) == Round2(sum);
    hide Round2, Readiness, ReadinessSum, TotalWeight;
  }

  /** More volume, in any fact, never lowers readiness. */
  lemma ReadinessMonotone(d: Db, e: Db, k: PeriodKey)
    requires PeriodItems(d, k) == PeriodItems(e, k)
    requires forall i ::
      SeenOk(See(e.facts, FactKey(k, i))) && SeenLess(See(d.facts, FactKey(k, i)), See(e.facts, FactKey(k, i)))
    requires forall x | x in PeriodItems(d, k) :: WeightOk(x)
    ensures Readiness(d, k) <= Readiness(e, k)
  {
    SumMonotone(d.facts, e.facts, k, PeriodItems(d, k));
    RoundMonotone(ReadinessSum(d.facts, k, PeriodItems(d, k)), ReadinessSum(e.facts, k, PeriodItems(e, k)));
    hide Round2;
  }

  // ---- reachable states ----

  lemma {:induction false} ActiveWeights(items: seq<Item>)
    requires forall x | x in items :: x.active
    ensures WeightSum(items) == TotalWeight(items)
  {
    if items != [] {
      assert items[0] in items && forall x | x in items[1..] :: x in items;
      ActiveWeights(items[1..]);
    }
  }

  lemma PeriodReadiness(db: Db, k: PeriodKey)
    requires Base(db) && Chain(db.versions, db.nextItem) && k in db.periods
    ensures 0.0 <= Readiness(db, k) <= 100.0
  {
    var v := db.periods[k].version;
    var items := PeriodItems(db, k);
    assert forall i :: SeenOk(See(db.facts, FactKey(k, i))) by { hide Chain, Numbered, PeriodsRefer, DisputesOk; }
    assert items == db.versions[v].items && v < |db.versions|;
    hide Base;
    assert LinkOk(db.versions, v) && WellWeighed(items);
    hide Chain, LinkOk;
    ActiveWeights(items);
    assert forall x | x in items :: WeightOk(x);
    assert TotalWeight(items) == 1.0;
    hide WellWeighed;
    ReadinessWithinBounds(db, k);
  }

  lemma DistinctInChain(db: Db, v: nat)
    requires Chain(db.versions, db.nextItem) && v < |db.versions|
    ensures DistinctItems(db.versions[v].items)
  {
    assert LinkOk(db.versions, v);
  }

  lemma BaseFactsFit(db: Db)
    requires Base(db) && Chain(db.versions, db.nextItem)
    ensures FactsFit(db)
  {
    hide Chain, Numbered, DisputesOk;
    assert forall fk | fk in db.facts && fk.period in db.periods :: HasItem(PeriodItems(db, fk.period), fk.item);
    forall k | k in db.periods ensures DistinctItems(PeriodItems(db, k)) { DistinctInChain(db, db.periods[k].version); }
  }

  /** What the readiness loop needs of the store holds in every reachable state. */
  lemma ReachableFactsFit(sites: map<int, Site>, steps: seq<Step>, i: nat)
    requires i <= |steps|
    ensures FactsFit(Before(EmptyDb(sites), steps, i))
  {
    hide Run, Chain, Base, FactsFit;
    EmptyBase(sites);
    BaseRun(EmptyDb(sites), steps[..i]);
    ReachableChain(sites, steps[..i]);
    BaseFactsFit(Before(EmptyDb(sites), steps, i));
  }

  ghost predicate ReadinessOk(db: Db) {
    (forall k | k in db.periods :: 0.0 <= Readiness(db, k) <= 100.0)
  }

  ghost predicate SnapsOk(snaps: map<PeriodKey, Snapshot>) {
    forall k | k in snaps :: 0.0 <= snaps[k].readiness <= 100.0
  }

  lemma RecalculatedSnaps(db: Db, k: PeriodKey, now: Time)
    requires ReadinessOk(db) && SnapsOk(db.snaps) && k in db.periods
    ensures var e := Recalculated(db, k, now); ReadinessOk(e) && SnapsOk(e.snaps) && e.periods == db.periods
  {
    var w, e := WithRows(db, k), Recalculated(db, k, now);
    RecalculatedPeriods(db, k, now);
    assert e.snaps == db.snaps[k := SnapshotFor(w, k, now)] && SnapshotFor(w, k, now).readiness == Readiness(db, k) by {
      hide ObjectForecast, RowsFor;
    }
    hide Recalculated, SnapshotFor, WithRows;
    assert forall j ::
      Readiness(e, j) == Readiness(db, j) by { assert forall j :: PeriodItems(e, j) == PeriodItems(db, j); }
    hide Readiness;
  }

  lemma {:induction false} CascadeSnaps(db: Db, site: int, numbers: seq<int>, now: Time)
    requires ReadinessOk(db) && SnapsOk(db.snaps)
    requires forall j | j in numbers :: PeriodKey(site, j) in db.periods
    ensures SnapsOk(Cascade(db, site, numbers, now).snaps)
    decreases |numbers|
  {
    if numbers != [] {
      assert numbers[0] in numbers && forall j | j in numbers[1..] :: j in numbers;
      RecalculatedSnaps(db, PeriodKey(site, numbers[0]), now);
      hide Recalculated, ReadinessOk, SnapsOk;
      CascadeSnaps(Recalculated(db, PeriodKey(site, numbers[0]), now), site, numbers[1..], now);
    }
  }

  lemma BaseReadiness(db: Db)
    requires Base(db) && Chain(db.versions, db.nextItem)
    ensures ReadinessOk(db)
  {
    hide Base, Chain, Readiness;
    forall k | k in db.periods ensures 0.0 <= Readiness(db, k) <= 100.0 { PeriodReadiness(db, k); }
  }

  lemma MarkedReadiness(db: Db, k: PeriodKey)
    requires ReadinessOk(db) && k in db.periods
    ensures ReadinessOk(MarkedClosed(db, k))
  {
    var d := MarkedClosed(db, k);
    forall j | j in d.periods ensures 0.0 <= Readiness(d, j) <= 100.0 {
      assert PeriodItems(d, j) == PeriodItems(db, j);
      hide ReadinessSum, Round2;
    }
  }

  lemma CloseSnaps(db: Db, k: PeriodKey, now: Time)
    requires ReadinessOk(db) && SnapsOk(db.snaps)
    ensures SnapsOk(ClosePeriod(db, k, now).Or(db).snaps)
  {
    if ClosePeriod(db, k, now).Ok? {
      hide SnapsOk, ReadinessOk, Recalculated, HasOpenDiscrepancy;
      MarkedReadiness(db, k);
      RecalculatedSnaps(MarkedClosed(db, k), k, now);
    }
  }

  lemma WithFactBase(db: Db, fk: FactKey, f: Fact)
    requires Base(db) && fk in db.facts && FactOk(f)
    ensures Base(db.(facts := db.facts[fk := f]))
  {
    var d := db.(facts := db.facts[fk := f]);
    assert forall k :: PeriodItems(d, k) == PeriodItems(db, k);
    hide Numbered, PeriodItems, HasItem, FactOk;
  }

  lemma CorrectedBase(db: Db, fk: FactKey, sc: real, accepted: real)
    requires Base(db) && CorrectFact(db, fk, sc, accepted).Ok?
    ensures Base(CorrectFact(db, fk, sc, accepted).value)
  {
    var f := db.facts[fk];
    assert FactOk(f);
    var g := Bumped(f, f.(sc := Some(sc), accepted := Some(accepted)));
    assert FactOk(g);
    hide Base, FactOk, Bumped;
    WithFactBase(db, fk, g);
  }

  lemma CorrectSnaps(db: Db, fk: FactKey, sc: real, accepted: real, now: Time)
    requires Base(db) && Chain(db.versions, db.nextItem) && SnapsOk(db.snaps)
    ensures SnapsOk(AdminCorrect(db, fk, sc, accepted, now).Or(db).snaps)
  {
    var r := CorrectFact(db, fk, sc, accepted);
    if r.Ok? {
      var d, site, n := r.value, fk.period.site, fk.period.number;
      CorrectedBase(db, fk, sc, accepted);
      BaseReadiness(d);
      ClosedFromAbove(d.periods, site, n, LastNumber(d.periods, site));
      hide Chain, Base, ReadinessOk, Cascade, SnapsOk;
      CascadeSnaps(d, site, ClosedFrom(d.periods, site, n, LastNumber(d.periods, site)), now);
    }
  }

  lemma OtherSnaps(db: Db, op: Op, now: Time)
    requires !op.DoClosePeriod? && !op.DoCorrectFact?
    ensures Apply(db, op, now).snaps == db.snaps
  {
    Footprint(db, op, now);
    hide Apply;
  }

  lemma SnapsStep(db: Db, op: Op, now: Time)
    requires Base(db) && Chain(db.versions, db.nextItem) && SnapsOk(db.snaps)
    ensures SnapsOk(Apply(db, op, now).snaps)
  {
    hide Base, Chain, SnapsOk, ReadinessOk;
    match op
    case DoClosePeriod(k) => BaseReadiness(db); CloseSnaps(db, k, now); hide ClosePeriod;
    case DoCorrectFact(fk, sc, accepted) => CorrectSnaps(db, fk, sc, accepted, now); hide AdminCorrect;
    case _ => OtherSnaps(db, op, now); hide Apply;
  }

  lemma {:induction false} SnapsRun(db: Db, steps: seq<Step>)
    requires Base(db) && Chain(db.versions, db.nextItem) && SnapsOk(db.snaps)
    ensures SnapsOk(Run(db, steps).snaps)
    decreases |steps|
  {
    hide Apply, Base, Chain, SnapsOk;
    if steps != [] {
      BaseStep(db, steps[0].op, steps[0].now);
      ChainStep(db, steps[0].op, steps[0].now);
      SnapsStep(db, steps[0].op, steps[0].now);
      SnapsRun(Apply(db, steps[0].op, steps[0].now), steps[1..]);
    }
  }

  /** Every snapshot ever stored holds a readiness within 0..100: the weights of a stored
      version add up to one and no stored volume is negative. */
  lemma StoredReadinessIsAPercentage(sites: map<int, Site>, steps: seq<Step>, k: PeriodKey)
    requires k in Run(EmptyDb(sites), steps).snaps
    ensures 0.0 <= Run(EmptyDb(sites), steps).snaps[k].readiness <= 100.0
  {
    EmptyBase(sites);
    SnapsRun(EmptyDb(sites), steps);
    hide Run;
  }
}

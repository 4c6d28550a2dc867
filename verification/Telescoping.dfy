/** The pace rows of an item add up to its volume in the last closed period of its version. */
module Telescoping {
  import opened Common
  import opened Store
  import opened Derived
  import opened CascadeTheorems
  import opened PeriodSpec
  import opened BoqSpec
  import opened Runs
  import opened Lifecycle
  import opened BoqChain
  import opened Freshness

  predicate ClosedWith(db: Db, k: PeriodKey, version: nat) { IsClosed(db.periods, k)
      && db.periods[k].version == version }

  /** The sum of the stored pace rows of the item over the closed periods 1..n of the version. */
  function PaceSum(db: Db, site: int, version: nat, item: int, n: int): real
    decreases n
  {
    if n <= 0 then 0.0
    else
      var fk := FactKey(PeriodKey(site, n), item);
      (if ClosedWith(db, fk.period, version) && fk in db.pace then db.pace[fk].volume else 0.0)
      + PaceSum(db, site, version, item, n - 1)
  }

  /** The last closed period 1..n of the version, or 0. */
  function LastOf(db: Db, site: int, version: nat, n: int): (m: int)
    ensures m == 0 || (0 < m <= n && ClosedWith(db, PeriodKey(site, m), version))
    ensures forall j | m < j <= n && j > 0 :: !ClosedWith(db, PeriodKey(site, j), version)
    decreases n
  {
    if n <= 0 then 0 else if ClosedWith(db, PeriodKey(site, n), version) then n else LastOf(db, site, version, n - 1)
  }

  // ---- versions of periods ----

  /** A later period never has an earlier version. */
  ghost predicate VersionsAscend(periods: map<PeriodKey, Period>) {
    forall k, l | k in periods && l in periods && k.site == l.site && k.number <= l.number ::
      periods[k].version <= periods[l].version
  }

  lemma {:induction false} NextAscends(periods: map<PeriodKey, Period>, site: int, n: int, p: Period)
    requires VersionsAscend(periods) && forall l | l in periods && l.site == site :: l.number <= n
    requires forall l | l in periods && l.site == site :: periods[l].version <= p.version
    ensures VersionsAscend(periods[PeriodKey(site, n + 1) := p])
  {
  }

  /** The active version of the object is not before that of any of its periods. */
  lemma PeriodsBeforeActive(db: Db, site: int)
    requires PeriodsRefer(db) && Chain(db.versions, db.nextItem) && ActiveVersion(db.versions, site).Some?
    ensures forall l | l in db.periods && l.site == site ::
      db.periods[l].version <= ActiveVersion(db.versions, site).value
  {
    ActiveIsLatest(db.versions, site);
    hide Chain, ActiveVersion;
  }

  lemma OpenAscends(db: Db, site: int, pause: bool, reason: Option<string>, free: bool, now: Time)
    requires Numbered(db.periods) && PeriodsRefer(db) && Chain(db.versions, db.nextItem) && VersionsAscend(db.periods)
    ensures VersionsAscend(OpenPeriod(db, site, pause, reason, free, now).Or(db).periods)
  {
    var r := OpenPeriod(db, site, pause, reason, free, now);
    if r.Ok? {
      hide Chain, Numbered, LastNumber, ActiveVersion, PeriodsRefer, VersionsAscend, HasApprovedReport, HasOpenPeriod;
      LastNumberIs(db.periods, site);
      PeriodsBeforeActive(db, site);
      var k := PeriodKey(site, LastNumber(db.periods, site) + 1);
      NextAscends(db.periods, site, LastNumber(db.periods, site), r.value.periods[k]);
    } else {
      hide OpenPeriod, VersionsAscend;
    }
  }

  lemma {:induction false} AdvancedAscends(p: map<PeriodKey, Period>, q: map<PeriodKey, Period>)
    requires Advanced(p, q) && q.Keys == p.Keys && VersionsAscend(p)
    ensures VersionsAscend(q)
  {
    forall k, l | k in q && l in q && k.site == l.site && k.number <= l.number ensures q[k].version <= q[l].version {
      assert k in p && l in p;
    }
  }

  lemma AscendStep(db: Db, op: Op, now: Time)
    requires Base(db) && Chain(db.versions, db.nextItem) && VersionsAscend(db.periods)
    ensures VersionsAscend(Apply(db, op, now).periods)
  {
    hide VersionsAscend, Chain, FactsOk, DisputesOk, Numbered, PeriodsRefer;
    match op
    case DoOpenPeriod(site, pause, reason, free) => OpenAscends(db, site, pause, reason, free, now); hide OpenPeriod;
    case _ =>
      PeriodsStep(db, op, now);
      hide Apply, Advanced;
      AdvancedAscends(db.periods, Apply(db, op, now).periods);
  }

  lemma {:induction false} AscendRun(db: Db, steps: seq<Step>)
    requires Base(db) && Chain(db.versions, db.nextItem) && VersionsAscend(db.periods)
    ensures var e := Run(db, steps); Base(e) && Chain(e.versions, e.nextItem) && VersionsAscend(e.periods)
    decreases |steps|
  {
    hide Apply, Base, Chain, VersionsAscend;
    if steps != [] {
      BaseStep(db, steps[0].op, steps[0].now);
      ChainStep(db, steps[0].op, steps[0].now);
      AscendStep(db, steps[0].op, steps[0].now);
      AscendRun(Apply(db, steps[0].op, steps[0].now), steps[1..]);
    }
  }

  // ---- items of one version ----

  /** The item belongs to the version, and no period of another version holds a fact for it. */
  ghost predicate OwnFacts(db: Db, site: int, version: nat, item: int) {
    && (forall fk | fk in db.facts && fk.period.site == site && fk.item == item ::
      fk.period in db.periods && db.periods[fk.period].version == version)
    && (forall k | k in db.periods && k.site == site && db.periods[k].version == version ::
      HasItem(PeriodItems(db, k), item))
  }

  lemma ItemsOwnFacts(db: Db, site: int, version: nat, item: int)
    requires Base(db) && Chain(db.versions, db.nextItem)
    requires version < |db.versions| && HasItem(db.versions[version].items, item)
    ensures OwnFacts(db, site, version, item)
  {
    forall fk | fk in db.facts && fk.period.site == site && fk.item == item
      ensures fk.period in db.periods && db.periods[fk.period].version == version
    {
      var i := db.periods[fk.period].version;
      assert HasItem(PeriodItems(db, fk.period), item);
      hide FactsOk, DisputesOk, Numbered;
      SameVersion(db, i, version, item);
    }
  }

  lemma SameVersion(db: Db, i: nat, j: nat, item: int)
    requires Chain(db.versions, db.nextItem) && i < |db.versions| && j < |db.versions|
    requires HasItem(db.versions[i].items, item) && HasItem(db.versions[j].items, item)
    ensures i == j
  {
    var x :| x in db.versions[i].items && x.id == item;
    var y :| y in db.versions[j].items && y.id == item;
    var a: nat :| a < |db.versions[i].items| && db.versions[i].items[a] == x;
    var b: nat :| b < |db.versions[j].items| && db.versions[j].items[b] == y;
    hide Chain;
    IdNamesOneItem(db.versions, db.nextItem, i, a, j, b);
  }

  // ---- the sum ----

  function VolumeAt(db: Db, site: int, n: int, item: int): real { if n == 0 then 0.0
      else Volume(db.facts, FactKey(PeriodKey(site, n), item)) }

  lemma OwnRow(db: Db, site: int, version: nat, item: int, n: int)
    requires OwnFacts(db, site, version, item) && n > 0 && ClosedWith(db, PeriodKey(site, n), version)
    requires RowsFresh(db, PeriodKey(site, n))
    ensures var fk := FactKey(PeriodKey(site, n), item);
      fk in db.pace && db.pace[fk].volume == VolumeAt(db, site, n, item) - VolumeAt(db, site,
        PrevClosed(db.periods, site, n), item)
  {
    var k := PeriodKey(site, n);
    assert HasItem(PeriodItems(db, k), item);
    assert FactKey(k, item) in RowKeys(k, PeriodItems(db, k));
  }

  /** Under versions that ascend, the closed period before a period of the version is either of
      the same version, and then the last of it so far, or no period of the version came yet. */
  lemma PrevIsLastOf(db: Db, site: int, version: nat, n: int)
    requires VersionsAscend(db.periods) && n > 0 && ClosedWith(db, PeriodKey(site, n), version)
    ensures var m := PrevClosed(db.periods, site, n);
      if m > 0 && db.periods[PeriodKey(site, m)].version == version then LastOf(db, site, version, n - 1) == m
      else LastOf(db, site, version, n - 1) == 0
  {
    var m, l := PrevClosed(db.periods, site, n), LastOf(db, site, version, n - 1);
    if l > 0 { assert IsClosed(db.periods, PeriodKey(site, l)); }
    assert l > 0 ==> l <= m && db.periods[PeriodKey(site, l)].version <= db.periods[PeriodKey(site, m)].version;
    assert m > 0 ==> db.periods[PeriodKey(site, m)].version <= version;
    if m > 0 && db.periods[PeriodKey(site, m)].version == version { assert ClosedWith(db, PeriodKey(site, m),
      version); }
  }

  /** No fact of the item in the closed periods of other versions: their volume is zero. */
  lemma ElsewhereZero(db: Db, site: int, version: nat, item: int, m: int)
    requires OwnFacts(db, site, version, item) && m > 0 && PeriodKey(site, m) in db.periods
    requires db.periods[PeriodKey(site, m)].version != version
    ensures VolumeAt(db, site, m, item) == 0.0
  {
  }

  /** The pace rows of an item over the closed periods of its version add up to its cumulative
      volume in the last of them. */
  lemma {:induction false} PaceTelescopes(db: Db, site: int, version: nat, item: int, n: int)
    requires VersionsAscend(db.periods) && OwnFacts(db, site, version, item)
    requires forall j | 0 < j <= n && IsClosed(db.periods, PeriodKey(site, j)) :: RowsFresh(db, PeriodKey(site, j))
    ensures PaceSum(db, site, version, item, n) == VolumeAt(db, site, LastOf(db, site, version, n), item)
    decreases n
  {
    if n > 0 {
      PaceTelescopes(db, site, version, item, n - 1);
      if ClosedWith(db, PeriodKey(site, n), version) {
        assert RowsFresh(db, PeriodKey(site, n));
        OwnRow(db, site, version, item, n);
        PrevIsLastOf(db, site, version, n);
        var m := PrevClosed(db.periods, site, n);
        hide RowsFresh, VersionsAscend, PrevClosed;
        if m > 0 && db.periods[PeriodKey(site, m)].version != version { ElsewhereZero(db, site, version, item, m); }
        hide OwnFacts, VolumeAt;
        assert VolumeAt(db, site, 0, item) == 0.0;
      }
    }
  }

  /** On every run that closes periods in number order the pace rows of an item of a version
      add up to its volume in the last closed period of that version. */
  lemma OrderedRunsTelescope(sites: map<int, Site>, steps: seq<Step>, site: int, version: nat, item: int, n: int)
    requires OrderlyRun(EmptyDb(sites), steps)
    requires var db := Run(EmptyDb(sites), steps); version < |db.versions| && HasItem(db.versions[version].items, item)
    ensures var db := Run(EmptyDb(sites), steps);
      PaceSum(db, site, version, item, n) == VolumeAt(db, site, LastOf(db, site, version, n), item)
  {
    var db := Run(EmptyDb(sites), steps);
    OrderedRunsStayFresh(sites, steps);
    EmptyBase(sites);
    AscendRun(EmptyDb(sites), steps);
    hide Run, Base, Chain, OrderlyRun, SnapFresh, RowsFresh;
    ItemsOwnFacts(db, site, version, item);
    FreshRows(db, site, n);
    PaceTelescopes(db, site, version, item, n);
  }

  lemma FreshRows(db: Db, site: int, n: int)
    requires FreshBelow(db, site, n + 1)
    ensures forall j | 0 < j <= n && IsClosed(db.periods, PeriodKey(site, j)) :: RowsFresh(db, PeriodKey(site, j))
  {
    hide RowsFresh, SnapFresh;
    forall j | 0 < j <= n && IsClosed(db.periods, PeriodKey(site, j))
      ensures RowsFresh(db, PeriodKey(site, j)) { assert FreshAt(db, site, j); }
  }

  // ---- after a cascade from the first period ----

  lemma ClosingShape(db: Db, k: PeriodKey, now: Time)
    requires Shape(db)
    ensures Shape(ClosePeriod(db, k, now).Or(db))
  {
    if ClosePeriod(db, k, now).Ok? {
      assert k in db.periods;
      MarkedShape(db, k);
      RecalculatedShape(MarkedClosed(db, k), k, now);
    }
  }

  lemma {:induction false} CascadeShape(db: Db, site: int, numbers: seq<int>, now: Time)
    requires Shape(db) && forall j | j in numbers :: IsClosed(db.periods, PeriodKey(site, j))
    ensures Shape(Cascade(db, site, numbers, now))
    decreases |numbers|
  {
    if numbers != [] {
      var k := PeriodKey(site, numbers[0]);
      assert numbers[0] in numbers && forall j | j in numbers[1..] :: j in numbers;
      RecalculatedShape(db, k, now);
      RecalculatedPeriods(db, k, now);
      hide Recalculated, Shape;
      CascadeShape(Recalculated(db, k, now), site, numbers[1..], now);
    }
  }

  lemma CorrectingShape(db: Db, fk: FactKey, sc: real, accepted: real, now: Time)
    requires Shape(db)
    ensures Shape(AdminCorrect(db, fk, sc, accepted, now).Or(db))
  {
    var r := CorrectFact(db, fk, sc, accepted);
    if r.Ok? {
      var d, site, n := r.value, fk.period.site, fk.period.number;
      assert forall x | x in db.periods :: PeriodItems(d, x) == PeriodItems(db, x);
      assert Shape(d);
      ClosedFromAbove(d.periods, site, n, LastNumber(d.periods, site));
      hide Shape;
      CascadeShape(d, site, ClosedFrom(d.periods, site, n, LastNumber(d.periods, site)), now);
    }
  }

  lemma QuietShape(db: Db, op: Op, now: Time)
    requires Base(db) && Shape(db) && !op.DoClosePeriod? && !op.DoCorrectFact?
    ensures Shape(Apply(db, op, now))
  {
    var e := Apply(db, op, now);
    DerivedKept(db, op, now);
    PeriodsStep(db, op, now);
    forall fk | fk in e.pace ensures IsClosed(e.periods, fk.period)
      && fk in RowKeys(fk.period, PeriodItems(e, fk.period)) {
      StepClosed(db, op, now, fk.period);
    }
    forall k | k in e.snaps ensures IsClosed(e.periods, k) { StepClosed(db, op, now, k); }
    hide Apply;
  }

  lemma ShapeStep(db: Db, op: Op, now: Time)
    requires Base(db) && Shape(db)
    ensures Shape(Apply(db, op, now))
  {
    hide Shape, Base;
    match op
    case DoClosePeriod(k) => ClosingShape(db, k, now); hide ClosePeriod;
    case DoCorrectFact(fk, sc, accepted) => CorrectingShape(db, fk, sc, accepted, now); hide AdminCorrect;
    case _ => QuietShape(db, op, now);
  }

  lemma {:induction false} ShapeRun(db: Db, steps: seq<Step>)
    requires Base(db) && Shape(db)
    ensures Shape(Run(db, steps))
    decreases |steps|
  {
    hide Apply, Base, Shape;
    if steps != [] {
      BaseStep(db, steps[0].op, steps[0].now);
      ShapeStep(db, steps[0].op, steps[0].now);
      ShapeRun(Apply(db, steps[0].op, steps[0].now), steps[1..]);
    }
  }

  lemma FullCascade(db: Db, site: int, now: Time, n: int)
    requires Shape(db)
    ensures var e := CascadeFrom(db, site, 1, now);
      && e == db.(pace := e.pace, snaps := e.snaps, spikes := e.spikes)
      && FreshBelow(e, site, n)
  {
    CascadeEqualsRecompute(db, site, 1, now);
    hide CascadeFrom;
  }

  lemma DerivedOnly(d: Db, e: Db, site: int, version: nat, item: int, n: int)
    requires e == d.(pace := e.pace, snaps := e.snaps, spikes := e.spikes)
    requires Base(d) && Chain(d.versions, d.nextItem)
    ensures Base(e) && LastOf(e, site, version, n) == LastOf(d, site, version, n)
    ensures VolumeAt(e, site, LastOf(d, site, version, n), item) == VolumeAt(d, site, LastOf(d, site, version, n), item)
  {
    assert forall k :: PeriodItems(e, k) == PeriodItems(d, k);
    var a, b := LastOf(e, site, version, n), LastOf(d, site, version, n);
    assert a > 0 ==> ClosedWith(d, PeriodKey(site, a), version);
    assert b > 0 ==> ClosedWith(e, PeriodKey(site, b), version);
  }

  /** After a cascade from the first period the rows of an item add up in every reachable
      state, in whatever order the periods were closed and whatever was corrected before. */
  lemma CascadeFromFirstTelescopes(sites: map<int, Site>, steps: seq<Step>, i: nat, site: int, version: nat,
      item: int, n: int, now: Time)
    requires i <= |steps|
    requires var db := Before(EmptyDb(sites), steps, i);
      version < |db.versions| && HasItem(db.versions[version].items, item)
    ensures var db := Before(EmptyDb(sites), steps, i);
      PaceSum(CascadeFrom(db, site, 1, now), site, version, item, n) == VolumeAt(db, site,
        LastOf(db, site, version, n), item)
  {
    var db := Before(EmptyDb(sites), steps, i);
    EmptyBase(sites);
    AscendRun(EmptyDb(sites), steps[..i]);
    assert Shape(EmptyDb(sites));
    ShapeRun(EmptyDb(sites), steps[..i]);
    hide Run, Base, Chain, Shape, CascadeFrom, RowsFresh, SnapFresh, FreshBelow;
    var e := CascadeFrom(db, site, 1, now);
    FullCascade(db, site, now, n + 1);
    DerivedOnly(db, e, site, version, item, n);
    ItemsOwnFacts(e, site, version, item);
    FreshRows(e, site, n);
    PaceTelescopes(e, site, version, item, n);
  }
}

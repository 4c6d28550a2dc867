/** The data derived from the facts of closed periods: work-pace rows, readiness and
    forecast; as the services compute them from the stored rows, and from scratch. */
module Derived {
  import opened Common
  import opened Store
  import opened Pace

  // ---- what is read of a fact ----

  function EffectiveVolume(f: Fact): real {
    if f.accepted.Some? then f.accepted.value else if f.sc.Some? then f.sc.value else 0.0
  }

  datatype Seen = Seen(volume: real, response: Option<SpikeResponse>)

  /** All that the derived data read of a fact. */
  function See(facts: map<FactKey, Fact>, fk: FactKey): Option<Seen> {
    if fk in facts then Some(Seen(EffectiveVolume(facts[fk]), facts[fk].spikeResponse)) else None
  }

  function Volume(facts: map<FactKey, Fact>, fk: FactKey): real {
    var s := See(facts, fk);
    if s.Some? then s.value.volume else 0.0
  }

  // ---- work-pace rows ----

  function Delta(db: Db, k: PeriodKey, item: int): real {
    var m := PrevClosed(db.periods, k.site, k.number);
    Volume(db.facts, FactKey(k, item)) -
    if m == 0 then 0.0 else Volume(db.facts, FactKey(PeriodKey(k.site, m), item))
  }

  function RowFor(db: Db, k: PeriodKey, item: int): PaceRow {
    var d := Delta(db, k, item);
    PaceRow(d, d, k in db.periods && db.periods[k].plannedPause)
  }

  function RowKeys(k: PeriodKey, items: seq<Item>): set<FactKey> {
    set x | x in items :: FactKey(k, x.id)
  }

  function RowsFor(db: Db, k: PeriodKey): map<FactKey, PaceRow> {
    map fk | fk in RowKeys(k, PeriodItems(db, k)) :: RowFor(db, k, fk.item)
  }

  // ---- readiness ----

  function ReadinessTerm(x: Item, seen: Option<Seen>): real {
    if seen.None? || x.plan <= 0.0 || x.weight.None? then 0.0
    else
      var pct := seen.value.volume / x.plan * 100.0;
      (if pct < 100.0 then pct else 100.0) * x.weight.value
  }

  function ReadinessSum(facts: map<FactKey, Fact>, k: PeriodKey, items: seq<Item>): real {
    if items == [] then 0.0
    else ReadinessTerm(items[0], See(facts, FactKey(k, items[0].id))) + ReadinessSum(facts, k, items[1..])
  }

  function Round2(x: real): real { ((x * 100.0 + 0.5).Floor as real) / 100.0 }

  function Readiness(db: Db, k: PeriodKey): real { Round2(ReadinessSum(db.facts, k, PeriodItems(db, k))) }

  // ---- forecast ----

  /** The numbers of the latest `take` periods up to n that hold a pace row of the item. */
  function Window(db: Db, site: int, item: int, n: int, take: nat): seq<int>
    decreases n
  {
    if n <= 0 || take == 0 then []
    else if FactKey(PeriodKey(site, n), item) in db.pace then [n] + Window(db, site, item, n - 1, take - 1)
    else Window(db, site, item, n - 1, take)
  }

  predicate Counts(db: Db, site: int, item: int, n: int) {
    var k := PeriodKey(site, n);
    && !(k in db.periods && db.periods[k].plannedPause)
    && FactKey(k, item) in db.pace && !db.pace[FactKey(k, item)].excluded
  }

  function Clean(db: Db, site: int, item: int, w: seq<int>): seq<int> {
    if w == [] then []
    else (if Counts(db, site, item, w[0]) then [w[0]] else []) + Clean(db, site, item, w[1..])
  }

  function Volumes(db: Db, site: int, item: int, w: seq<int>): seq<real> {
    if w == [] then []
    else
      var fk := FactKey(PeriodKey(site, w[0]), item);
      [if fk in db.pace then db.pace[fk].volume else 0.0] + Volumes(db, site, item, w[1..])
  }

  function CleanWindow(db: Db, k: PeriodKey, item: int): seq<int> {
    Clean(db, k.site, item, Window(db, k.site, item, k.number, ConfigOf(db, k.site).avgPacePeriods))
  }

  function CleanVolumes(db: Db, k: PeriodKey, item: int): seq<real> {
    Volumes(db, k.site, item, CleanWindow(db, k, item))
  }

  /** The spike answer recorded on the latest period of the window. */
  function LatestResponse(db: Db, k: PeriodKey, item: int): Option<SpikeResponse> {
    var w := CleanWindow(db, k, item);
    if w == [] then None
    else
      var s := See(db.facts, FactKey(PeriodKey(k.site, w[0]), item));
      if s.Some? then s.value.response else None
  }

  function ItemPace(db: Db, k: PeriodKey, item: int): real {
    var cfg := ConfigOf(db, k.site);
    FinalPace(CleanVolumes(db, k, item), cfg.decayFactor, cfg.spikeThreshold, LatestResponse(db, k, item))
  }

  function ItemEnd(db: Db, k: PeriodKey, x: Item, now: Time): Option<real> {
    var pace := ItemPace(db, k, x.id);
    var s := See(db.facts, FactKey(k, x.id));
    if pace <= 0.0 || s.None? then None else Some(EndDate(x.plan, s.value.volume, pace, now))
  }

  predicate InForecast(x: Item) { x.active && x.weight.Some? }

  function Entries(db: Db, k: PeriodKey, items: seq<Item>, now: Time): seq<Entry> {
    if items == [] then []
    else
      var x := items[0];
      (if InForecast(x) && ItemEnd(db, k, x, now).Some? then [Entry(x.weight.value, ItemEnd(db, k, x, now).value)]
        else [])
      + Entries(db, k, items[1..], now)
  }

  /** The fact flagged as a spike when the pace of the item is computed, if any. */
  function SpikeOf(db: Db, k: PeriodKey, item: int): set<FactKey> {
    var cfg := ConfigOf(db, k.site);
    var w := CleanWindow(db, k, item);
    if w == [] || !SpikeFires(CleanVolumes(db, k, item), cfg.decayFactor, cfg.spikeThreshold) then {}
    else
      var fk := FactKey(PeriodKey(k.site, w[0]), item);
      if fk in db.facts then {fk} else {}
  }

  function SpikesOf(db: Db, k: PeriodKey, items: seq<Item>): set<FactKey> {
    if items == [] then {}
    else (if InForecast(items[0]) then SpikeOf(db, k, items[0].id) else {}) + SpikesOf(db, k, items[1..])
  }

  function ObjectForecast(db: Db, k: PeriodKey, now: Time): Forecast {
    ForecastFrom(Entries(db, k, PeriodItems(db, k), now), ConfigOf(db, k.site))
  }

  // ---- storing derived data ----

  function SnapshotFor(db: Db, k: PeriodKey, now: Time): Snapshot {
    var f := ObjectForecast(db, k, now);
    Snapshot(Readiness(db, k), f.weightedDate, f.criticalDate, f.gapFlag, now)
  }

  function WithRows(db: Db, k: PeriodKey): Db { db.(pace := db.pace + RowsFor(db, k)) }

  /** Pace rows, spike flags and snapshot of one closed period. */
  function Recalculated(db: Db, k: PeriodKey, now: Time): Db {
    var d := WithRows(db, k);
    d.(snaps := d.snaps[k := SnapshotFor(d, k, now)],
       spikes := d.spikes + SpikesOf(d, k, PeriodItems(d, k)))
  }

  /** The closed period numbers from n to last, ascending. */
  function ClosedFrom(periods: map<PeriodKey, Period>, site: int, n: int, last: int): seq<int>
    decreases last - n
  {
    if n > last then []
    else (if IsClosed(periods, PeriodKey(site, n)) then [n] else []) + ClosedFrom(periods, site, n + 1, last)
  }

  function Cascade(db: Db, site: int, numbers: seq<int>, now: Time): Db
    decreases |numbers|
  {
    if numbers == [] then db
    else Cascade(Recalculated(db, PeriodKey(site, numbers[0]), now), site, numbers[1..], now)
  }

  function CascadeFrom(db: Db, site: int, n: int, now: Time): Db {
    Cascade(db, site, ClosedFrom(db.periods, site, n, LastNumber(db.periods, site)), now)
  }

  // ---- from scratch ----

  /** The pace rows of the object's closed periods 1..n, computed from the facts alone. */
  function FullPace(db: Db, site: int, n: int): map<FactKey, PaceRow>
    decreases n
  {
    if n <= 0 then map[]
    else if IsClosed(db.periods, PeriodKey(site, n)) then FullPace(db, site, n - 1) + RowsFor(db, PeriodKey(site, n))
    else FullPace(db, site, n - 1)
  }

  function ScratchSnapshot(db: Db, k: PeriodKey, now: Time): Snapshot {
    SnapshotFor(db.(pace := FullPace(db, k.site, k.number)), k, now)
  }

  // ---- freshness ----

  /** Pace rows and snapshots exist for closed periods only, rows for items of the period's
      version only, and period numbers start at 1. */
  ghost predicate Shape(db: Db) {
    && (forall k | k in db.periods :: k.number > 0)
    && (forall fk | fk in db.pace ::
      IsClosed(db.periods, fk.period) && fk in RowKeys(fk.period, PeriodItems(db, fk.period)))
    && (forall k | k in db.snaps :: IsClosed(db.periods, k))
  }

  /** The stored pace rows of the period equal the from-scratch rows. */
  ghost predicate RowsFresh(db: Db, k: PeriodKey) {
    forall fk | fk in RowKeys(k, PeriodItems(db, k)) :: fk in db.pace && db.pace[fk] == RowFor(db, k, fk.item)
  }

  /** The stored snapshot equals the from-scratch one at the moment it was calculated. */
  ghost predicate SnapFresh(db: Db, k: PeriodKey) {
    k in db.snaps && db.snaps[k] == ScratchSnapshot(db, k, db.snaps[k].calculatedAt)
  }

  ghost predicate FreshAt(db: Db, site: int, j: int) {
    IsClosed(db.periods, PeriodKey(site, j)) ==> RowsFresh(db, PeriodKey(site, j)) && SnapFresh(db, PeriodKey(site, j))
  }

  ghost predicate FreshBelow(db: Db, site: int, n: int) { forall j | 0 < j < n :: FreshAt(db, site, j) }

  ghost predicate Fresh(db: Db) { Shape(db) && forall site, n :: FreshBelow(db, site, n) }

  // ---- frames ----

  /** The two stores agree on the closed periods 1..n of the object and on their facts. */
  ghost predicate SameHistory(d: Db, e: Db, site: int, n: int) {
    && ConfigOf(d, site) == ConfigOf(e, site)
    && forall j {:trigger PeriodKey(site, j)} | 0 < j <= n :: SameClosed(d, e, PeriodKey(site, j))
  }

  ghost predicate SameClosed(d: Db, e: Db, k: PeriodKey) {
    && (IsClosed(d.periods, k) <==> IsClosed(e.periods, k))
    && (IsClosed(d.periods, k) ==>
          && d.periods[k].plannedPause == e.periods[k].plannedPause
          && PeriodItems(d, k) == PeriodItems(e, k)
          && forall i :: See(d.facts, FactKey(k, i)) == See(e.facts, FactKey(k, i)))
  }

  ghost predicate SameRow(d: Db, e: Db, fk: FactKey) {
    && (fk in d.pace <==> fk in e.pace)
    && (fk in d.pace ==> d.pace[fk] == e.pace[fk] && IsClosed(d.periods, fk.period))
  }

  /** The two stores hold the same pace rows for periods 1..n, all of them closed. */
  ghost predicate SamePace(d: Db, e: Db, site: int, n: int) {
    forall j, i {:trigger FactKey(PeriodKey(site, j), i)} | 0 < j <= n :: SameRow(d, e, FactKey(PeriodKey(site, j), i))
  }

  lemma PrevClosedFrame(d: Db, e: Db, site: int, n: int, j: int)
    requires SameHistory(d, e, site, n) && j <= n + 1
    ensures PrevClosed(d.periods, site, j) == PrevClosed(e.periods, site, j)
  {
    var a, b := PrevClosed(d.periods, site, j), PrevClosed(e.periods, site, j);
    assert SameClosed(d, e, PeriodKey(site, a)) || a == 0;
    assert SameClosed(d, e, PeriodKey(site, b)) || b == 0;
  }

  lemma RowForFrame(d: Db, e: Db, k: PeriodKey, item: int)
    requires SameHistory(d, e, k.site, k.number) && k.number > 0 && IsClosed(d.periods, k)
    ensures RowFor(d, k, item) == RowFor(e, k, item)
  {
    PrevClosedFrame(d, e, k.site, k.number, k.number);
    var m := PrevClosed(d.periods, k.site, k.number);
    assert SameClosed(d, e, k);
    if m > 0 { assert SameClosed(d, e, PeriodKey(k.site, m)); }
  }

  lemma RowsForFrame(d: Db, e: Db, k: PeriodKey)
    requires SameHistory(d, e, k.site, k.number) && k.number > 0 && IsClosed(d.periods, k)
    ensures RowsFor(d, k) == RowsFor(e, k)
  {
    assert SameClosed(d, e, k);
    forall fk | fk in RowKeys(k, PeriodItems(d, k)) ensures RowFor(d, k, fk.item) == RowFor(e, k, fk.item) {
      RowForFrame(d, e, k, fk.item);
    }
  }

  lemma {:induction false} FullPaceFrame(d: Db, e: Db, site: int, n: int)
    requires SameHistory(d, e, site, n)
    ensures FullPace(d, site, n) == FullPace(e, site, n)
    decreases n
  {
    if n > 0 {
      FullPaceFrame(d, e, site, n - 1);
      assert SameClosed(d, e, PeriodKey(site, n));
      if IsClosed(d.periods, PeriodKey(site, n)) { RowsForFrame(d, e, PeriodKey(site, n)); }
    }
  }

  lemma {:induction false} WindowFrame(d: Db, e: Db, site: int, item: int, n: int, take: nat)
    requires SamePace(d, e, site, n)
    ensures Window(d, site, item, n, take) == Window(e, site, item, n, take)
    ensures forall j | j in Window(d, site, item, n, take) :: 0 < j <= n
    decreases n
  {
    if n > 0 && take > 0 {
      assert SameRow(d, e, FactKey(PeriodKey(site, n), item));
      WindowFrame(d, e, site, item, n - 1, take);
      WindowFrame(d, e, site, item, n - 1, take - 1);
    }
  }

  lemma {:induction false} CleanFrame(d: Db, e: Db, site: int, item: int, n: int, w: seq<int>)
    requires SameHistory(d, e, site, n) && SamePace(d, e, site, n)
    requires forall j | j in w :: 0 < j <= n
    ensures Clean(d, site, item, w) == Clean(e, site, item, w)
    ensures forall j | j in Clean(d, site, item, w) :: 0 < j <= n && FactKey(PeriodKey(site, j), item) in d.pace
  {
    if w != [] {
      assert w[0] in w && forall j | j in w[1..] :: j in w;
      assert SameRow(d, e, FactKey(PeriodKey(site, w[0]), item));
      assert SameClosed(d, e, PeriodKey(site, w[0]));
      CleanFrame(d, e, site, item, n, w[1..]);
    }
  }

  lemma {:induction false} VolumesFrame(d: Db, e: Db, site: int, item: int, n: int, w: seq<int>)
    requires SamePace(d, e, site, n) && forall j | j in w :: 0 < j <= n
    ensures Volumes(d, site, item, w) == Volumes(e, site, item, w)
  {
    if w != [] {
      assert w[0] in w && forall j | j in w[1..] :: j in w;
      assert SameRow(d, e, FactKey(PeriodKey(site, w[0]), item));
      VolumesFrame(d, e, site, item, n, w[1..]);
    }
  }

  lemma ItemEndFrame(d: Db, e: Db, k: PeriodKey, x: Item, now: Time)
    requires SameHistory(d, e, k.site, k.number) && SamePace(d, e, k.site, k.number)
    requires k.number > 0 && IsClosed(d.periods, k)
    ensures ItemEnd(d, k, x, now) == ItemEnd(e, k, x, now)
  {
    var n := k.number;
    WindowFrame(d, e, k.site, x.id, n, ConfigOf(d, k.site).avgPacePeriods);
    CleanFrame(d, e, k.site, x.id, n, Window(d, k.site, x.id, n, ConfigOf(d, k.site).avgPacePeriods));
    var w := CleanWindow(d, k, x.id);
    VolumesFrame(d, e, k.site, x.id, n, w);
    if w != [] {
      assert w[0] in w;
      assert SameRow(d, e, FactKey(PeriodKey(k.site, w[0]), x.id));
      assert SameClosed(d, e, PeriodKey(k.site, w[0]));
    }
    assert SameClosed(d, e, k);
  }

  lemma {:induction false} EntriesFrame(d: Db, e: Db, k: PeriodKey, items: seq<Item>, now: Time)
    requires SameHistory(d, e, k.site, k.number) && SamePace(d, e, k.site, k.number)
    requires k.number > 0 && IsClosed(d.periods, k)
    ensures Entries(d, k, items, now) == Entries(e, k, items, now)
  {
    if items != [] {
      ItemEndFrame(d, e, k, items[0], now);
      EntriesFrame(d, e, k, items[1..], now);
    }
  }

  lemma {:induction false} ReadinessFrame(d: Db, e: Db, k: PeriodKey, items: seq<Item>)
    requires forall i :: See(d.facts, FactKey(k, i)) == See(e.facts, FactKey(k, i))
    ensures ReadinessSum(d.facts, k, items) == ReadinessSum(e.facts, k, items)
  {
    if items != [] { ReadinessFrame(d, e, k, items[1..]); }
  }

  // ---- readiness, fact by fact ----

  ghost predicate DistinctItems(items: seq<Item>) { forall i, j | 0 <= i < j < |items| :: items[i].id != items[j].id }

  /** What the keys and triggers of the store ensure: item ids are unique, and every fact
      belongs to an item of its period's version. */
  ghost predicate FactsFit(db: Db) {
    && (forall k | k in db.periods :: DistinctItems(PeriodItems(db, k)))
    && (forall fk | fk in db.facts && fk.period in db.periods :: HasItem(PeriodItems(db, fk.period), fk.item))
  }

  /** The item of the version with the id. */
  function ItemWith(items: seq<Item>, id: int): (x: Item)
    requires HasItem(items, id)
    ensures x in items && x.id == id
  {
    if items[0].id == id then items[0]
    else
      assert forall x | x in items :: x == items[0] || x in items[1..];
      ItemWith(items[1..], id)
  }

  function Only(facts: map<FactKey, Fact>, keys: set<FactKey>): map<FactKey, Fact> {
    map fk | fk in facts && fk in keys :: facts[fk]
  }

  lemma {:induction false} NoFactsNoReadiness(facts: map<FactKey, Fact>, k: PeriodKey, items: seq<Item>)
    requires forall fk | fk in facts :: fk.period != k
    ensures ReadinessSum(facts, k, items) == 0.0
  {
    if items != [] { NoFactsNoReadiness(facts, k, items[1..]); }
  }

  lemma {:induction false} OtherItemsReadiness(facts: map<FactKey, Fact>, k: PeriodKey, items: seq<Item>, fk: FactKey)
    requires forall x | x in items :: x.id != fk.item
    ensures ReadinessSum(facts - {fk}, k, items) == ReadinessSum(facts, k, items)
  {
    if items != [] {
      assert items[0] in items && forall x | x in items[1..] :: x in items;
      OtherItemsReadiness(facts, k, items[1..], fk);
      hide ReadinessTerm;
    }
  }

  /** Taking one fact out of the sum takes out exactly the term of its item. */
  lemma {:induction false} ReadinessOfFact(facts: map<FactKey, Fact>, k: PeriodKey, items: seq<Item>, fk: FactKey)
    requires DistinctItems(items) && fk in facts && fk.period == k && HasItem(items, fk.item)
    ensures ReadinessSum(facts, k, items) ==
      ReadinessTerm(ItemWith(items, fk.item), See(facts, fk)) + ReadinessSum(facts - {fk}, k, items)
  {
    var rest := facts - {fk};
    assert fk == FactKey(k, fk.item);
    if items[0].id == fk.item {
      assert forall x | x in items[1..] :: x.id != fk.item;
      OtherItemsReadiness(facts, k, items[1..], fk);
      assert ReadinessTerm(items[0], See(rest, FactKey(k, items[0].id))) == 0.0;
    } else {
      assert forall x | x in items :: x == items[0] || x in items[1..];
      ReadinessOfFact(facts, k, items[1..], fk);
      assert See(rest, FactKey(k, items[0].id)) == See(facts, FactKey(k, items[0].id));
      hide ReadinessTerm;
    }
  }

  /** Readiness and forecast of a closed period depend only on the object's closed periods up
      to it, their facts and their pace rows. */
  lemma SnapshotFrame(d: Db, e: Db, k: PeriodKey, now: Time)
    requires SameHistory(d, e, k.site, k.number) && SamePace(d, e, k.site, k.number)
    requires k.number > 0 && IsClosed(d.periods, k)
    ensures SnapshotFor(d, k, now) == SnapshotFor(e, k, now)
  {
    assert SameClosed(d, e, k);
    EntriesFrame(d, e, k, PeriodItems(d, k), now);
    ReadinessFrame(d, e, k, PeriodItems(d, k));
  }

  /** The pace row belongs to a closed period 1..n of the object. */
  predicate Due(db: Db, site: int, n: int, fk: FactKey) {
    fk.period.site == site && 0 < fk.period.number <= n && IsClosed(db.periods, fk.period)
    && fk in RowKeys(fk.period, PeriodItems(db, fk.period))
  }

  lemma {:induction false} FullPaceRow(db: Db, site: int, n: int, fk: FactKey)
    ensures fk in FullPace(db, site, n) <==> Due(db, site, n, fk)
    ensures fk in FullPace(db, site, n) ==> FullPace(db, site, n)[fk] == RowFor(db, fk.period, fk.item)
    decreases n
  {
    if n > 0 {
      var k := PeriodKey(site, n);
      FullPaceRow(db, site, n - 1, fk);
      assert fk in RowsFor(db, k) <==> fk in RowKeys(k, PeriodItems(db, k));
      assert fk in RowsFor(db, k) ==> fk.period == k && RowsFor(db, k)[fk] == RowFor(db, k, fk.item);
      hide RowsFor, RowFor, RowKeys, PeriodItems;
    }
  }

  lemma FullPaceHolds(db: Db, site: int, n: int)
    ensures forall fk :: fk in FullPace(db, site, n) <==>
      fk.period.site == site && 0 < fk.period.number <= n && IsClosed(db.periods, fk.period)
      && fk in RowKeys(fk.period, PeriodItems(db, fk.period))
    ensures forall fk | fk in FullPace(db, site, n) :: FullPace(db, site, n)[fk] == RowFor(db, fk.period, fk.item)
  {
    hide FullPace, RowFor, RowKeys, PeriodItems;
    forall fk
      ensures fk in FullPace(db, site, n) <==> Due(db, site, n, fk)
      ensures fk in FullPace(db, site, n) ==> FullPace(db, site, n)[fk] == RowFor(db, fk.period, fk.item)
    {
      FullPaceRow(db, site, n, fk);
    }
  }

  lemma ScratchFrame(d: Db, e: Db, k: PeriodKey, now: Time)
    requires SameHistory(d, e, k.site, k.number) && k.number > 0 && IsClosed(d.periods, k)
    ensures ScratchSnapshot(d, k, now) == ScratchSnapshot(e, k, now)
  {
    FullPaceFrame(d, e, k.site, k.number);
    FullPaceHolds(d, k.site, k.number);
    var p := FullPace(d, k.site, k.number);
    var d', e' := d.(pace := p), e.(pace := p);
    forall j | 0 < j <= k.number ensures SameClosed(d', e', PeriodKey(k.site, j)) {
      assert SameClosed(d, e, PeriodKey(k.site, j));
    }
    SnapshotFrame(d', e', k, now);
  }

  /** When the stored rows up to the period are fresh, the stored-row computation gives the
      from-scratch snapshot. */
  lemma StoredEqualsScratch(db: Db, k: PeriodKey, now: Time)
    requires Shape(db) && IsClosed(db.periods, k)
    requires forall j | 0 < j <= k.number && IsClosed(db.periods, PeriodKey(k.site, j)) ::
      RowsFresh(db, PeriodKey(k.site, j))
    ensures SnapshotFor(db, k, now) == ScratchSnapshot(db, k, now)
  {
    FullPaceHolds(db, k.site, k.number);
    var e := db.(pace := FullPace(db, k.site, k.number));
    forall j, i | 0 < j <= k.number ensures SameRow(db, e, FactKey(PeriodKey(k.site, j), i)) {
      if IsClosed(db.periods, PeriodKey(k.site, j)) { assert RowsFresh(db, PeriodKey(k.site, j)); }
    }
    forall j | 0 < j <= k.number ensures SameClosed(db, e, PeriodKey(k.site, j)) {}
    SnapshotFrame(db, e, k, now);
  }

  /** Freshness of a period survives every change that leaves alone its stored data and the
      closed periods up to it. */
  lemma FreshAtFrame(d: Db, e: Db, site: int, j: int)
    requires j > 0 && SameHistory(d, e, site, j)
    requires IsClosed(d.periods, PeriodKey(site, j)) ==> FreshAt(d, site, j)
    requires forall fk | fk in d.pace && fk.period == PeriodKey(site, j) :: fk in e.pace && e.pace[fk] == d.pace[fk]
    requires PeriodKey(site, j) in d.snaps ==>
      PeriodKey(site, j) in e.snaps && e.snaps[PeriodKey(site, j)] == d.snaps[PeriodKey(site, j)]
    ensures FreshAt(e, site, j)
  {
    var k := PeriodKey(site, j);
    assert SameClosed(d, e, k);
    if IsClosed(d.periods, k) {
      ScratchFrame(d, e, k, d.snaps[k].calculatedAt);
      forall fk | fk in RowKeys(k, PeriodItems(e, k)) ensures fk in e.pace && e.pace[fk] == RowFor(e, k, fk.item) {
        RowForFrame(d, e, k, fk.item);
      }
    }
  }

  // ---- one recalculation ----

  /** Storing rows and a snapshot for one closed period keeps the history of the object. */
  lemma RecalculatedKeepsHistory(db: Db, k: PeriodKey, now: Time, site: int, n: int)
    ensures SameHistory(db, Recalculated(db, k, now), site, n)
    ensures SameHistory(WithRows(db, k), Recalculated(db, k, now), site, n)
  {
    var w, e := WithRows(db, k), Recalculated(db, k, now);
    forall j | 0 < j <= n
      ensures SameClosed(db, e, PeriodKey(site, j)) && SameClosed(w, e, PeriodKey(site, j))
    {}
  }

  lemma RecalculatedKeepsOthers(db: Db, k: PeriodKey, now: Time, site: int, j: int)
    requires PeriodKey(site, j) != k && j > 0 && FreshAt(db, site, j)
    ensures FreshAt(Recalculated(db, k, now), site, j)
  {
    RecalculatedKeepsHistory(db, k, now, site, j);
    assert forall fk | fk in RowsFor(db, k) :: fk.period == k;
    FreshAtFrame(db, Recalculated(db, k, now), site, j);
  }

  lemma WithRowsShape(db: Db, k: PeriodKey)
    requires Shape(db) && IsClosed(db.periods, k)
    ensures Shape(WithRows(db, k))
  {
    var w := WithRows(db, k);
    forall fk | fk in w.pace
      ensures IsClosed(w.periods, fk.period) && fk in RowKeys(fk.period, PeriodItems(w, fk.period))
    {
      assert PeriodItems(w, fk.period) == PeriodItems(db, fk.period);
      if fk in RowsFor(db, k) { assert fk.period == k; }
    }
  }

  lemma WithRowsFresh(db: Db, k: PeriodKey, j: PeriodKey)
    requires j == k || RowsFresh(db, j)
    ensures RowsFresh(WithRows(db, k), j)
  {
    var w := WithRows(db, k);
    assert PeriodItems(w, j) == PeriodItems(db, j);
    forall fk | fk in RowKeys(j, PeriodItems(w, j)) ensures fk in w.pace && w.pace[fk] == RowFor(w, j, fk.item) {
      assert RowFor(w, j, fk.item) == RowFor(db, j, fk.item);
      if j != k { assert fk !in RowsFor(db, k); }
    }
  }

  /** The recalculated period itself: rows and snapshot agree with the from-scratch result. */
  lemma RecalculatedSelf(db: Db, k: PeriodKey, now: Time)
    requires Shape(db) && IsClosed(db.periods, k)
    requires FreshBelow(db, k.site, k.number)
    ensures var e := Recalculated(db, k, now);
      RowsFresh(e, k) && k in e.snaps && e.snaps[k] == ScratchSnapshot(e, k, now)
  {
    var w, e := WithRows(db, k), Recalculated(db, k, now);
    WithRowsShape(db, k);
    forall j | 0 < j <= k.number && IsClosed(w.periods, PeriodKey(k.site, j))
      ensures RowsFresh(w, PeriodKey(k.site, j)) {
      if j < k.number { assert FreshAt(db, k.site, j); }
      WithRowsFresh(db, k, PeriodKey(k.site, j));
    }
    StoredEqualsScratch(w, k, now);
    RecalculatedKeepsHistory(db, k, now, k.site, k.number);
    ScratchFrame(w, e, k, now);
    RecalculatedRows(db, k, now);
  }

  lemma RecalculatedRows(db: Db, k: PeriodKey, now: Time)
    requires IsClosed(db.periods, k) && k.number > 0
    ensures RowsFresh(Recalculated(db, k, now), k)
  {
    var w, e := WithRows(db, k), Recalculated(db, k, now);
    WithRowsFresh(db, k, k);
    RecalculatedKeepsHistory(db, k, now, k.site, k.number);
    forall fk | fk in RowKeys(k, PeriodItems(e, k)) ensures fk in e.pace && e.pace[fk] == RowFor(e, k, fk.item) {
      RowForFrame(w, e, k, fk.item);
    }
  }

  lemma RecalculatedShape(db: Db, k: PeriodKey, now: Time)
    requires Shape(db) && IsClosed(db.periods, k)
    ensures Shape(Recalculated(db, k, now))
  {
    hide SnapshotFor, SpikesOf;
    WithRowsShape(db, k);
    var w, e := WithRows(db, k), Recalculated(db, k, now);
    forall fk | fk in e.pace ensures IsClosed(e.periods, fk.period)
      && fk in RowKeys(fk.period, PeriodItems(e, fk.period)) {
      assert PeriodItems(w, fk.period) == PeriodItems(e, fk.period);
    }
  }

  /** Recalculating one closed period whose predecessors are fresh makes it fresh, at the
      given moment, and leaves every earlier period fresh. */
  lemma RecalculatedFresh(db: Db, k: PeriodKey, now: Time)
    requires Shape(db) && IsClosed(db.periods, k)
    requires FreshBelow(db, k.site, k.number)
    ensures Shape(Recalculated(db, k, now))
    ensures FreshBelow(Recalculated(db, k, now), k.site, k.number + 1)
    ensures k in Recalculated(db, k, now).snaps && Recalculated(db, k, now).snaps[k].calculatedAt == now
  {
    var e := Recalculated(db, k, now);
    RecalculatedShape(db, k, now);
    RecalculatedSelf(db, k, now);
    forall j | 0 < j < k.number + 1 ensures FreshAt(e, k.site, j) {
      if j < k.number {
        assert FreshAt(db, k.site, j);
        RecalculatedKeepsOthers(db, k, now, k.site, j);
      }
    }
  }
}

/** Closing a period below an already closed one: what stays right without a cascade. */
module LateClosing {
  import opened Common
  import opened Store
  import opened Pace
  import opened Derived
  import opened PeriodSpec
  import opened Runs
  import opened Lifecycle
  import opened BoqChain
  import opened Freshness
  import opened Telescoping

  /** No item of the next closed period moved in the late one. */
  ghost predicate NothingMoved(db: Db, k: PeriodKey, next: int) {
    var q := PeriodKey(k.site, next);
    forall fk | fk in RowKeys(q, PeriodItems(db, q)) :: Delta(db, k, fk.item) == 0.0
  }

  /** The number of closed periods of the version after lo, up to n. */
  function ClosedCount(db: Db, site: int, version: nat, lo: int, n: int): nat
    decreases n
  {
    if n <= lo || n <= 0 then 0
    else (if ClosedWith(db, PeriodKey(site, n), version) then 1 else 0) + ClosedCount(db, site, version, lo, n - 1)
  }

  /** The late period takes no place in a forecast window of period q: it has other items, or
      enough closed periods of the same version lie between. */
  ghost predicate OutOfWindow(db: Db, k: PeriodKey, q: PeriodKey)
    requires k in db.periods && q in db.periods
  {
    var version := db.periods[q].version;
    db.periods[k].version != version
    || ClosedCount(db, q.site, version, k.number, q.number) >= ConfigOf(db, q.site).avgPacePeriods
  }

  ghost predicate RowsAllFresh(db: Db, site: int) {
    forall j | 0 < j && IsClosed(db.periods, PeriodKey(site, j)) :: RowsFresh(db, PeriodKey(site, j))
  }

  // ---- the state after a late close ----

  /** What closing k changes besides its own rows and snapshot: nothing but its status. */
  ghost predicate ClosedLate(db: Db, e: Db, k: PeriodKey) {
    && k in db.periods && !ClosedStatus(db.periods[k].status) && k.number > 0
    && e.periods == db.periods[k := db.periods[k].(status := Closed)]
    && e == db.(periods := e.periods, pace := e.pace, snaps := e.snaps, spikes := e.spikes)
    && (forall fk: FactKey {:trigger fk in e.pace} | fk.period != k ::
          (fk in e.pace <==> fk in db.pace) && (fk in db.pace ==> e.pace[fk] == db.pace[fk]))
    && (forall q: PeriodKey {:trigger q in e.snaps} | q != k ::
          (q in e.snaps <==> q in db.snaps) && (q in db.snaps ==> e.snaps[q] == db.snaps[q]))
  }

  lemma CloseIsLate(db: Db, k: PeriodKey, now: Time)
    requires Shape(db) && ClosePeriod(db, k, now).Ok?
    ensures ClosedLate(db, ClosePeriod(db, k, now).value, k)
  {
    var d, e := MarkedClosed(db, k), ClosePeriod(db, k, now).value;
    assert k in db.periods && !ClosedStatus(db.periods[k].status) && e == Recalculated(d, k, now) by {
      hide Recalculated, HasOpenDiscrepancy;
    }
    assert forall fk | fk in RowsFor(d, k) :: fk.period == k;
    RecalculatedPeriods(d, k, now);
    hide ClosePeriod, SnapshotFor, RowsFor, SpikesOf;
  }

  /** The closed period before j is the same when another closed period lies between k and j. */
  lemma SamePredecessor(p: map<PeriodKey, Period>, k: PeriodKey, j: int, done: Period)
    requires k.number > 0 && !IsClosed(p, k) && ClosedStatus(done.status)
    requires j <= k.number || exists m :: k.number < m < j && IsClosed(p, PeriodKey(k.site, m))
    ensures PrevClosed(p[k := done], k.site, j) == PrevClosed(p, k.site, j)
  {
    var q := p[k := done];
    var a, b := PrevClosed(p, k.site, j), PrevClosed(q, k.site, j);
    assert forall m | m != k.number :: IsClosed(q, PeriodKey(k.site, m)) <==> IsClosed(p, PeriodKey(k.site, m));
  }

  lemma RowStays(db: Db, e: Db, k: PeriodKey, j: int, item: int)
    requires ClosedLate(db, e, k) && PrevClosed(e.periods, k.site, j) == PrevClosed(db.periods, k.site, j)
    requires j != k.number
    ensures RowFor(e, PeriodKey(k.site, j), item) == RowFor(db, PeriodKey(k.site, j), item)
  {
    hide PrevClosed;
  }

  /** With nothing moved, the rows of every other closed period are the same from scratch. */
  lemma RowsStay(db: Db, e: Db, k: PeriodKey, next: int, j: int, item: int)
    requires ClosedLate(db, e, k) && IsNextClosed(db, k, next) && NothingMoved(db, k, next)
    requires j > 0 && j != k.number && IsClosed(db.periods, PeriodKey(k.site, j))
    requires FactKey(PeriodKey(k.site, j), item) in RowKeys(PeriodKey(k.site, j), PeriodItems(db, PeriodKey(k.site, j)))
    ensures RowFor(e, PeriodKey(k.site, j), item) == RowFor(db, PeriodKey(k.site, j), item)
  {
    var done := db.periods[k].(status := Closed);
    if j == next {
      var q := PeriodKey(k.site, next);
      NewPredecessor(db.periods, k, next, done);
      LateRow(db, e, k, q, item);
      assert FactKey(q, item) in RowKeys(q, PeriodItems(db, q));
      assert Delta(db, k, item) == 0.0;
    } else {
      if j > k.number { assert k.number < next < j; }
      SamePredecessor(db.periods, k, j, done);
      RowStays(db, e, k, j, item);
    }
  }

  // ---- windows that the late period does not enter ----

  /** The item has the same row in both stores, or none. */
  predicate SameItemRow(d: Db, e: Db, site: int, item: int, j: int) {
    var fk := FactKey(PeriodKey(site, j), item);
    (fk in d.pace <==> fk in e.pace) && (fk in d.pace ==> d.pace[fk] == e.pace[fk])
  }

  function RowCount(d: Db, site: int, item: int, lo: int, n: int): nat
    decreases n
  {
    if n <= lo || n <= 0 then 0
    else (if FactKey(PeriodKey(site, n), item) in d.pace then 1 else 0) + RowCount(d, site, item, lo, n - 1)
  }

  lemma {:induction false} WindowAbove(d: Db, e: Db, site: int, item: int, lo: int, n: int, take: nat)
    requires lo >= 0 && forall j | lo < j <= n :: SameItemRow(d, e, site, item, j)
    requires lo == 0 || take <= RowCount(d, site, item, lo, n)
    ensures Window(d, site, item, n, take) == Window(e, site, item, n, take)
    ensures forall j | j in Window(d, site, item, n, take) :: lo < j <= n
    decreases n
  {
    if n > lo && take > 0 {
      assert SameItemRow(d, e, site, item, n);
      if FactKey(PeriodKey(site, n), item) in d.pace { WindowAbove(d, e, site, item, lo, n - 1, take - 1); }
      else { WindowAbove(d, e, site, item, lo, n - 1, take); }
    }
  }

  predicate SamePause(d: Db, e: Db, k: PeriodKey) {
    (k in d.periods && d.periods[k].plannedPause) <==> (k in e.periods && e.periods[k].plannedPause)
  }

  lemma {:induction false} SameVolumes(d: Db, e: Db, site: int, item: int, w: seq<int>)
    requires forall j | j in w :: SameItemRow(d, e, site, item, j) && SamePause(d, e, PeriodKey(site, j))
    ensures Clean(d, site, item, w) == Clean(e, site, item, w)
    ensures Volumes(d, site, item, Clean(d, site, item, w)) == Volumes(e, site, item, Clean(e, site, item, w))
  {
    if w != [] {
      assert w[0] in w && forall j | j in w[1..] :: j in w;
      assert SameItemRow(d, e, site, item, w[0]) && SamePause(d, e, PeriodKey(site, w[0]));
      SameVolumes(d, e, site, item, w[1..]);
      var rest := Clean(d, site, item, w[1..]);
      assert ([w[0]] + rest)[1..] == rest && [] + rest == rest;
    }
  }

  lemma SameEnd(d: Db, e: Db, q: PeriodKey, x: Item, lo: int, now: Time)
    requires d.sites == e.sites && d.facts == e.facts && forall k :: SamePause(d, e, k)
    requires lo >= 0 && forall j | lo < j <= q.number :: SameItemRow(d, e, q.site, x.id, j)
    requires lo == 0 || ConfigOf(d, q.site).avgPacePeriods <= RowCount(d, q.site, x.id, lo, q.number)
    ensures ItemEnd(d, q, x, now) == ItemEnd(e, q, x, now)
  {
    var take := ConfigOf(d, q.site).avgPacePeriods;
    var w := Window(d, q.site, x.id, q.number, take);
    WindowAbove(d, e, q.site, x.id, lo, q.number, take);
    forall j | j in w ensures SameItemRow(d, e, q.site, x.id, j) && SamePause(d, e, PeriodKey(q.site, j)) {}
    SameVolumes(d, e, q.site, x.id, w);
    hide Window, Clean, Volumes, FinalPace, EndDate, SamePause, SameItemRow;
  }

  lemma {:induction false} SameEntries(d: Db, e: Db, q: PeriodKey, items: seq<Item>, now: Time)
    requires forall x | x in items :: ItemEnd(d, q, x, now) == ItemEnd(e, q, x, now)
    ensures Entries(d, q, items, now) == Entries(e, q, items, now)
  {
    hide ItemEnd;
    if items != [] {
      assert items[0] in items && forall x | x in items[1..] :: x in items;
      SameEntries(d, e, q, items[1..], now);
    }
  }

  // ---- snapshots after a late close ----

  lemma {:induction false} CountRows(db: Db, d: Db, site: int, version: nat, item: int, lo: int, n: int)
    requires forall j | 0 < j <= n && ClosedWith(db, PeriodKey(site, j), version) ::
      FactKey(PeriodKey(site, j), item) in d.pace
    ensures ClosedCount(db, site, version, lo, n) <= RowCount(d, site, item, lo, n)
    decreases n
  {
    if n > lo && n > 0 { CountRows(db, d, site, version, item, lo, n - 1); }
  }

  /** The rows from scratch of the item, in the store before and after. */
  lemma ScratchRow(db: Db, e: Db, k: PeriodKey, next: int, n: int, j: int, item: int)
    requires ClosedLate(db, e, k) && IsNextClosed(db, k, next) && NothingMoved(db, k, next) && 0 < j <= n
      && j != k.number
    ensures SameItemRow(Scratch(db, k.site, n), Scratch(e, k.site, n), k.site, item, j)
  {
    FullPaceHolds(db, k.site, n);
    FullPaceHolds(e, k.site, n);
    var q := PeriodKey(k.site, j);
    assert PeriodItems(e, q) == PeriodItems(db, q) && (IsClosed(e.periods, q) <==> IsClosed(db.periods, q));
    var fk := FactKey(q, item);
    if IsClosed(db.periods, q) && fk in RowKeys(q, PeriodItems(db, q)) { RowsStay(db, e, k, next, j, item); }
    hide FullPace, RowFor, NothingMoved, IsNextClosed;
  }

  /** The late period has no row of an item of another version, from scratch or not. */
  lemma NoRowOfOther(db: Db, e: Db, k: PeriodKey, q: PeriodKey, x: Item)
    requires ClosedLate(db, e, k) && Base(db) && Chain(db.versions, db.nextItem)
    requires q in db.periods && q.site == k.site && db.periods[q].version != db.periods[k].version
      && x in PeriodItems(db, q)
    ensures SameItemRow(Scratch(db, k.site, q.number), Scratch(e, k.site, q.number), k.site, x.id, k.number)
  {
    FullPaceHolds(db, k.site, q.number);
    FullPaceHolds(e, k.site, q.number);
    assert PeriodItems(e, k) == PeriodItems(db, k) && k == PeriodKey(k.site, k.number);
    hide FullPace, RowFor, FactsOk, DisputesOk, Numbered, Chain;
    if FactKey(k, x.id) in RowKeys(k, PeriodItems(db, k)) {
      assert HasItem(db.versions[db.periods[k].version].items, x.id)
        && HasItem(db.versions[db.periods[q].version].items, x.id);
      SameVersion(db, db.periods[k].version, db.periods[q].version, x.id);
    }
  }

  /** The store with the rows of the object up to n from scratch. */
  function Scratch(db: Db, site: int, n: int): Db { db.(pace := FullPace(db, site, n)) }

  lemma ScratchPauses(db: Db, e: Db, k: PeriodKey, n: int)
    requires ClosedLate(db, e, k)
    ensures var d', e' := Scratch(db, k.site, n), Scratch(e, k.site, n);
      d'.sites == e'.sites && d'.facts == e'.facts && forall p :: SamePause(d', e', p)
  {
    hide FullPace;
  }

  lemma ScratchRows(db: Db, e: Db, k: PeriodKey, next: int, n: int, item: int)
    requires ClosedLate(db, e, k) && IsNextClosed(db, k, next) && NothingMoved(db, k, next)
    ensures forall j | 0 < j <= n && j != k.number ::
      SameItemRow(Scratch(db, k.site, n), Scratch(e, k.site, n), k.site, item, j)
  {
    hide ClosedLate, IsNextClosed, NothingMoved, SameItemRow, Scratch;
    forall j | 0 < j <= n && j != k.number
      ensures SameItemRow(Scratch(db, k.site, n), Scratch(e, k.site, n), k.site, item, j) {
      ScratchRow(db, e, k, next, n, j, item);
    }
  }

  lemma FarItemEnd(db: Db, e: Db, k: PeriodKey, next: int, q: PeriodKey, x: Item, now: Time)
    requires ClosedLate(db, e, k) && IsNextClosed(db, k, next) && NothingMoved(db, k, next)
    requires q.site == k.site && q.number > k.number > 0 && q in db.periods && x in PeriodItems(db, q)
    requires ClosedCount(db, q.site, db.periods[q].version, k.number, q.number) >= ConfigOf(db, q.site).avgPacePeriods
    ensures ItemEnd(Scratch(db, k.site, q.number), q, x, now) == ItemEnd(Scratch(e, k.site, q.number), q, x, now)
  {
    var d', e' := Scratch(db, k.site, q.number), Scratch(e, k.site, q.number);
    ScratchPauses(db, e, k, q.number);
    ScratchRows(db, e, k, next, q.number, x.id);
    RowsOfVersion(db, k.site, q, x);
    CountRows(db, d', k.site, db.periods[q].version, x.id, k.number, q.number);
    hide ItemEnd, FullPace, IsNextClosed, NothingMoved, SamePause, ClosedLate, SameItemRow, ClosedWith, PeriodItems;
    SameEnd(d', e', q, x, k.number, now);
  }

  lemma OtherItemEnd(db: Db, e: Db, k: PeriodKey, next: int, q: PeriodKey, x: Item, now: Time)
    requires ClosedLate(db, e, k) && Base(db) && Chain(db.versions, db.nextItem) && IsNextClosed(db, k, next)
      && NothingMoved(db, k, next)
    requires q.site == k.site && q in db.periods && k in db.periods && x in PeriodItems(db, q)
    requires db.periods[k].version != db.periods[q].version
    ensures ItemEnd(Scratch(db, k.site, q.number), q, x, now) == ItemEnd(Scratch(e, k.site, q.number), q, x, now)
  {
    ScratchPauses(db, e, k, q.number);
    ScratchRows(db, e, k, next, q.number, x.id);
    NoRowOfOther(db, e, k, q, x);
    hide ItemEnd, Scratch, IsNextClosed, NothingMoved, SamePause, ClosedLate, SameItemRow, PeriodItems, Base, Chain;
    SameEnd(Scratch(db, k.site, q.number), Scratch(e, k.site, q.number), q, x, 0, now);
  }

  lemma LateItemEnd(db: Db, e: Db, k: PeriodKey, next: int, q: PeriodKey, x: Item, now: Time)
    requires ClosedLate(db, e, k) && Base(db) && Chain(db.versions, db.nextItem) && IsNextClosed(db, k, next)
      && NothingMoved(db, k, next)
    requires q.site == k.site && q.number > k.number && IsClosed(db.periods, q) && OutOfWindow(db, k, q)
      && x in PeriodItems(db, q)
    ensures ItemEnd(Scratch(db, k.site, q.number), q, x, now) == ItemEnd(Scratch(e, k.site, q.number), q, x, now)
  {
    assert k.number > 0 && k in db.periods;
    hide ItemEnd, Scratch, Base, Chain, IsNextClosed, NothingMoved, ClosedLate, PeriodItems;
    if db.periods[k].version != db.periods[q].version { OtherItemEnd(db, e, k, next, q, x, now); }
    else { FarItemEnd(db, e, k, next, q, x, now); }
  }

  lemma RowsOfVersion(db: Db, site: int, q: PeriodKey, x: Item)
    requires q in db.periods && x in PeriodItems(db, q)
    ensures forall j | 0 < j <= q.number && ClosedWith(db, PeriodKey(site, j), db.periods[q].version) ::
      FactKey(PeriodKey(site, j), x.id) in FullPace(db, site, q.number)
  {
    FullPaceHolds(db, site, q.number);
    forall j | 0 < j <= q.number && ClosedWith(db, PeriodKey(site, j), db.periods[q].version)
      ensures FactKey(PeriodKey(site, j), x.id) in FullPace(db, site, q.number)
    {
      var k := PeriodKey(site, j);
      assert PeriodItems(db, k) == PeriodItems(db, q);
      assert FactKey(k, x.id) in RowKeys(k, PeriodItems(db, k));
    }
  }

  lemma LateSnapshot(db: Db, e: Db, k: PeriodKey, next: int, q: PeriodKey, now: Time)
    requires ClosedLate(db, e, k) && Base(db) && Chain(db.versions, db.nextItem) && IsNextClosed(db, k, next)
      && NothingMoved(db, k, next)
    requires q.site == k.site && q.number > k.number && IsClosed(db.periods, q) && OutOfWindow(db, k, q)
    ensures ScratchSnapshot(e, q, now) == ScratchSnapshot(db, q, now)
  {
    var d', e' := Scratch(db, k.site, q.number), Scratch(e, k.site, q.number);
    var items := PeriodItems(db, q);
    assert PeriodItems(d', q) == items && PeriodItems(e', q) == items;
    forall x | x in items
      ensures ItemEnd(d', q, x, now) == ItemEnd(e', q, x, now) { LateItemEnd(db, e, k, next, q, x, now); }
    SameEntries(d', e', q, items, now);
    assert Readiness(d', q) == Readiness(e', q);
    hide Entries, Readiness, ItemEnd, FullPace, Base, Chain, IsNextClosed, NothingMoved, OutOfWindow, ForecastFrom,
      PeriodItems;
  }

  // ---- what stays right ----

  lemma LateRowsFresh(db: Db, e: Db, k: PeriodKey, next: int, j: int)
    requires ClosedLate(db, e, k) && IsNextClosed(db, k, next) && NothingMoved(db, k, next)
    requires j > 0 && j != k.number && IsClosed(db.periods, PeriodKey(k.site, j)) && RowsFresh(db, PeriodKey(k.site, j))
    ensures RowsFresh(e, PeriodKey(k.site, j))
  {
    var q := PeriodKey(k.site, j);
    assert PeriodItems(e, q) == PeriodItems(db, q);
    hide NothingMoved, IsNextClosed, RowFor;
    forall fk | fk in RowKeys(q, PeriodItems(e, q)) ensures fk in e.pace && e.pace[fk] == RowFor(e, q, fk.item) {
      RowsStay(db, e, k, next, j, fk.item);
      assert fk.period == q;
    }
  }

  /** Closing a period below a closed one leaves all pace rows of the object right exactly when no
      item of the next closed period moved in the late one. */
  lemma LateCloseRowsIff(db: Db, k: PeriodKey, now: Time, next: int)
    requires Fresh(db) && ClosePeriod(db, k, now).Ok? && IsNextClosed(db, k, next)
    ensures RowsAllFresh(ClosePeriod(db, k, now).value, k.site) <==> NothingMoved(db, k, next)
  {
    var e := ClosePeriod(db, k, now).value;
    CloseIsLate(db, k, now);
    LateCloseIsRightIff(db, k, now, next);
    assert IsClosed(e.periods, PeriodKey(k.site, next)) && next > 0;
    if NothingMoved(db, k, next) {
      ClosedSelf(db, k, now);
      forall j | 0 < j && IsClosed(e.periods, PeriodKey(k.site, j)) ensures RowsFresh(e, PeriodKey(k.site, j)) {
        if j != k.number {
          assert FreshBelow(db, k.site, j + 1) && FreshAt(db, k.site, j);
          hide RowsFresh, SnapFresh, ClosePeriod, Fresh, IsNextClosed, NothingMoved;
          LateRowsFresh(db, e, k, next, j);
        }
      }
    }
    hide ClosePeriod, RowsFresh;
  }

  lemma ClosedSelf(db: Db, k: PeriodKey, now: Time)
    requires Fresh(db) && ClosePeriod(db, k, now).Ok?
    ensures var e := ClosePeriod(db, k, now).value; Shape(e) && FreshBelow(e, k.site, k.number + 1) && RowsFresh(e, k)
  {
    var d := MarkedClosed(db, k);
    assert k in db.periods && !ClosedStatus(db.periods[k].status)
      && ClosePeriod(db, k, now).value == Recalculated(d, k, now) by {
      hide Recalculated, HasOpenDiscrepancy;
    }
    hide ClosePeriod;
    assert k.number > 0;
    MarkedShape(db, k);
    MarkedFreshBelow(db, k, k.site, k.number);
    RecalculatedFresh(d, k, now);
    RecalculatedRows(d, k, now);
  }

  /** A late close keeps everything stored right, snapshots included, exactly when nothing moved,
      as long as the late period takes no place in the windows of the later closed ones. */
  lemma LateCloseFreshIff(db: Db, k: PeriodKey, now: Time, next: int)
    requires Base(db) && Chain(db.versions, db.nextItem) && Fresh(db) && ClosePeriod(db, k, now).Ok?
      && IsNextClosed(db, k, next)
    requires k in db.periods
    requires forall j | j > k.number && IsClosed(db.periods, PeriodKey(k.site, j)) ::
      OutOfWindow(db, k, PeriodKey(k.site, j))
    ensures Fresh(ClosePeriod(db, k, now).value) <==> NothingMoved(db, k, next)
  {
    var e := ClosePeriod(db, k, now).value;
    CloseIsLate(db, k, now);
    LateCloseRowsIff(db, k, now, next);
    ClosedSelf(db, k, now);
    if NothingMoved(db, k, next) {
      forall site, n ensures FreshBelow(e, site, n) {
        forall j | 0 < j < n ensures FreshAt(e, site, j) {
          if site == k.site && j <= k.number { assert FreshBelow(e, site, k.number + 1); }
          else if site == k.site { LateFreshAt(db, e, k, next, j); }
          else { OtherFreshAt(db, e, k, site, j); }
        }
      }
    } else {
      FreshHasRows(e, k.site);
    }
    hide ClosePeriod;
  }

  lemma FreshHasRows(e: Db, site: int)
    ensures Fresh(e) ==> RowsAllFresh(e, site)
  {
    hide RowsFresh, SnapFresh;
    if Fresh(e) {
      forall j | 0 < j && IsClosed(e.periods, PeriodKey(site, j)) ensures RowsFresh(e, PeriodKey(site, j)) {
        assert FreshBelow(e, site, j + 1) && FreshAt(e, site, j);
      }
    }
  }

  lemma SnapFreshAt(db: Db, q: PeriodKey)
    requires Fresh(db) && IsClosed(db.periods, q)
    ensures SnapFresh(db, q)
  {
    hide RowsFresh, SnapFresh;
    assert q.number > 0;
    assert FreshBelow(db, q.site, q.number + 1) && FreshAt(db, q.site, q.number);
  }

  lemma SnapStaysFresh(db: Db, e: Db, q: PeriodKey)
    requires SnapFresh(db, q) && q in e.snaps && e.snaps[q] == db.snaps[q]
    requires ScratchSnapshot(e, q, db.snaps[q].calculatedAt) == ScratchSnapshot(db, q, db.snaps[q].calculatedAt)
    ensures SnapFresh(e, q)
  {
    hide ScratchSnapshot;
  }

  lemma LateFreshAt(db: Db, e: Db, k: PeriodKey, next: int, j: int)
    requires Fresh(db) && Base(db) && Chain(db.versions, db.nextItem) && ClosedLate(db, e, k)
    requires IsNextClosed(db, k, next) && NothingMoved(db, k, next) && j > k.number && RowsAllFresh(e, k.site)
    requires IsClosed(db.periods, PeriodKey(k.site, j)) ==> OutOfWindow(db, k, PeriodKey(k.site, j))
    ensures FreshAt(e, k.site, j)
  {
    var q := PeriodKey(k.site, j);
    if IsClosed(e.periods, q) {
      hide RowsFresh, ScratchSnapshot, OutOfWindow, Base, Chain, NothingMoved, IsNextClosed;
      assert IsClosed(db.periods, q) && RowsFresh(e, q);
      SnapFreshAt(db, q);
      hide Fresh, RowsAllFresh;
      LateSnapshot(db, e, k, next, q, db.snaps[q].calculatedAt);
      assert q in e.snaps && e.snaps[q] == db.snaps[q];
      hide ClosedLate, SnapFresh;
      SnapStaysFresh(db, e, q);
    }
  }

  lemma OtherHistory(db: Db, e: Db, k: PeriodKey, site: int, j: int)
    requires ClosedLate(db, e, k) && site != k.site
    ensures SameHistory(db, e, site, j)
  {
    forall i | 0 < i <= j ensures SameClosed(db, e, PeriodKey(site, i)) {
      assert PeriodKey(site, i) != k;
      assert PeriodItems(e, PeriodKey(site, i)) == PeriodItems(db, PeriodKey(site, i));
    }
  }

  lemma OtherRows(db: Db, e: Db, k: PeriodKey, q: PeriodKey)
    requires ClosedLate(db, e, k) && q != k
    ensures forall fk | fk in db.pace && fk.period == q :: fk in e.pace && e.pace[fk] == db.pace[fk]
    ensures q in db.snaps ==> q in e.snaps && e.snaps[q] == db.snaps[q]
  {
  }

  lemma FreshEverywhere(db: Db, site: int, j: int)
    requires Fresh(db) && j > 0
    ensures FreshAt(db, site, j)
  {
    assert FreshBelow(db, site, j + 1);
    hide FreshAt, Shape;
  }

  lemma OtherFreshAt(db: Db, e: Db, k: PeriodKey, site: int, j: int)
    requires Fresh(db) && ClosedLate(db, e, k) && site != k.site && j > 0
    ensures FreshAt(e, site, j)
  {
    hide Fresh, FreshAt, ClosedLate, SameHistory;
    OtherHistory(db, e, k, site, j);
    FreshEverywhere(db, site, j);
    OtherRows(db, e, k, PeriodKey(site, j));
    FreshAtFrame(db, e, site, j);
  }
}

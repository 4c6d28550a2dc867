/** Recomputing a suffix of an object's closed periods agrees with recomputing everything. */
module CascadeTheorems {
  import opened Common
  import opened Store
  import opened Pace
  import opened Derived

  /** Nothing is left to do for the period: rows, snapshot and spike flags are what a
      recalculation at `now` would store. */
  ghost predicate Settled(db: Db, k: PeriodKey, now: Time) {
    && RowsFresh(db, k)
    && k in db.snaps && db.snaps[k] == ScratchSnapshot(db, k, now)
    && SpikesOf(db, k, PeriodItems(db, k)) <= db.spikes
  }

  ghost predicate SettledAt(db: Db, site: int, j: int, now: Time) {
    IsClosed(db.periods, PeriodKey(site, j)) ==> Settled(db, PeriodKey(site, j), now)
  }

  ghost predicate SettledFrom(db: Db, site: int, n: int, m: int, now: Time) {
    forall j | n <= j < m :: SettledAt(db, site, j, now)
  }

  /** Pace rows and snapshots of other objects and of periods below n are the same. */
  ghost predicate SameElsewhere(d: Db, e: Db, site: int, n: int) {
    && (forall fk: FactKey {:trigger fk in e.pace} {:trigger fk in d.pace} ::
      fk.period.site != site || fk.period.number < n ==>
          (fk in e.pace <==> fk in d.pace) && (fk in d.pace ==> e.pace[fk] == d.pace[fk]))
    && (forall k: PeriodKey {:trigger k in e.snaps} {:trigger k in d.snaps} :: k.site != site || k.number < n ==>
          (k in e.snaps <==> k in d.snaps) && (k in d.snaps ==> e.snaps[k] == d.snaps[k]))
  }

  lemma {:induction false} SpikesFrame(d: Db, e: Db, k: PeriodKey, items: seq<Item>)
    requires SameHistory(d, e, k.site, k.number) && SamePace(d, e, k.site, k.number)
    requires k.number > 0 && IsClosed(d.periods, k)
    ensures SpikesOf(d, k, items) == SpikesOf(e, k, items)
  {
    if items != [] {
      var x, n := items[0], k.number;
      WindowFrame(d, e, k.site, x.id, n, ConfigOf(d, k.site).avgPacePeriods);
      CleanFrame(d, e, k.site, x.id, n, Window(d, k.site, x.id, n, ConfigOf(d, k.site).avgPacePeriods));
      var w := CleanWindow(d, k, x.id);
      VolumesFrame(d, e, k.site, x.id, n, w);
      if w != [] {
        assert w[0] in w;
        assert SameRow(d, e, FactKey(PeriodKey(k.site, w[0]), x.id));
        assert SameClosed(d, e, PeriodKey(k.site, w[0]));
      }
      SpikesFrame(d, e, k, items[1..]);
    }
  }

  /** Recalculating a later period of the object leaves the pace rows up to n alone. */
  lemma RecalculatedKeepsPace(db: Db, k: PeriodKey, now: Time, n: int)
    requires Shape(db) && n < k.number
    ensures SamePace(db, Recalculated(db, k, now), k.site, n)
  {
    var e := Recalculated(db, k, now);
    assert forall fk | fk in RowsFor(db, k) :: fk.period == k;
    forall j, i | 0 < j <= n ensures SameRow(db, e, FactKey(PeriodKey(k.site, j), i)) {}
  }

  lemma RecalculatedKeepsSettled(db: Db, k: PeriodKey, now: Time, j: int)
    requires Shape(db) && IsClosed(db.periods, k) && 0 < j < k.number
    requires IsClosed(db.periods, PeriodKey(k.site, j)) && Settled(db, PeriodKey(k.site, j), now)
    ensures Settled(Recalculated(db, k, now), PeriodKey(k.site, j), now)
  {
    var e, p := Recalculated(db, k, now), PeriodKey(k.site, j);
    RecalculatedKeepsHistory(db, k, now, k.site, j);
    RecalculatedKeepsPace(db, k, now, j);
    assert SameClosed(db, e, p);
    SpikesFrame(db, e, p, PeriodItems(db, p));
    ScratchFrame(db, e, p, now);
    forall fk | fk in RowKeys(p, PeriodItems(e, p)) ensures fk in e.pace && e.pace[fk] == RowFor(e, p, fk.item) {
      RowForFrame(db, e, p, fk.item);
      assert SameRow(db, e, FactKey(PeriodKey(k.site, j), fk.item));
    }
  }

  lemma RecalculatedSettles(db: Db, k: PeriodKey, now: Time)
    requires Shape(db) && IsClosed(db.periods, k) && FreshBelow(db, k.site, k.number)
    ensures Settled(Recalculated(db, k, now), k, now)
  {
    var w, e := WithRows(db, k), Recalculated(db, k, now);
    RecalculatedFresh(db, k, now);
    assert FreshAt(e, k.site, k.number);
    WithRowsShape(db, k);
    RecalculatedKeepsHistory(db, k, now, k.site, k.number);
    forall j, i | 0 < j <= k.number ensures SameRow(w, e, FactKey(PeriodKey(k.site, j), i)) {}
    SpikesFrame(w, e, k, PeriodItems(w, k));
    assert PeriodItems(w, k) == PeriodItems(e, k) == PeriodItems(db, k);
  }

  lemma CascadeStep(db: Db, site: int, n: int, m: int, now: Time)
    requires 0 < n <= m && IsClosed(db.periods, PeriodKey(site, m))
    requires Progress(db, site, n, m, now)
    ensures Progress(Recalculated(db, PeriodKey(site, m), now), site, n, m + 1, now)
  {
    var k := PeriodKey(site, m);
    var r := Recalculated(db, k, now);
    RecalculatedFresh(db, k, now);
    RecalculatedSettles(db, k, now);
    forall j | n <= j < m + 1 ensures SettledAt(r, site, j, now) {
      if j < m && IsClosed(r.periods, PeriodKey(site, j)) {
        assert SettledAt(db, site, j, now);
        RecalculatedKeepsSettled(db, k, now, j);
      }
    }
  }

  /** What remains of the cascade at period number m. */
  function CascadeRest(db: Db, site: int, m: int, last: int, now: Time): Db {
    Cascade(db, site, ClosedFrom(db.periods, site, m, last), now)
  }

  lemma CascadeUnfold(db: Db, site: int, m: int, last: int, now: Time)
    ensures m > last ==> CascadeRest(db, site, m, last, now) == db
    ensures m <= last && IsClosed(db.periods, PeriodKey(site, m)) ==>
      CascadeRest(db, site, m, last, now) == CascadeRest(Recalculated(db, PeriodKey(site, m), now), site, m + 1,
        last, now)
    ensures m <= last && !IsClosed(db.periods, PeriodKey(site, m)) ==>
      CascadeRest(db, site, m, last, now) == CascadeRest(db, site, m + 1, last, now)
  {
    var rest := ClosedFrom(db.periods, site, m + 1, last);
    assert ([m] + rest)[1..] == rest;
    assert [] + rest == rest;
  }

  /** The state the loop of the cascade keeps: periods below m are fresh, those it visited settled. */
  ghost predicate Progress(db: Db, site: int, n: int, m: int, now: Time) {
    Shape(db) && FreshBelow(db, site, m) && SettledFrom(db, site, n, m, now)
  }

  lemma CascadeSkip(db: Db, site: int, n: int, m: int, now: Time)
    requires Progress(db, site, n, m, now) && !IsClosed(db.periods, PeriodKey(site, m))
    ensures Progress(db, site, n, m + 1, now)
  {
    assert FreshAt(db, site, m) && SettledAt(db, site, m, now);
  }

  lemma {:induction false} CascadeLoop(db: Db, site: int, n: int, m: int, last: int, now: Time) returns (e: Db)
    requires Progress(db, site, n, m, now) && 0 < n <= m <= last + 1
    ensures e == CascadeRest(db, site, m, last, now)
    ensures Progress(e, site, n, last + 1, now)
    decreases last - m
  {
    hide Progress, CascadeRest, Recalculated;
    CascadeUnfold(db, site, m, last, now);
    if m <= last {
      if IsClosed(db.periods, PeriodKey(site, m)) {
        CascadeStep(db, site, n, m, now);
        e := CascadeLoop(Recalculated(db, PeriodKey(site, m), now), site, n, m + 1, last, now);
      } else {
        CascadeSkip(db, site, n, m, now);
        e := CascadeLoop(db, site, n, m + 1, last, now);
      }
    } else {
      e := db;
    }
  }

  /** Only pace rows, snapshots and spike flags differ, those of other objects and of
      periods below n do not, and no spike flag is lowered. */
  ghost predicate OnlyDerived(d: Db, e: Db, site: int, n: int) {
    && e == d.(pace := e.pace, snaps := e.snaps, spikes := e.spikes)
    && d.spikes <= e.spikes
    && SameElsewhere(d, e, site, n)
  }

  lemma OnlyDerivedTransitive(c: Db, d: Db, e: Db, site: int, n: int)
    requires OnlyDerived(c, d, site, n) && OnlyDerived(d, e, site, n)
    ensures OnlyDerived(c, e, site, n)
  {
  }

  lemma RecalculatedOnlyDerived(db: Db, k: PeriodKey, now: Time, n: int)
    requires n <= k.number
    ensures OnlyDerived(db, Recalculated(db, k, now), k.site, n)
  {
    assert forall fk | fk in RowsFor(db, k) :: fk.period == k;
  }

  lemma {:induction false} CascadeOnlyDerived(db: Db, site: int, numbers: seq<int>, n: int, now: Time)
    requires forall j | j in numbers :: n <= j
    ensures OnlyDerived(db, Cascade(db, site, numbers, now), site, n)
    decreases |numbers|
  {
    hide Recalculated;
    if numbers != [] {
      var r := Recalculated(db, PeriodKey(site, numbers[0]), now);
      assert numbers[0] in numbers && forall j | j in numbers[1..] :: j in numbers;
      RecalculatedOnlyDerived(db, PeriodKey(site, numbers[0]), now, n);
      CascadeOnlyDerived(r, site, numbers[1..], n, now);
      OnlyDerivedTransitive(db, r, Cascade(r, site, numbers[1..], now), site, n);
    }
  }

  lemma {:induction false} ClosedFromAbove(periods: map<PeriodKey, Period>, site: int, n: int, last: int)
    ensures forall j ::
      j in ClosedFrom(periods, site, n, last) <==> n <= j <= last && IsClosed(periods, PeriodKey(site, j))
    decreases last - n
  {
    if n <= last { ClosedFromAbove(periods, site, n + 1, last); }
  }

  lemma RecalculatedAgain(db: Db, k: PeriodKey, now: Time)
    requires Shape(db) && IsClosed(db.periods, k)
    requires Settled(db, k, now)
    requires forall j | 0 < j <= k.number && IsClosed(db.periods, PeriodKey(k.site, j)) ::
      RowsFresh(db, PeriodKey(k.site, j))
    ensures Recalculated(db, k, now) == db
  {
    assert db.pace + RowsFor(db, k) == db.pace;
    assert WithRows(db, k) == db;
    StoredEqualsScratch(db, k, now);
    assert db.snaps[k := db.snaps[k]] == db.snaps;
    assert db.spikes + SpikesOf(db, k, PeriodItems(db, k)) == db.spikes;
  }

  lemma {:induction false} CascadeAgain(db: Db, site: int, n: int, last: int, now: Time)
    requires Shape(db) && 0 < n && FreshBelow(db, site, last + 1) && SettledFrom(db, site, n, last + 1, now)
    ensures Cascade(db, site, ClosedFrom(db.periods, site, n, last), now) == db
    decreases last - n
  {
    if n <= last {
      var k := PeriodKey(site, n);
      if IsClosed(db.periods, k) {
        forall j | 0 < j <= n && IsClosed(db.periods, PeriodKey(site, j)) ensures RowsFresh(db, PeriodKey(site, j)) {
          assert FreshAt(db, site, j);
        }
        assert SettledAt(db, site, n, now);
        RecalculatedAgain(db, k, now);
        assert ClosedFrom(db.periods, site, n, last) == [n] + ClosedFrom(db.periods, site, n + 1, last);
      } else {
        assert ClosedFrom(db.periods, site, n, last) == ClosedFrom(db.periods, site, n + 1, last);
      }
      CascadeAgain(db, site, n + 1, last, now);
    }
  }

  /** The incremental cascade equals the full recomputation: when the closed periods below n
      are fresh, after the cascade from n every closed period of the object is fresh, those
      from n on at the given moment; nothing else changes, and a second cascade changes
      nothing at all. */
  lemma CascadeEqualsRecompute(db: Db, site: int, n: int, now: Time)
    requires Shape(db) && n > 0 && FreshBelow(db, site, n)
    ensures var e := CascadeFrom(db, site, n, now);
      && Shape(e) && (forall m :: FreshBelow(e, site, m))
      && (forall j | n <= j && IsClosed(db.periods, PeriodKey(site, j)) ::
            && RowsFresh(e, PeriodKey(site, j)) && PeriodKey(site, j) in e.snaps
            && e.snaps[PeriodKey(site, j)] == ScratchSnapshot(e, PeriodKey(site, j), now))
      && OnlyDerived(db, e, site, n)
      && CascadeFrom(e, site, n, now) == e
  {
    var last := LastNumber(db.periods, site);
    var e := CascadeFrom(db, site, n, now);
    ClosedFromAbove(db.periods, site, n, last);
    CascadeOnlyDerived(db, site, ClosedFrom(db.periods, site, n, last), n, now);
    if n <= last {
      var _ := CascadeLoop(db, site, n, n, last, now);
      CascadeAgain(e, site, n, last, now);
    }
    forall m ensures FreshBelow(e, site, m) {
      forall j | 0 < j < m ensures FreshAt(e, site, j) {
        if j > last { assert PeriodKey(site, j) !in db.periods; }
        else if n <= last { assert FreshBelow(e, site, last + 1); }
        else { assert FreshAt(db, site, j); }
      }
    }
    forall j | n <= j && IsClosed(db.periods, PeriodKey(site, j))
      ensures Settled(e, PeriodKey(site, j), now)
    {
      assert PeriodKey(site, j) in db.periods;
      assert SettledAt(e, site, j, now);
    }
  }
}

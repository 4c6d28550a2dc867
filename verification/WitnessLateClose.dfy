/** A run that closes a period below a closed one and leaves a stale snapshot. */
module WitnessLateClose {
  import opened Common
  import opened Store
  import opened Pace
  import opened Derived
  import opened PeriodSpec
  import opened Runs
  import opened Lifecycle
  import opened Freshness
  import opened WitnessRuns

  const K2 := PeriodKey(1, 2)
  const FK2 := FactKey(K2, 1)

  function Confirmed(v: real): Fact { Fact(Some(v), None, Some(v), Some(v), None, Some(FactConfirmed), None, 2) }

  const DONE := VERIFIED
  const C1 := B5.(periods := map[K := SUBMITTED], facts := map[FK := NEW_FACT.(gp := Some(0.0))])
  const C2 := B5.(periods := map[K := DONE], facts := map[FK := Confirmed(0.0)])
  const C3 := C2.(periods := map[K := DONE, K2 := OPENED])
  const C4 := C2.(periods := map[K := DONE, K2 := SUBMITTED],
    facts := map[FK := Confirmed(0.0), FK2 := NEW_FACT.(gp := Some(4.0))])
  const C5 := C2.(periods := map[K := DONE, K2 := DONE], facts := map[FK := Confirmed(0.0), FK2 := Confirmed(4.0)])
  const C6 := Apply(C5, DoClosePeriod(K2), 0)
  const C7 := Apply(C6, DoClosePeriod(K), 0)

  function GpStepOf(k: PeriodKey, v: real): Step { Step(DoSubmitGp(k, [GpItem(1, Some(v), None, false)]), 0) }

  function ScStepOf(k: PeriodKey, v: real): Step { Step(DoEnterFact(k, 1, v, NO_OPTS), 0) }

  /** Two periods, both in verification, the second closed before the first; nothing was done in
      the first. */
  const OUT_OF_ORDER: seq<Step> :=
    READY + [OPEN] + [GpStepOf(K, 0.0)] + [ScStepOf(K, 0.0)] + [OPEN] + [GpStepOf(K2, 4.0)] + [ScStepOf(K2, 4.0)]
    + [Step(DoClosePeriod(K2), 0)] + [Step(DoClosePeriod(K), 0)]

  /** The contractor's figure for a period that has no fact yet. */
  lemma Submitting(db: Db, k: PeriodKey, v: real)
    requires db.versions == [VERSION] && k in db.periods && db.periods[k] == OPENED && FactKey(k, 1) !in db.facts
      && v >= 0.0
    ensures Apply(db, GpStepOf(k, v).op, 0) == db.(periods := db.periods[k := SUBMITTED],
      facts := db.facts[FactKey(k, 1) := NEW_FACT.(gp := Some(v))])
  {
    var x := GpItem(1, Some(v), None, false);
    ActiveOne(db);
    assert PeriodItems(db, k) == VERSION.items;
    assert [x][1..] == [] && WithGpItems(db.facts, k, [x]) == WithGpItems(WithGp(db.facts, k, x), k, []);
    assert WithGpItems(db.facts, k, [x]) == db.facts[FactKey(k, 1) := NEW_FACT.(gp := Some(v))];
    hide ActiveVersion, HasItem, WithGpItems, PeriodItems;
  }

  /** The same figure by the SC confirms it. */
  lemma Confirming(db: Db, k: PeriodKey, v: real)
    requires db.versions == [VERSION] && k in db.periods && db.periods[k] == SUBMITTED && v >= 0.0
    requires FactKey(k, 1) in db.facts && db.facts[FactKey(k, 1)] == NEW_FACT.(gp := Some(v))
    ensures Apply(db, ScStepOf(k, v).op, 0) == db.(periods := db.periods[k := VERIFIED],
      facts := db.facts[FactKey(k, 1) := Confirmed(v)])
  {
    ActiveOne(db);
    assert PeriodItems(db, k) == VERSION.items;
    hide ActiveVersion, HasItem, PeriodItems;
    assert UpsertError(db, k, 1, v, NO_OPTS, 0).None?;
    assert UpsertedFact(db.facts, FactKey(k, 1), v, None) == Confirmed(v);
    hide UpsertError, UpsertedFact;
  }

  lemma OpenSecond()
    ensures Apply(C2, OPEN.op, 0) == C3
  {
    ActiveOne(C2);
    assert Report(Approved, ENTRIES) in C2.reports;
    assert HasApprovedReport(C2, 1);
    assert K in C2.periods && K.number in Numbers(C2.periods, 1);
    assert LastNumber(C2.periods, 1) == 1;
    hide ActiveVersion, LastNumber, HasApprovedReport, Numbers;
    assert !HasOpenPeriod(C2.periods, 1);
    assert C3.periods == C2.periods[K2 := OPENED];
  }

  lemma FirstConfirmed()
    ensures Apply(P1, GpStepOf(K, 0.0).op, 0) == C1 && Apply(C1, ScStepOf(K, 0.0).op, 0) == C2
  {
    assert C1.periods == P1.periods[K := SUBMITTED] && C1.facts == P1.facts[FK := NEW_FACT.(gp := Some(0.0))];
    assert C2.periods == C1.periods[K := VERIFIED] && C2.facts == C1.facts[FK := Confirmed(0.0)];
    Submitting(P1, K, 0.0);
    Confirming(C1, K, 0.0);
    hide Apply;
  }

  lemma SecondConfirmed()
    ensures Apply(C3, GpStepOf(K2, 4.0).op, 0) == C4 && Apply(C4, ScStepOf(K2, 4.0).op, 0) == C5
  {
    assert C4.periods == C3.periods[K2 := SUBMITTED] && C4.facts == C3.facts[FK2 := NEW_FACT.(gp := Some(4.0))];
    assert C5.periods == C4.periods[K2 := VERIFIED] && C5.facts == C4.facts[FK2 := Confirmed(4.0)];
    Submitting(C3, K2, 4.0);
    Confirming(C4, K2, 4.0);
    hide Apply;
  }

  lemma ReachOutOfOrder()
    ensures Reaches(OUT_OF_ORDER, C7, 0)
  {
    ReachReady();
    OpenFirst();
    FirstConfirmed();
    SecondConfirmed();
    OpenSecond();
    hide Apply, Reaches;
    Extend(READY, B5, 0, OPEN, P1);
    Extend(READY + [OPEN], P1, 0, GpStepOf(K, 0.0), C1);
    var r2 := READY + [OPEN] + [GpStepOf(K, 0.0)];
    Extend(r2, C1, 0, ScStepOf(K, 0.0), C2);
    var r3 := r2 + [ScStepOf(K, 0.0)];
    Extend(r3, C2, 0, OPEN, C3);
    Extend(r3 + [OPEN], C3, 0, GpStepOf(K2, 4.0), C4);
    var r5 := r3 + [OPEN] + [GpStepOf(K2, 4.0)];
    Extend(r5, C4, 0, ScStepOf(K2, 4.0), C5);
    var r6 := r5 + [ScStepOf(K2, 4.0)];
    Extend(r6, C5, 0, Step(DoClosePeriod(K2), 0), C6);
    Extend(r6 + [Step(DoClosePeriod(K2), 0)], C6, 0, Step(DoClosePeriod(K), 0), C7);
  }

  lemma Closing(db: Db, k: PeriodKey, now: Time)
    requires k in db.periods && db.periods[k].status == Verification && db.discrepancies == [] && k !in db.snaps
    ensures Apply(db, DoClosePeriod(k), now) == Recalculated(MarkedClosed(db, k), k, now)
  {
    hide Recalculated;
  }

  /** The forecast of a period with the one item, from the volumes of its window. */
  lemma OneItemForecast(db: Db, q: PeriodKey, vs: seq<real>, cumulative: real, pace: real, now: Time)
    requires PeriodItems(db, q) == [ITEM] && CleanVolumes(db, q, 1) == vs && ConfigOf(db, q.site) == DEFAULT_CONFIG
    requires Mean(vs, 0.8) == pace > 0.0 && !SpikeFires(vs, 0.8, 3.0)
    requires FactKey(q, 1) in db.facts && EffectiveVolume(db.facts[FactKey(q, 1)]) == cumulative
    ensures SnapshotFor(db, q, now).weightedDate == Some(EndDate(10.0, cumulative, pace, now))
  {
    hide CleanVolumes, Mean, SpikeFires, Readiness;
    var end := EndDate(10.0, cumulative, pace, now);
    assert ItemEnd(db, q, ITEM, now) == Some(end) by { hide EndDate; }
    hide ItemEnd, EndDate;
    assert [ITEM][1..] == [] && Entries(db, q, [ITEM], now) == [Entry(1.0, end)];
    var es := [Entry(1.0, end)];
    assert es[1..] == [] && SumEnds(es) == end && SumWeights(es) == 1.0;
    hide Entries;
  }

  lemma OneVolume(v: real)
    ensures Mean([v], 0.8) == v && !SpikeFires([v], 0.8, 3.0)
  {
    assert [v][1..] == [] && Pow(0.8, 0) == 1.0;
    assert WeightedSum([v], 0.8, 0) == v && WeightTotal(1, 0.8, 0) == 1.0;
  }

  lemma TwoVolumes(v: real)
    requires v > 0.0
    ensures Mean([v, 0.0], 0.8) == v / 1.8 > 0.0 && !SpikeFires([v, 0.0], 0.8, 3.0)
  {
    var vs := [v, 0.0];
    assert vs[1..] == [0.0] && [0.0][1..] == [] && Pow(0.8, 0) == 1.0 && Pow(0.8, 1) == 0.8;
    assert WeightedSum([0.0], 0.8, 1) == 0.0 && WeightTotal(1, 0.8, 1) == 0.8;
    assert WeightedSum(vs, 0.8, 0) == v && WeightTotal(2, 0.8, 0) == 1.8;
  }

  /** The window of period 2 when only it has a row. */
  lemma WindowOfOne(db: Db)
    requires ConfigOf(db, 1) == DEFAULT_CONFIG && FK2 in db.pace && FK !in db.pace && K2 in db.periods
    requires db.pace[FK2].volume == 4.0 && !db.pace[FK2].excluded && !db.periods[K2].plannedPause
    ensures CleanVolumes(db, K2, 1) == [4.0]
  {
    assert PeriodKey(1, 1) == K && PeriodKey(1, 2) == K2 && [2] + [] == [2];
    assert Window(db, 1, 1, 0, 4) == [] && Window(db, 1, 1, 1, 4) == [];
    assert Window(db, 1, 1, 2, 5) == [2] + Window(db, 1, 1, 1, 4);
    assert [2][1..] == [] && [4.0] + [] == [4.0];
    assert Clean(db, 1, 1, [2]) == [2];
    assert Volumes(db, 1, 1, [2]) == [4.0] + Volumes(db, 1, 1, []);
  }

  lemma WindowOfTwo(db: Db)
    requires ConfigOf(db, 1) == DEFAULT_CONFIG && FK2 in db.pace && FK in db.pace && K2 in db.periods && K in db.periods
    requires db.pace[FK2].volume == 4.0 && !db.pace[FK2].excluded && !db.periods[K2].plannedPause
    requires db.pace[FK].volume == 0.0 && !db.pace[FK].excluded && !db.periods[K].plannedPause
    ensures CleanVolumes(db, K2, 1) == [4.0, 0.0]
  {
    assert PeriodKey(1, 1) == K && PeriodKey(1, 2) == K2 && [2] + [1] == [2, 1];
    assert Window(db, 1, 1, 0, 3) == [] && Window(db, 1, 1, 1, 4) == [1] + Window(db, 1, 1, 0, 3);
    assert Window(db, 1, 1, 2, 5) == [2] + Window(db, 1, 1, 1, 4);
    var w := [2, 1];
    assert w[1..] == [1] && [1][1..] == [];
    assert Clean(db, 1, 1, [1]) == [1] && Clean(db, 1, 1, w) == w;
    assert Volumes(db, 1, 1, [1]) == [0.0] && Volumes(db, 1, 1, w) == [4.0, 0.0];
  }

  /** The rows of the two periods as the facts give them. */
  lemma OneItemRows(db: Db, k: PeriodKey)
    requires PeriodItems(db, k) == [ITEM]
    ensures RowKeys(k, PeriodItems(db, k)) == {FactKey(k, 1)}
    ensures RowsFor(db, k) == map[FactKey(k, 1) := RowFor(db, k, 1)]
  {
    assert forall x | x in [ITEM] :: x == ITEM;
    assert ITEM in [ITEM];
    hide RowFor;
  }

  /** Closing period 2 alone: its row, and its forecast from that row. */
  lemma SecondClosed()
    ensures C6.pace == map[FK2 := PaceRow(4.0, 4.0, false)] && C6.snaps.Keys == {K2}
    ensures C6.snaps[K2].weightedDate == Some(EndDate(10.0, 4.0, 4.0, 0)) && C6.snaps[K2].calculatedAt == 0
    ensures C6.periods == C5.periods[K2 := DONE.(status := Closed)] && C6.facts == C5.facts
    ensures C6.versions == C5.versions && C6.sites == C5.sites && C6.discrepancies == []
  {
    Closing(C5, K2, 0);
    var d := MarkedClosed(C5, K2);
    assert PeriodItems(d, K2) == [ITEM];
    OneItemRows(d, K2);
    assert PrevClosed(d.periods, 1, 2) == 0;
    assert RowFor(d, K2, 1) == PaceRow(4.0, 4.0, false);
    var w := WithRows(d, K2);
    assert w.pace == map[FK2 := PaceRow(4.0, 4.0, false)];
    RecalculatedPeriods(d, K2, 0);
    assert C6.pace == w.pace
      && C6.snaps == map[K2 := SnapshotFor(w, K2, 0)] by { hide SnapshotFor, SpikesOf, RowsFor, Apply; }
    hide Apply, Recalculated, RowsFor, RowFor, SnapshotFor, SpikesOf, EndDate;
    WindowOfOne(w);
    OneVolume(4.0);
    OneItemForecast(w, K2, [4.0], 4.0, 4.0, 0);
    SnapshotAt(w, K2, 0);
  }

  lemma SnapshotAt(db: Db, k: PeriodKey, now: Time)
    ensures SnapshotFor(db, k, now).calculatedAt == now
  {
    hide ObjectForecast, Readiness;
  }

  /** Closing period 1 late: its row is zero, and nothing of period 2 changes. */
  lemma FirstClosedLate()
    ensures C7.pace == map[FK2 := PaceRow(4.0, 4.0, false), FK := PaceRow(0.0, 0.0, false)]
    ensures K2 in C7.snaps && K2 in C6.snaps && C7.snaps[K2] == C6.snaps[K2]
    ensures C7.periods == C6.periods[K := DONE.(status := Closed)] && C7.facts == C5.facts
    ensures C7.versions == C5.versions && C7.sites == C5.sites
  {
    SecondClosed();
    hide Apply, EndDate;
    assert K in C6.periods && C6.periods[K] == DONE && K !in C6.snaps;
    Closing(C6, K, 0);
    var d := MarkedClosed(C6, K);
    assert PeriodItems(d, K) == [ITEM];
    OneItemRows(d, K);
    assert PrevClosed(d.periods, 1, 1) == 0;
    assert RowFor(d, K, 1) == PaceRow(0.0, 0.0, false);
    RecalculatedPeriods(d, K, 0);
    hide SnapshotFor, SpikesOf, RowsFor, RowFor;
    assert C7.pace == C6.pace + map[FK := PaceRow(0.0, 0.0, false)];
  }

  /** The rows of both periods from scratch. */
  lemma ScratchRows()
    ensures PeriodItems(C7, K2) == [ITEM] && C7.sites == SITES && FK2 in C7.facts && C7.facts[FK2] == Confirmed(4.0)
    ensures IsClosed(C7.periods, K) && IsClosed(C7.periods, K2) && !C7.periods[K].plannedPause
      && !C7.periods[K2].plannedPause
    ensures RowsFor(C7, K) == map[FK := PaceRow(0.0, 0.0, false)]
      && RowsFor(C7, K2) == map[FK2 := PaceRow(4.0, 4.0, false)]
    ensures RowsFresh(C7, K2)
  {
    SecondClosed();
    FirstClosedLate();
    hide Apply, EndDate;
    assert PeriodItems(C7, K2) == [ITEM] && PeriodItems(C7, K) == [ITEM] && PeriodKey(1, 1) == K;
    OneItemRows(C7, K2);
    OneItemRows(C7, K);
    assert PrevClosed(C7.periods, 1, 1) == 0 && PrevClosed(C7.periods, 1, 2) == 1;
    assert RowFor(C7, K, 1) == PaceRow(0.0, 0.0, false) && RowFor(C7, K2, 1) == PaceRow(4.0, 4.0, false);
    hide RowFor, PrevClosed, RowsFor, RowKeys;
  }

  /** From scratch, period 2 has the same row and a later forecast. */
  lemma SecondFromScratch()
    ensures RowsFresh(C7, K2)
    ensures ScratchSnapshot(C7, K2, 0).weightedDate == Some(EndDate(10.0, 4.0, 4.0 / 1.8, 0))
  {
    ScratchRows();
    hide Apply, EndDate, RowsFor, RowsFresh;
    assert PeriodKey(1, 1) == K && PeriodKey(1, 2) == K2;
    assert FullPace(C7, 1, 0) == map[];
    assert FullPace(C7, 1, 1) == map[] + RowsFor(C7, K);
    assert FullPace(C7, 1, 2) == FullPace(C7, 1, 1) + RowsFor(C7, K2);
    var w := C7.(pace := FullPace(C7, 1, 2));
    assert w.pace == map[FK := PaceRow(0.0, 0.0, false), FK2 := PaceRow(4.0, 4.0, false)];
    hide FullPace;
    assert PeriodItems(w, K2) == [ITEM];
    WindowOfTwo(w);
    TwoVolumes(4.0);
    hide Mean, SpikeFires, CleanVolumes, PeriodItems;
    OneItemForecast(w, K2, [4.0, 0.0], 4.0, 4.0 / 1.8, 0);
    hide SnapshotFor;
  }

  lemma DatesDiffer()
    ensures EndDate(10.0, 4.0, 4.0, 0) != EndDate(10.0, 4.0, 4.0 / 1.8, 0)
  {
  }

  /** A late close can leave a stale snapshot although every row stays right: in this run nothing
      moved in the late period, its zero row lowers the pace, and the stored forecast of the next
      period is no longer that of a recomputation from scratch. */
  lemma LateCloseLeavesStaleSnapshot()
    ensures AllowedRun(EmptyDb(SITES), 0, OUT_OF_ORDER)
    ensures var db := Run(EmptyDb(SITES), OUT_OF_ORDER);
      IsClosed(db.periods, K) && IsClosed(db.periods, K2) && RowsFresh(db, K2) && !SnapFresh(db, K2)
  {
    ReachOutOfOrder();
    SecondClosed();
    FirstClosedLate();
    SecondFromScratch();
    DatesDiffer();
    hide Apply, EndDate, ScratchSnapshot, Run, AllowedRun, RowsFresh;
  }
}

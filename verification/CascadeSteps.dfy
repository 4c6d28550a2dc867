/** The cascade after a correction as it runs: one transaction per period, with other steps in
    between. */
module CascadeSteps {
  import opened Common
  import opened Store
  import opened Derived
  import opened PeriodSpec
  import opened Runs
  import opened Lifecycle
  import opened CascadeTheorems
  import opened Freshness

  /** Steps that neither close a period nor correct a fact, nor force a different figure in a
      closed period. */
  ghost predicate QuietRun(db: Db, steps: seq<Step>)
    decreases |steps|
  {
    steps == [] ||
    (!steps[0].op.DoClosePeriod? && !steps[0].op.DoCorrectFact? && Orderly(db, steps[0].op)
     && QuietRun(Apply(db, steps[0].op, steps[0].now), steps[1..]))
  }

  /** Each listed period is recalculated in its own transaction, and a run follows it. */
  function Interleaved(db: Db, site: int, numbers: seq<int>, gaps: seq<seq<Step>>, times: seq<Time>): Db
    requires |gaps| == |numbers| == |times|
    decreases |numbers|
  {
    if numbers == [] then db
    else
      var d := Run(Recalculated(db, PeriodKey(site, numbers[0]), times[0]), gaps[0]);
      Interleaved(d, site, numbers[1..], gaps[1..], times[1..])
  }

  ghost predicate QuietGaps(db: Db, site: int, numbers: seq<int>, gaps: seq<seq<Step>>, times: seq<Time>)
    requires |gaps| == |numbers| == |times|
    decreases |numbers|
  {
    numbers == [] ||
    var d := Recalculated(db, PeriodKey(site, numbers[0]), times[0]);
    QuietRun(d, gaps[0]) && QuietGaps(Run(d, gaps[0]), site, numbers[1..], gaps[1..], times[1..])
  }

  /** The object is fresh below m, and every other object is fresh. */
  ghost predicate Partly(db: Db, site: int, m: int) {
    Shape(db) && FreshBelow(db, site, m) && forall s, n | s != site :: FreshBelow(db, s, n)
  }

  ghost predicate SameStatus(d: Db, e: Db) {
    forall k: PeriodKey {:trigger IsClosed(e.periods, k)} {:trigger IsClosed(d.periods, k)} ::
      IsClosed(d.periods, k) <==> IsClosed(e.periods, k)
  }

  lemma PartlyFrame(d: Db, e: Db, site: int, m: int)
    requires Partly(d, site, m) && d.sites == e.sites && d.pace == e.pace && d.snaps == e.snaps
    requires forall k: PeriodKey {:trigger SameClosed(d, e, k)} :: SameClosed(d, e, k)
    requires forall k | k in e.periods :: k.number > 0
    ensures Partly(e, site, m) && SameStatus(d, e)
  {
    forall s, n | s != site || n == m ensures FreshBelow(e, s, n) {
      forall j | 0 < j < n ensures FreshAt(e, s, j) {
        assert FreshBelow(d, s, n);
        forall i | 0 < i <= j ensures SameClosed(d, e, PeriodKey(s, i)) {}
        FreshAtFrame(d, e, s, j);
      }
    }
    forall fk | fk in e.pace ensures IsClosed(e.periods, fk.period)
      && fk in RowKeys(fk.period, PeriodItems(e, fk.period)) {
      assert SameClosed(d, e, fk.period);
    }
    forall k: PeriodKey ensures IsClosed(d.periods, k) <==> IsClosed(e.periods, k) { assert SameClosed(d, e, k); }
  }

  lemma QuietStep(db: Db, op: Op, now: Time, site: int, m: int)
    requires Base(db) && Partly(db, site, m) && !op.DoCorrectFact? && !op.DoClosePeriod? && Orderly(db, op)
    ensures var e := Apply(db, op, now); Partly(e, site, m) && SameStatus(db, e)
  {
    var e := Apply(db, op, now);
    PeriodsStep(db, op, now);
    DerivedKept(db, op, now);
    forall k: PeriodKey ensures SameClosed(db, e, k) { StepSameClosed(db, op, now, k); }
    assert forall k | k in e.periods :: k.number > 0;
    hide Apply, Partly, Base, SameClosed, Orderly, Numbered, Advanced, SameStatus;
    PartlyFrame(db, e, site, m);
  }

  lemma {:induction false} QuietKeeps(db: Db, steps: seq<Step>, site: int, m: int)
    requires Base(db) && Partly(db, site, m) && QuietRun(db, steps)
    ensures var e := Run(db, steps); Base(e) && Partly(e, site, m) && SameStatus(db, e)
    decreases |steps|
  {
    hide Apply, Base, Partly, Orderly;
    if steps != [] {
      BaseStep(db, steps[0].op, steps[0].now);
      QuietStep(db, steps[0].op, steps[0].now, site, m);
      QuietKeeps(Apply(db, steps[0].op, steps[0].now), steps[1..], site, m);
    }
  }

  lemma RecalculatedKeeps(db: Db, site: int, m: int, now: Time)
    requires Base(db) && Partly(db, site, m) && IsClosed(db.periods, PeriodKey(site, m))
    ensures var e := Recalculated(db, PeriodKey(site, m), now); Base(e) && Partly(e, site, m + 1) && SameStatus(db, e)
  {
    var k := PeriodKey(site, m);
    var e := Recalculated(db, k, now);
    RecalculatedPeriods(db, k, now);
    RecalculatedFresh(db, k, now);
    RecalculatedBase(db, e);
    hide Recalculated, Base;
    forall s, n | s != site ensures FreshBelow(e, s, n) {
      forall j | 0 < j < n ensures FreshAt(e, s, j) {
        assert FreshBelow(db, s, n);
        RecalculatedKeepsOthers(db, k, now, s, j);
      }
    }
  }

  lemma RecalculatedBase(db: Db, e: Db)
    requires Base(db) && e == db.(pace := e.pace, snaps := e.snaps, spikes := e.spikes)
    ensures Base(e)
  {
    assert forall k :: PeriodItems(e, k) == PeriodItems(db, k);
    hide Numbered, PeriodItems, HasItem, FactOk, DisputesOk;
  }

  lemma {:induction false} SameClosedFrom(p: map<PeriodKey, Period>, q: map<PeriodKey, Period>, site: int, n: int,
      last: int)
    requires forall k: PeriodKey {:trigger IsClosed(q, k)} :: IsClosed(p, k) <==> IsClosed(q, k)
    ensures ClosedFrom(p, site, n, last) == ClosedFrom(q, site, n, last)
    decreases last - n
  {
    if n <= last { SameClosedFrom(p, q, site, n + 1, last); }
  }

  /** One transaction of the cascade and the run after it. */
  lemma OneTransaction(db: Db, site: int, m: int, steps: seq<Step>, now: Time)
    requires Base(db) && Partly(db, site, m) && IsClosed(db.periods, PeriodKey(site, m))
    requires QuietRun(Recalculated(db, PeriodKey(site, m), now), steps)
    ensures var d := Run(Recalculated(db, PeriodKey(site, m), now), steps);
      Base(d) && Partly(d, site, m + 1) && SameStatus(db, d)
  {
    RecalculatedKeeps(db, site, m, now);
    hide Base, Partly, Recalculated, QuietRun, Run;
    QuietKeeps(Recalculated(db, PeriodKey(site, m), now), steps, site, m + 1);
  }

  lemma NothingLeft(db: Db, site: int, gaps: seq<seq<Step>>, times: seq<Time>)
    requires |gaps| == |times| == 0
    ensures Interleaved(db, site, [], gaps, times) == db
  {
  }

  lemma NextTransaction(db: Db, site: int, numbers: seq<int>, gaps: seq<seq<Step>>, times: seq<Time>)
    requires |gaps| == |numbers| == |times| && numbers != [] && QuietGaps(db, site, numbers, gaps, times)
    ensures var r := Recalculated(db, PeriodKey(site, numbers[0]), times[0]);
      && QuietRun(r, gaps[0]) && QuietGaps(Run(r, gaps[0]), site, numbers[1..], gaps[1..], times[1..])
      && Interleaved(db, site, numbers, gaps, times) == Interleaved(Run(r, gaps[0]), site, numbers[1..], gaps[1..],
        times[1..])
  {
    hide Recalculated, Run, QuietRun;
  }

  /** What is left of the cascade at number m finishes the work. */
  lemma {:induction false} InterleavedLoop(db: Db, site: int, m: int, last: int, gaps: seq<seq<Step>>, times: seq<Time>)
    requires Base(db) && Partly(db, site, m) && 0 < m
    requires |ClosedFrom(db.periods, site, m, last)| == |gaps| == |times|
    requires QuietGaps(db, site, ClosedFrom(db.periods, site, m, last), gaps, times)
    ensures var e := Interleaved(db, site, ClosedFrom(db.periods, site, m, last), gaps, times);
      Partly(e, site, if m <= last then last + 1 else m) && SameStatus(db, e)
    decreases last - m
  {
    var numbers := ClosedFrom(db.periods, site, m, last);
    hide Base, Partly, Recalculated, QuietRun, Run, Interleaved, QuietGaps;
    if m > last {
      NothingLeft(db, site, gaps, times);
    } else {
      var rest := ClosedFrom(db.periods, site, m + 1, last);
      if IsClosed(db.periods, PeriodKey(site, m)) {
        assert numbers == [m] + rest && numbers[0] == m && numbers[1..] == rest;
        hide ClosedFrom;
        NextTransaction(db, site, numbers, gaps, times);
        OneTransaction(db, site, m, gaps[0], times[0]);
        var d := Run(Recalculated(db, PeriodKey(site, m), times[0]), gaps[0]);
        SameClosedFrom(db.periods, d.periods, site, m + 1, last);
        InterleavedLoop(d, site, m + 1, last, gaps[1..], times[1..]);
      } else {
        assert numbers == [] + rest && numbers == rest;
        hide ClosedFrom;
        NotClosedPartly(db, site, m);
        InterleavedLoop(db, site, m + 1, last, gaps, times);
      }
    }
  }

  lemma NotClosedPartly(db: Db, site: int, m: int)
    requires Partly(db, site, m) && !IsClosed(db.periods, PeriodKey(site, m))
    ensures Partly(db, site, m + 1)
  {
    hide RowsFresh, SnapFresh, Shape;
  }

  /** The cascade need not be one step: when after an admin correction each closed period from the
      corrected one on is recalculated in its own transaction, with any runs in between that
      close and correct nothing, everything stored is right again at the end. */
  lemma InterleavedCascade(db: Db, fk: FactKey, sc: real, accepted: real, gaps: seq<seq<Step>>, times: seq<Time>)
    requires Base(db) && Fresh(db) && CorrectFact(db, fk, sc, accepted).Ok?
    requires var d := CorrectFact(db, fk, sc, accepted).value;
      var numbers := ClosedFrom(d.periods, fk.period.site, fk.period.number, LastNumber(d.periods, fk.period.site));
      |numbers| == |gaps| == |times| && QuietGaps(d, fk.period.site, numbers, gaps, times)
    ensures var d := CorrectFact(db, fk, sc, accepted).value;
      var numbers := ClosedFrom(d.periods, fk.period.site, fk.period.number, LastNumber(d.periods, fk.period.site));
      Fresh(Interleaved(d, fk.period.site, numbers, gaps, times))
  {
    var d, site, n := CorrectFact(db, fk, sc, accepted).value, fk.period.site, fk.period.number;
    var last := LastNumber(d.periods, site);
    CorrectedPartly(db, fk, sc, accepted);
    hide Base, Partly, CorrectFact, QuietGaps, Interleaved, Fresh, LastNumber;
    InterleavedLoop(d, site, n, last, gaps, times);
    PartlyIsFresh(d, Interleaved(d, site, ClosedFrom(d.periods, site, n, last), gaps, times), site, if n <= last
      then last + 1 else n);
  }

  lemma CorrectedPartly(db: Db, fk: FactKey, sc: real, accepted: real)
    requires Base(db) && Fresh(db) && CorrectFact(db, fk, sc, accepted).Ok?
    ensures var d := CorrectFact(db, fk, sc, accepted).value;
      Base(d) && Partly(d, fk.period.site, fk.period.number) && fk.period.number > 0
      && fk.period.number <= LastNumber(d.periods, fk.period.site)
  {
    var d := CorrectFact(db, fk, sc, accepted).value;
    CorrectedFreshBelow(db, fk, sc, accepted);
    CorrectedStaysBase(db, fk, sc, accepted);
    assert fk in db.facts && fk.period in db.periods && d.periods == db.periods;
    CorrectedOthers(db, fk, sc, accepted);
    hide CorrectFact, Fresh, FreshBelow, Shape, FactsOk, DisputesOk;
  }

  lemma CorrectedStaysBase(db: Db, fk: FactKey, sc: real, accepted: real)
    requires Base(db) && CorrectFact(db, fk, sc, accepted).Ok?
    ensures Base(CorrectFact(db, fk, sc, accepted).value)
  {
    var d := CorrectFact(db, fk, sc, accepted).value;
    CorrectedFacts(db, fk, sc, accepted);
    assert d == db.(facts := d.facts) && d.facts.Keys == db.facts.Keys by { hide Base, FactsAdvance; }
    hide CorrectFact;
    SameFactsBase(db, d);
  }

  lemma SameFactsBase(db: Db, d: Db)
    requires Base(db) && d == db.(facts := d.facts) && d.facts.Keys == db.facts.Keys && FactsAdvance(db, d.facts)
    ensures Base(d)
  {
    assert forall k :: PeriodItems(d, k) == PeriodItems(db, k);
    hide Numbered, PeriodItems, HasItem, FactOk, NotOlder;
    assert FactsOk(d) by { hide DisputesOk; }
    hide FactsOk;
  }

  lemma CorrectedOthers(db: Db, fk: FactKey, sc: real, accepted: real)
    requires Fresh(db) && CorrectFact(db, fk, sc, accepted).Ok?
    ensures var d := CorrectFact(db, fk, sc, accepted).value; forall s, n | s != fk.period.site :: FreshBelow(d, s, n)
  {
    var d := CorrectFact(db, fk, sc, accepted).value;
    forall s, n | s != fk.period.site ensures FreshBelow(d, s, n) {
      forall j | 0 < j < n ensures FreshAt(d, s, j) {
        assert FreshBelow(db, s, n);
        CorrectedKeeps(db, fk, sc, accepted, s, j);
        FreshAtFrame(db, d, s, j);
      }
    }
  }

  lemma PartlyIsFresh(d: Db, e: Db, site: int, m: int)
    requires Partly(e, site, m) && SameStatus(d, e) && m > LastNumber(d.periods, site)
    ensures Fresh(e)
  {
    hide RowsFresh, SnapFresh, Shape, LastNumber;
    forall s, n ensures FreshBelow(e, s, n) {
      forall j | 0 < j < n ensures FreshAt(e, s, j) {
        if s != site { assert FreshBelow(e, s, n); }
        else if j >= m { assert PeriodKey(site, j) !in d.periods && !IsClosed(d.periods, PeriodKey(site, j)); }
      }
    }
  }
}

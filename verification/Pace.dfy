/** The arithmetic of work pace and object forecast, over real numbers. */
module Pace {
  import opened Common
  import opened Store

  const PERIOD_LENGTH_DAYS: real := 30.0

  function Pow(d: real, n: nat): real { if n == 0 then 1.0 else d * Pow(d, n - 1) }

  /** vs[0]*d^k + vs[1]*d^(k+1) + ... */
  function WeightedSum(vs: seq<real>, d: real, k: nat): real {
    if vs == [] then 0.0 else vs[0] * Pow(d, k) + WeightedSum(vs[1..], d, k + 1)
  }

  /** d^k + d^(k+1) + ..., n terms */
  function WeightTotal(n: nat, d: real, k: nat): real {
    if n == 0 then 0.0 else Pow(d, k) + WeightTotal(n - 1, d, k + 1)
  }

  function Ratio(sum: real, total: real): real { if total > 0.0 then sum / total else 0.0 }

  /** The decayed mean of a window, latest volume first. */
  function Mean(vs: seq<real>, d: real): real { Ratio(WeightedSum(vs, d, 0), WeightTotal(|vs|, d, 0)) }

  /** The mean after the latest volume has been left out. */
  function Excluded(vs: seq<real>, d: real): real
    requires vs != []
  {
    Mean(vs[1..], d)
  }

  /** The mean with the weight of the latest volume lowered to one half. */
  function Halved(vs: seq<real>, d: real): real
    requires vs != []
  {
    Ratio(vs[0] * 0.5 + WeightedSum(vs[1..], d, 1), 0.5 + WeightTotal(|vs| - 1, d, 1))
  }

  predicate SpikeFires(vs: seq<real>, d: real, threshold: real) {
    vs != [] && Mean(vs, d) > 0.0 && vs[0] > Mean(vs, d) * threshold
  }

  function FinalPace(vs: seq<real>, d: real, threshold: real, response: Option<SpikeResponse>): real {
    if !SpikeFires(vs, d, threshold) then Mean(vs, d)
    else if response == Some(DataEntryError) then Excluded(vs, d)
    else Halved(vs, d)
  }

  predicate AllZero(vs: seq<real>) { vs != [] && forall v | v in vs :: v == 0.0 }

  /** The forecast end of an item with a positive pace, in milliseconds. */
  function EndDate(plan: real, cumulative: real, pace: real, now: Time): real
    requires pace > 0.0
  {
    var remaining := plan - cumulative;
    now as real + (if remaining > 0.0 then remaining else 0.0) / pace * PERIOD_LENGTH_DAYS * (DAY as real)
  }

  /** One item that has a forecast. */
  datatype Entry = Entry(weight: real, end: real)

  function Contribution(e: Entry): real { e.end * e.weight }

  function SumEnds(es: seq<Entry>): real { if es == [] then 0.0 else Contribution(es[0]) + SumEnds(es[1..]) }

  function SumWeights(es: seq<Entry>): real { if es == [] then 0.0 else es[0].weight + SumWeights(es[1..]) }

  function WeightedDate(es: seq<Entry>): Option<real> {
    if SumWeights(es) > 0.0 then Some(SumEnds(es) / SumWeights(es)) else None
  }

  function Later(best: Option<real>, e: Entry, threshold: real): Option<real> {
    if e.weight >= threshold && (best.None? || e.end > best.value) then Some(e.end) else best
  }

  /** The latest end among the entries at or above the threshold, starting from best. */
  function CriticalDate(es: seq<Entry>, threshold: real, best: Option<real>): Option<real> {
    if es == [] then best else CriticalDate(es[1..], threshold, Later(best, es[0], threshold))
  }

  function Abs(x: real): real { if x < 0.0 then -x else x }

  function GapFlag(weighted: Option<real>, critical: Option<real>, gapPeriods: real): bool {
    weighted.Some? && critical.Some? &&
    Abs(critical.value - weighted.value) / (DAY as real) / PERIOD_LENGTH_DAYS >= gapPeriods
  }

  datatype Forecast = Forecast(weightedDate: Option<real>, criticalDate: Option<real>, gapFlag: bool)

  function ForecastFrom(es: seq<Entry>, cfg: Config): Forecast {
    var weighted := WeightedDate(es);
    var critical := CriticalDate(es, cfg.weightThreshold, None);
    Forecast(weighted, critical, GapFlag(weighted, critical, cfg.forecastGapPeriods))
  }

  // ---- decayed means ----

  lemma {:induction false} PowPositive(d: real, n: nat)
    requires d > 0.0
    ensures Pow(d, n) > 0.0
  {
    if n > 0 { PowPositive(d, n - 1); }
  }

  lemma {:induction false} WeightTotalPositive(n: nat, d: real, k: nat)
    requires d > 0.0
    ensures WeightTotal(n, d, k) >= 0.0
    ensures n > 0 ==> WeightTotal(n, d, k) > 0.0
  {
    if n > 0 {
      PowPositive(d, k);
      WeightTotalPositive(n - 1, d, k + 1);
    }
  }

  /** Starting the weights one power later scales sum and total alike. */
  lemma {:induction false} WeightsShift(vs: seq<real>, d: real, k: nat)
    ensures WeightedSum(vs, d, k + 1) == d * WeightedSum(vs, d, k)
    ensures WeightTotal(|vs|, d, k + 1) == d * WeightTotal(|vs|, d, k)
  {
    if vs != [] { WeightsShift(vs[1..], d, k + 1); }
  }

  lemma ScaleRatio(s: real, t: real, d: real)
    requires d > 0.0 && t > 0.0
    ensures d * t > 0.0 && (d * s) / (d * t) == s / t
  {
    var q := s / t;
    assert s == q * t;
    assert d * s == q * (d * t);
  }

  lemma {:induction false} NothingWeighed(vs: seq<real>, d: real, k: nat)
    requires vs == []
    ensures WeightTotal(|vs|, d, k) == 0.0 && WeightTotal(|vs|, d, k + 1) == 0.0
  {
  }

  /** The window without its latest volume has the same mean whether its weights restart
      at d^0 or stay at d^1, d^2, ... */
  lemma {:induction false} RestartedWeightsSameMean(vs: seq<real>, d: real, k: nat)
    requires d > 0.0
    ensures Ratio(WeightedSum(vs, d, k), WeightTotal(|vs|, d, k)) == Mean(vs, d)
  {
    if k > 0 {
      RestartedWeightsSameMean(vs, d, k - 1);
      WeightsShift(vs, d, k - 1);
      WeightTotalPositive(|vs|, d, k - 1);
      WeightTotalPositive(|vs|, d, k);
      var s, t, s', t' := WeightedSum(vs, d, k - 1), WeightTotal(|vs|, d, k - 1), WeightedSum(vs, d, k),
        WeightTotal(|vs|, d, k);
      assert s' == d * s && t' == d * t;
      hide WeightedSum, WeightTotal, Mean;
      if vs != [] {
        ScaleRatio(s, t, d);
        assert s' / t' == s / t;
        assert Ratio(s', t') == Ratio(s, t);
      } else {
        NothingWeighed(vs, d, k - 1);
        assert Ratio(s', t') == Ratio(s, t);
      }
    }
  }

  lemma DivLe(a: real, b: real, c: real, e: real)
    requires b > 0.0 && e > 0.0
    ensures a / b <= c / e <==> a * e <= c * b
  {
    var p, q := a / b, c / e;
    assert a == p * b && c == q * e;
    assert a * e == p * (b * e) && c * b == q * (b * e);
    assert b * e > 0.0;
    if p <= q { assert p * (b * e) <= q * (b * e); }
    if p > q { assert p * (b * e) > q * (b * e); }
  }

  /** The three means of a window with latest volume x, rest sum s and rest weight w. */
  lemma MeansOrdered(x: real, s: real, w: real)
    requires w > 0.0
    ensures s / w <= (x * 0.5 + s) / (0.5 + w) <==> s <= x * w
    ensures (x * 0.5 + s) / (0.5 + w) <= (x + s) / (1.0 + w) <==> s <= x * w
    ensures (x + s) / (1.0 + w) <= x <==> s <= x * w
  {
    DivLe(s, w, x * 0.5 + s, 0.5 + w);
    DivLe(x * 0.5 + s, 0.5 + w, x + s, 1.0 + w);
    DivLe(x + s, 1.0 + w, x, 1.0);
    assert s * (0.5 + w) == s * 0.5 + s * w;
    assert (x * 0.5 + s) * w == (x * w) * 0.5 + s * w;
    assert (x * 0.5 + s) * (1.0 + w) == x * 0.5 + s + (x * w) * 0.5 + s * w;
    assert (x + s) * (0.5 + w) == x * 0.5 + s * 0.5 + x * w + s * w;
    assert x * (1.0 + w) == x + x * w;
  }

  lemma MeanUnfolded(vs: seq<real>, d: real)
    requires d > 0.0 && vs != []
    ensures WeightTotal(|vs| - 1, d, 1) >= 0.0
    ensures |vs| > 1 ==> WeightTotal(|vs| - 1, d, 1) > 0.0
    ensures Mean(vs, d) == (vs[0] + WeightedSum(vs[1..], d, 1)) / (1.0 + WeightTotal(|vs| - 1, d, 1))
  {
    WeightTotalPositive(|vs| - 1, d, 1);
    assert Pow(d, 0) == 1.0;
  }

  /** Damping lowers the pace exactly when the latest volume is at or above the mean. */
  lemma DampingOrder(vs: seq<real>, d: real)
    requires d > 0.0 && |vs| > 1
    ensures Excluded(vs, d) <= Halved(vs, d) <= Mean(vs, d) <==> vs[0] >= Mean(vs, d)
  {
    var s, w := WeightedSum(vs[1..], d, 1), WeightTotal(|vs| - 1, d, 1);
    MeanUnfolded(vs, d);
    RestartedWeightsSameMean(vs[1..], d, 1);
    MeansOrdered(vs[0], s, w);
    assert Excluded(vs, d) == s / w;
    assert Halved(vs, d) == (vs[0] * 0.5 + s) / (0.5 + w);
  }

  /** With a threshold of at least one, a spike needs a window of two or more, and each
      damping lowers the pace: excluding at most halving, halving at most nothing. */
  lemma SpikeOrdering(vs: seq<real>, d: real, threshold: real)
    requires d > 0.0 && threshold >= 1.0
    requires SpikeFires(vs, d, threshold)
    ensures |vs| > 1
    ensures Excluded(vs, d) <= Halved(vs, d) <= Mean(vs, d) < vs[0]
    ensures forall r :: Excluded(vs, d) <= FinalPace(vs, d, threshold, r) <= Mean(vs, d)
  {
    var m := Mean(vs, d);
    assert m * threshold >= m;
    assert vs[0] > m;
    MeanUnfolded(vs, d);
    DampingOrder(vs, d);
  }

  lemma {:induction false} ZeroWeightedSum(vs: seq<real>, d: real, k: nat)
    requires forall v | v in vs :: v == 0.0
    ensures WeightedSum(vs, d, k) == 0.0
  {
    if vs != [] {
      assert vs[0] in vs && forall v | v in vs[1..] :: v in vs;
      ZeroWeightedSum(vs[1..], d, k + 1);
    }
  }

  /** A window of zeros has pace zero, whatever the answer to a spike. */
  lemma AllZeroHasNoPace(vs: seq<real>, d: real, threshold: real, r: Option<SpikeResponse>)
    requires AllZero(vs)
    ensures FinalPace(vs, d, threshold, r) == 0.0
  {
    ZeroWeightedSum(vs, d, 0);
  }

  // ---- forecast dates ----

  /** A slower pace never gives an earlier date, and no forecast lies before now. */
  lemma SlowerPaceLaterDate(plan: real, cumulative: real, slow: real, fast: real, now: Time)
    requires 0.0 < slow <= fast
    ensures EndDate(plan, cumulative, slow, now) >= EndDate(plan, cumulative, fast, now) >= now as real
    ensures EndDate(plan, cumulative, slow, now) == now as real <==> cumulative >= plan
  {
    var r := if plan - cumulative > 0.0 then plan - cumulative else 0.0;
    DivLe(r, fast, r, slow);
    assert r * slow <= r * fast;
    var p, q := r / fast, r / slow;
    assert p * fast == r && q * slow == r;
    assert p >= 0.0;
  }

  lemma {:induction false} WeightsPositive(es: seq<Entry>)
    requires forall e | e in es :: e.weight > 0.0
    ensures SumWeights(es) >= 0.0
    ensures es != [] ==> SumWeights(es) > 0.0
  {
    if es != [] {
      assert es[0] in es && forall e | e in es[1..] :: e in es;
      WeightsPositive(es[1..]);
    }
  }

  predicate Between(lo: real, hi: real, sum: real, total: real) { lo * total <= sum <= hi * total }

  lemma BoundStep(lo: real, hi: real, e: Entry, sum: real, total: real)
    requires lo <= e.end <= hi && e.weight > 0.0 && Between(lo, hi, sum, total)
    ensures Between(lo, hi, Contribution(e) + sum, e.weight + total)
  {
    var x, w := e.end, e.weight;
    assert lo * w <= x * w <= hi * w;
    assert lo * (w + total) == lo * w + lo * total;
    assert hi * (w + total) == hi * w + hi * total;
  }

  lemma QuotientBetween(lo: real, hi: real, sum: real, total: real)
    requires total > 0.0 && Between(lo, hi, sum, total)
    ensures lo <= sum / total <= hi
  {
    var q := sum / total;
    assert sum == q * total;
  }

  lemma {:induction false} SumEndsBounded(es: seq<Entry>, lo: real, hi: real)
    requires forall e | e in es :: e.weight > 0.0 && lo <= e.end <= hi
    ensures Between(lo, hi, SumEnds(es), SumWeights(es))
  {
    assert Between(lo, hi, 0.0, 0.0);
    hide Between, Contribution;
    if es != [] {
      assert es[0] in es && forall e | e in es[1..] :: e in es;
      SumEndsBounded(es[1..], lo, hi);
      BoundStep(lo, hi, es[0], SumEnds(es[1..]), SumWeights(es[1..]));
    }
  }

  lemma {:induction false} ExtremeEntries(es: seq<Entry>) returns (least: Entry, greatest: Entry)
    requires es != []
    ensures least in es && greatest in es
    ensures forall e | e in es :: least.end <= e.end <= greatest.end
  {
    least, greatest := es[0], es[0];
    if |es| > 1 {
      var l, g := ExtremeEntries(es[1..]);
      if l.end < least.end { least := l; }
      if g.end > greatest.end { greatest := g; }
      assert forall e | e in es :: e == es[0] || e in es[1..];
    }
  }

  /** With positive weights the weighted date exists and lies between the least and the
      greatest forecast of the items. */
  lemma WeightedDateBetween(es: seq<Entry>) returns (least: Entry, greatest: Entry)
    requires es != [] && forall e | e in es :: e.weight > 0.0
    ensures least in es && greatest in es
    ensures forall e | e in es :: least.end <= e.end <= greatest.end
    ensures WeightedDate(es).Some? && least.end <= WeightedDate(es).value <= greatest.end
  {
    least, greatest := ExtremeEntries(es);
    WeightsPositive(es);
    SumEndsBounded(es, least.end, greatest.end);
    QuotientBetween(least.end, greatest.end, SumEnds(es), SumWeights(es));
  }

  /** The critical date is the greatest forecast at or above the threshold; it is absent
      exactly when no item reaches the threshold. */
  lemma {:induction false} CriticalDateIsMaximum(es: seq<Entry>, threshold: real, best: Option<real>)
    ensures var c := CriticalDate(es, threshold, best);
      && (c.None? <==> best.None? && forall e | e in es :: e.weight < threshold)
      && (c.Some? ==> c == best || exists e | e in es :: e.weight >= threshold && e.end == c.value)
      && (c.Some? ==> forall e | e in es && e.weight >= threshold :: e.end <= c.value)
      && (best.Some? ==> c.Some? && best.value <= c.value)
  {
    if es != [] {
      CriticalDateIsMaximum(es[1..], threshold, Later(best, es[0], threshold));
      assert es[0] in es && forall e | e in es[1..] :: e in es;
      assert forall e | e in es :: e == es[0] || e in es[1..];
    }
  }

  /** When every forecast item reaches the threshold, the critical date is not before the
      weighted date. */
  lemma CriticalNotBeforeWeighted(es: seq<Entry>, cfg: Config)
    requires es != [] && forall e | e in es :: e.weight > 0.0 && e.weight >= cfg.weightThreshold
    ensures var f := ForecastFrom(es, cfg);
      f.criticalDate.Some? && f.weightedDate.Some? && f.weightedDate.value <= f.criticalDate.value
  {
    var least, greatest := WeightedDateBetween(es);
    CriticalDateIsMaximum(es, cfg.weightThreshold, None);
  }
}

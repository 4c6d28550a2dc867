/** What every run keeps about periods, facts and disputes. */
module Lifecycle {
  import opened Common
  import opened Store
  import opened Derived
  import opened PeriodSpec
  import opened DisputeSpec
  import opened BoqSpec
  import opened Runs

  function Rank(s: PeriodStatus): nat {
    match s
    case Open => 0
    case GpSubmitted => 1
    case Verification => 2
    case Closed => 3
    case ForceClosed => 3
  }

  /** Numbers run from 1 without gaps, only the last period can be open, a period is open
      until the contractor has submitted, and nothing is ever force-closed. */
  ghost predicate Numbered(periods: map<PeriodKey, Period>) {
    forall k | k in periods ::
      && k.number >= 1
      && (k.number > 1 ==> PeriodKey(k.site, k.number - 1) in periods)
      && (periods[k].status == Open ==> PeriodKey(k.site, k.number + 1) !in periods)
      && periods[k].status != ForceClosed
      && periods[k].tokenExpiresAt.Some?
      && (periods[k].status == Open <==> periods[k].gpSubmittedAt.None?)
  }

  /** No period is lost or moves back; version, pause and deadline never change, and a closed
      period does not change at all. */
  ghost predicate Advanced(p: map<PeriodKey, Period>, q: map<PeriodKey, Period>) {
    forall k | k in p ::
      && k in q
      && q[k].version == p[k].version && q[k].plannedPause == p[k].plannedPause
        && q[k].tokenExpiresAt == p[k].tokenExpiresAt
      && Rank(p[k].status) <= Rank(q[k].status)
      && (ClosedStatus(p[k].status) ==> q[k] == p[k])
  }

  /** Adding an open period right after the last one. */
  lemma NextNumber(periods: map<PeriodKey, Period>, site: int, n: int, p: Period)
    requires Numbered(periods) && !HasOpenPeriod(periods, site)
    requires n >= 0 && (n > 0 ==> PeriodKey(site, n) in periods)
    requires forall k | k in periods && k.site == site :: k.number <= n
    requires p.status == Open && p.tokenExpiresAt.Some? && p.gpSubmittedAt.None?
    ensures var k := PeriodKey(site, n + 1);
      k !in periods && Advanced(periods, periods[k := p]) && Numbered(periods[k := p])
  {
    assert PeriodKey(site, n + 2) !in periods && PeriodKey(site, n + 1) !in periods;
    assert forall j | j in periods && j.site == site :: periods[j].status != Open;
    hide HasOpenPeriod, Rank, ClosedStatus;
  }

  lemma LastNumberIs(periods: map<PeriodKey, Period>, site: int)
    requires Numbered(periods)
    ensures var n := LastNumber(periods, site); n >= 0 && (n > 0 ==> PeriodKey(site, n) in periods)
    ensures forall k | k in periods && k.site == site :: k.number <= LastNumber(periods, site)
  {
    assert forall k | k in periods && k.site == site :: k.number in Numbers(periods, site);
    hide LastNumber;
  }

  lemma OpenAdvances(db: Db, site: int, pause: bool, reason: Option<string>, free: bool, now: Time)
    requires Numbered(db.periods)
    ensures var e := OpenPeriod(db, site, pause, reason, free, now).Or(db);
      Advanced(db.periods, e.periods) && Numbered(e.periods)
  {
    hide LastNumber, ActiveVersion, HasApprovedReport;
    if OpenPeriod(db, site, pause, reason, free, now).Ok? {
      var k := PeriodKey(site, LastNumber(db.periods, site) + 1);
      var e := OpenPeriod(db, site, pause, reason, free, now).value;
      LastNumberIs(db.periods, site);
      NextNumber(db.periods, site, LastNumber(db.periods, site), e.periods[k]);
      hide Numbered, Advanced;
      assert e.periods == db.periods[k := e.periods[k]];
    } else {
      hide OpenPeriod;
    }
  }

  lemma SubmittedAdvances(periods: map<PeriodKey, Period>, k: PeriodKey, now: Time)
    requires Numbered(periods) && k in periods && periods[k].status == Open
    ensures var q := periods[k := periods[k].(gpSubmittedAt := Some(now), status := GpSubmitted)];
      Advanced(periods, q) && Numbered(q)
  {
  }

  lemma SubmitGpAdvances(db: Db, k: PeriodKey, xs: seq<GpItem>, now: Time)
    requires Numbered(db.periods)
    ensures var e := SubmitGp(db, k, xs, now).Or(db);
      Advanced(db.periods, e.periods) && Numbered(e.periods) && e.periods.Keys == db.periods.Keys
  {
    if SubmitGp(db, k, xs, now).Ok? { SubmittedAdvances(db.periods, k, now); }
    hide Numbered, FactAllowed, TokenError, WithGpItems;
  }

  lemma VerifiedAdvances(periods: map<PeriodKey, Period>, k: PeriodKey)
    requires Numbered(periods) && k in periods && periods[k].status == GpSubmitted
    ensures var q := periods[k := periods[k].(status := Verification)]; Advanced(periods, q) && Numbered(q)
  {
  }

  lemma UpsertPeriods(db: Db, k: PeriodKey, item: int, sc: real, opts: UpsertOpts, now: Time)
    ensures var e := UpsertFact(db, k, item, sc, opts, now).Or(db);
      e.periods == (if e.periods == db.periods || k !in db.periods then db.periods
        else db.periods[k := db.periods[k].(status := Verification)])
    ensures UpsertFact(db, k, item, sc, opts, now).Or(db).periods != db.periods ==>
      k in db.periods && db.periods[k].status == GpSubmitted
  {
    hide UpsertedFact, FactAllowed, NoTemplateInput, FactVersion;
  }

  lemma UpsertAdvances(db: Db, k: PeriodKey, item: int, sc: real, opts: UpsertOpts, now: Time)
    requires Numbered(db.periods)
    ensures var e := UpsertFact(db, k, item, sc, opts, now).Or(db);
      && Advanced(db.periods, e.periods) && Numbered(e.periods) && e.periods.Keys == db.periods.Keys
      && (forall j | j in db.periods :: (ClosedStatus(e.periods[j].status) <==> ClosedStatus(db.periods[j].status))
                                   && (e.periods[j].status == Open <==> db.periods[j].status == Open))
  {
    UpsertPeriods(db, k, item, sc, opts, now);
    hide UpsertFact;
    if UpsertFact(db, k, item, sc, opts, now).Or(db).periods != db.periods { VerifiedAdvances(db.periods, k); }
    hide Numbered;
  }

  lemma ClosedAdvances(periods: map<PeriodKey, Period>, k: PeriodKey)
    requires Numbered(periods) && k in periods && periods[k].status == Verification
    ensures var q := periods[k := periods[k].(status := Closed)]; Advanced(periods, q) && Numbered(q)
  {
  }

  lemma RecalculatedPeriods(db: Db, k: PeriodKey, now: Time)
    ensures var e := Recalculated(db, k, now); e == db.(pace := e.pace, snaps := e.snaps, spikes := e.spikes)
  {
    hide SnapshotFor, RowsFor, SpikesOf;
  }

  /** A period that can be closed is in verification, and closing changes its status alone. */
  lemma ClosingPeriods(db: Db, k: PeriodKey, now: Time)
    requires ClosePeriod(db, k, now).Ok?
    ensures k in db.periods && db.periods[k].status == Verification
    ensures ClosePeriod(db, k, now).value.periods == db.periods[k := db.periods[k].(status := Closed)]
  {
    RecalculatedPeriods(MarkedClosed(db, k), k, now);
    hide Recalculated, HasOpenDiscrepancy;
  }

  lemma CloseAdvances(db: Db, k: PeriodKey, now: Time)
    requires Numbered(db.periods)
    ensures var e := ClosePeriod(db, k, now).Or(db);
      Advanced(db.periods, e.periods) && Numbered(e.periods) && e.periods.Keys == db.periods.Keys
  {
    if ClosePeriod(db, k, now).Ok? {
      ClosingPeriods(db, k, now);
      ClosedAdvances(db.periods, k);
    }
    hide ClosePeriod, Numbered, Advanced;
  }

  lemma EntryPeriods(db: Db, op: Op, now: Time)
    requires Numbered(db.periods) && IsEntryOp(op)
    ensures var e := ApplyEntry(db, op, now);
      && Advanced(db.periods, e.periods) && Numbered(e.periods) && e.periods.Keys == db.periods.Keys
      && (forall j | j in db.periods :: ClosedStatus(e.periods[j].status) <==> ClosedStatus(db.periods[j].status))
  {
    EntryStep(db, op, now);
    var x := EffectOf(db, op, now);
    if x.Entered? { UpsertAdvances(db, x.k, x.item, x.sc, x.opts, now); }
    hide ApplyEntry, EffectOf, UpsertFact;
  }

  lemma PeriodOpPeriods(db: Db, op: Op, now: Time)
    requires Numbered(db.periods) && IsPeriodOp(op)
    ensures var e := ApplyPeriod(db, op, now); Advanced(db.periods, e.periods) && Numbered(e.periods)
    ensures !op.DoOpenPeriod? ==> ApplyPeriod(db, op, now).periods.Keys == db.periods.Keys
  {
    match op
    case DoOpenPeriod(site, pause, reason, free) => OpenAdvances(db, site, pause, reason, free, now);
      hide OpenPeriod, Numbered, Advanced;
    case DoSubmitGp(k, xs) => SubmitGpAdvances(db, k, xs, now); hide SubmitGp, Numbered, Advanced;
    case DoClosePeriod(k) => CloseAdvances(db, k, now); hide ClosePeriod, Numbered, Advanced;
    case DoCorrectFact(fk, sc, accepted) => CorrectTouches(db, fk, sc, accepted, now); hide AdminCorrect;
  }

  lemma UnchangedPeriods(db: Db, op: Op, now: Time)
    requires Numbered(db.periods) && !IsEntryOp(op) && !IsPeriodOp(op)
    ensures Apply(db, op, now).periods == db.periods
  {
    Footprint(db, op, now);
    hide Apply;
  }

  lemma PeriodsStep(db: Db, op: Op, now: Time)
    requires Numbered(db.periods)
    ensures var e := Apply(db, op, now); Advanced(db.periods, e.periods) && Numbered(e.periods)
    ensures !op.DoOpenPeriod? ==> Apply(db, op, now).periods.Keys == db.periods.Keys
  {
    hide Numbered;
    if IsEntryOp(op) { EntryPeriods(db, op, now); hide Advanced; }
    else if IsPeriodOp(op) { PeriodOpPeriods(db, op, now); hide Advanced; }
    else { UnchangedPeriods(db, op, now); hide Apply; }
  }

  // ---- numbers are exactly 1..n ----

  lemma {:induction false} NumbersDown(periods: map<PeriodKey, Period>, site: int, n: int, j: int)
    requires Numbered(periods) && PeriodKey(site, n) in periods && 1 <= j <= n
    ensures PeriodKey(site, j) in periods
    decreases n - j
  {
    if j < n { NumbersDown(periods, site, n, j + 1); }
  }

  lemma NumbersExact(periods: map<PeriodKey, Period>, site: int)
    requires Numbered(periods)
    ensures forall j :: PeriodKey(site, j) in periods <==> 1 <= j <= LastNumber(periods, site)
    ensures forall j | PeriodKey(site, j) in periods && periods[PeriodKey(site, j)].status == Open ::
      j == LastNumber(periods, site)
  {
    var n := LastNumber(periods, site);
    if Numbers(periods, site) == {} {
      assert forall k | k in periods && k.site == site :: k.number in Numbers(periods, site);
    } else {
      forall j | 1 <= j <= n ensures PeriodKey(site, j) in periods { NumbersDown(periods, site, n, j); }
      forall j | PeriodKey(site, j) in periods && periods[PeriodKey(site, j)].status == Open ensures j == n {
        if j < n { NumbersDown(periods, site, n, j + 1); }
      }
    }
  }

  // ---- versions, facts, disputes ----

  /** Versions are only added; the items of a version never change. */
  ghost predicate VersionsKept(v: seq<Version>, w: seq<Version>) {
    |v| <= |w| && forall i | 0 <= i < |v| ::
        w[i].site == v[i].site && w[i].number == v[i].number && w[i].items == v[i].items
  }

  lemma BoqVersionsKept(db: Db, op: Op)
    requires IsBoqOp(op)
    ensures VersionsKept(db.versions, ApplyBoq(db, op).versions)
  {
    hide ItemsAllowed, WeightsValid, NumberTaken, WeighAll, InitialItems, CloneItems, HasOpenPeriod;
  }

  lemma UnchangedVersions(db: Db, op: Op, now: Time)
    requires !IsBoqOp(op)
    ensures Apply(db, op, now).versions == db.versions
  {
    Footprint(db, op, now);
    hide Apply;
  }

  lemma VersionsStep(db: Db, op: Op, now: Time)
    ensures VersionsKept(db.versions, Apply(db, op, now).versions)
  {
    if IsBoqOp(op) { BoqVersionsKept(db, op); hide VersionsKept, ApplyBoq; }
    else { UnchangedVersions(db, op, now); hide Apply; }
  }

  ghost predicate PeriodsRefer(db: Db) {
    forall k | k in db.periods ::
      db.periods[k].version < |db.versions| && db.versions[db.periods[k].version].site == k.site
  }

  predicate NotNegative(x: Option<real>) { x.Some? ==> x.value >= 0.0 }

  predicate FactOk(f: Fact) { NotNegative(f.gp) && NotNegative(f.sc) && NotNegative(f.accepted) && f.version >= 1 }

  /** Every fact belongs to an item of its period's version and holds no negative volume. */
  ghost predicate FactsOk(db: Db) {
    forall fk | fk in db.facts ::
      fk.period in db.periods && HasItem(PeriodItems(db, fk.period), fk.item) && FactOk(db.facts[fk])
  }

  /** Disputes are of type 2 or 3, type 3 only in closed periods, and whatever is open in a
      closed period is of type 3. */
  ghost predicate DisputesOk(periods: map<PeriodKey, Period>, facts: map<FactKey, Fact>, ds: seq<Discrepancy>) {
    forall d | d in ds ::
      && d.fact in facts
      && (d.kind == 2 || d.kind == 3)
      && (d.kind == 3 ==> IsClosed(periods, d.fact.period))
      && (d.status == DisputeOpen && IsClosed(periods, d.fact.period) ==> d.kind == 3)
  }

  ghost predicate Base(db: Db) {
    && Numbered(db.periods) && PeriodsRefer(db) && FactsOk(db)
    && DisputesOk(db.periods, db.facts, db.discrepancies)
  }

  /** Items of existing periods do not change in a step. */
  lemma PeriodItemsStep(db: Db, e: Db, k: PeriodKey)
    requires VersionsKept(db.versions, e.versions) && Advanced(db.periods, e.periods)
    requires PeriodsRefer(db) && k in db.periods
    ensures PeriodItems(e, k) == PeriodItems(db, k)
  {
  }

  lemma RefersStep(db: Db, op: Op, now: Time)
    requires Base(db)
    ensures PeriodsRefer(Apply(db, op, now))
  {
    var e := Apply(db, op, now);
    PeriodsStep(db, op, now);
    VersionsStep(db, op, now);
    if op.DoOpenPeriod? {
      hide LastNumber;
    } else {
      hide Apply;
    }
  }

  // ---- facts ----

  lemma {:induction false} GpItemsOk(db: Db, facts: map<FactKey, Fact>, k: PeriodKey, xs: seq<GpItem>)
    requires forall x | x in xs :: NotNegative(x.gp)
    requires forall fk | fk in facts :: FactOk(facts[fk])
    ensures var g := WithGpItems(facts, k, xs);
      && (forall fk | fk in g ::
        FactOk(g[fk]) && (fk in facts || (fk.period == k && exists x | x in xs :: x.item == fk.item)))
      && (forall fk | fk in facts :: fk in g && (fk.period != k ==> g[fk] == facts[fk]) && g[fk].sc == facts[fk].sc
            && g[fk].accepted == facts[fk].accepted && g[fk].discStatus == facts[fk].discStatus
            && g[fk].spikeResponse == facts[fk].spikeResponse && NotOlder(facts[fk], g[fk]))
    decreases |xs|
  {
    if xs != [] {
      assert xs[0] in xs && forall x | x in xs[1..] :: x in xs;
      GpItemsOk(db, WithGp(facts, k, xs[0]), k, xs[1..]);
    }
  }

  /** The version never falls, and at the same version the SC volume, the discrepancy type and
      the contractor's note are the same. */
  predicate NotOlder(f: Fact, g: Fact) {
    g.version >= f.version
      && (g.version == f.version ==> g.sc == f.sc && g.discType == f.discType && g.gpNote == f.gpNote)
  }

  /** What one step does to a fact that exists. */
  ghost predicate FactKept(f: Fact, g: Fact) { FactOk(g) && NotOlder(f, g) }

  /** Facts are never lost, stay well formed, never lose version, and new ones belong to an
      item of their period. */
  ghost predicate FactsAdvance(db: Db, g: map<FactKey, Fact>) {
    && (forall fk | fk in db.facts :: fk in g && FactKept(db.facts[fk], g[fk]))
    && (forall fk | fk in g && fk !in db.facts ::
          fk.period in db.periods && HasItem(PeriodItems(db, fk.period), fk.item) && FactOk(g[fk]))
  }

  lemma UpsertFacts(db: Db, k: PeriodKey, item: int, sc: real, opts: UpsertOpts, now: Time)
    requires FactsOk(db)
    ensures FactsAdvance(db, UpsertFact(db, k, item, sc, opts, now).Or(db).facts)
  {
    hide NoTemplateInput;
    var r := UpsertFact(db, k, item, sc, opts, now);
    if r.Ok? {
      var fk := FactKey(k, item);
      assert FactOk(UpsertedFact(db.facts, fk, sc, opts.spikeResponse));
      assert HasItem(PeriodItems(db, k), item);
      assert r.value.facts == db.facts[fk := UpsertedFact(db.facts, fk, sc, opts.spikeResponse)];
      hide UpsertFact, UpsertError, HasItem, PeriodItems;
    }
  }

  lemma SubmitGpFacts(db: Db, k: PeriodKey, xs: seq<GpItem>, now: Time)
    requires FactsOk(db)
    ensures FactsAdvance(db, SubmitGp(db, k, xs, now).Or(db).facts)
  {
    var r := SubmitGp(db, k, xs, now);
    if r.Ok? {
      assert forall x | x in xs :: FactAllowed(db, k, x.item, x.gp);
      GpItemsOk(db, db.facts, k, xs);
    }
  }

  lemma CorrectedFacts(db: Db, fk: FactKey, sc: real, accepted: real)
    requires FactsOk(db) && CorrectFact(db, fk, sc, accepted).Ok?
    ensures FactsAdvance(db, CorrectFact(db, fk, sc, accepted).value.facts)
  {
    var f := db.facts[fk];
    var g := Bumped(f, f.(sc := Some(sc), accepted := Some(accepted)));
    assert FactKept(f, g);
    assert CorrectFact(db, fk, sc, accepted).value.facts == db.facts[fk := g];
    hide CorrectFact, Bumped, HasItem, PeriodItems;
  }

  lemma CorrectFacts(db: Db, fk: FactKey, sc: real, accepted: real, now: Time)
    requires FactsOk(db)
    ensures FactsAdvance(db, AdminCorrect(db, fk, sc, accepted, now).Or(db).facts)
  {
    hide CascadeFrom;
    var r := CorrectFact(db, fk, sc, accepted);
    if r.Ok? {
      CascadeTouches(r.value, fk.period.site, fk.period.number, now);
      CorrectedFacts(db, fk, sc, accepted);
      hide CorrectFact, FactsOk, FactsAdvance;
    } else {
      hide CorrectFact;
    }
  }

  lemma CreateDisputeFacts(db: Db, k: PeriodKey, item: int, reason: Option<string>, now: Time)
    requires FactsOk(db)
    ensures FactsAdvance(db, CreateDispute(db, k, item, reason, now).Or(db).facts)
  {
    hide WithJobs, Timers, PendingIds, IsBlank;
  }

  lemma RunJobFacts(db: Db, id: nat, pick: nat, now: Time)
    requires FactsOk(db)
    ensures FactsAdvance(db, ProcessEvent(db, id, pick, now).facts)
  {
    JobEffect(db, id, pick, now);
    hide ProcessEvent;
  }

  lemma EntryFacts(db: Db, op: Op, now: Time)
    requires FactsOk(db) && IsEntryOp(op)
    ensures FactsAdvance(db, ApplyEntry(db, op, now).facts)
  {
    EntryStep(db, op, now);
    var x := EffectOf(db, op, now);
    if x.Entered? { UpsertFacts(db, x.k, x.item, x.sc, x.opts, now); }
    hide ApplyEntry, EffectOf, UpsertFact;
  }

  lemma FactsStep(db: Db, op: Op, now: Time)
    requires Base(db)
    ensures FactsAdvance(db, Apply(db, op, now).facts)
  {
    hide FactsAdvance, FactsOk, Numbered, PeriodsRefer, DisputesOk;
    if IsEntryOp(op) {
      EntryFacts(db, op, now);
    } else {
      match op
      case DoSubmitGp(k, xs) => SubmitGpFacts(db, k, xs, now);
      case DoCorrectFact(fk, sc, accepted) => CorrectFacts(db, fk, sc, accepted, now);
      case DoCreateDispute(k, item, reason) => CreateDisputeFacts(db, k, item, reason, now);
      case DoRunJob(id, pick) => RunJobFacts(db, id, pick, now);
      case _ => UnchangedFacts(db, op, now);
    }
  }

  lemma UnchangedFacts(db: Db, op: Op, now: Time)
    requires FactsOk(db) && !IsEntryOp(op) && !op.DoSubmitGp? && !op.DoCorrectFact? && !op.DoCreateDispute?
      && !op.DoRunJob?
    ensures FactsAdvance(db, Apply(db, op, now).facts)
  {
    Footprint(db, op, now);
    hide Apply;
  }

  // ---- disputes ----

  /** Open disputes come from createDispute while the period is in verification, or from an
      escalation in a closed one; resolved ones stay resolved. */
  ghost predicate DisputesAdvance(db: Db, ds: seq<Discrepancy>) {
    && |db.discrepancies| <= |ds|
    && (forall i | 0 <= i < |db.discrepancies| ::
          && ds[i].fact == db.discrepancies[i].fact && ds[i].kind == db.discrepancies[i].kind
          && (ds[i].status == DisputeOpen ==> db.discrepancies[i].status == DisputeOpen))
    && (forall i | |db.discrepancies| <= i < |ds| ::
          && ds[i].fact in db.facts
          && ((ds[i].kind == 2 && !IsClosed(db.periods, ds[i].fact.period))
            || (ds[i].kind == 3 && IsClosed(db.periods, ds[i].fact.period))))
  }

  lemma CreateDisputeAdvances(db: Db, k: PeriodKey, item: int, reason: Option<string>, now: Time)
    ensures DisputesAdvance(db, CreateDispute(db, k, item, reason, now).Or(db).discrepancies)
  {
    hide WithJobs, Timers, PendingIds, IsBlank, Bumped;
  }

  lemma RespondAdvances(db: Db, id: nat, position: Option<string>, now: Time)
    ensures DisputesAdvance(db, SubmitGpResponse(db, id, position, now).Or(db).discrepancies)
  {
    hide CancelEvents, IsBlank;
  }

  lemma RunJobAdvances(db: Db, id: nat, pick: nat, now: Time)
    ensures DisputesAdvance(db, ProcessEvent(db, id, pick, now).discrepancies)
  {
    JobEffect(db, id, pick, now);
    hide ProcessEvent;
  }

  lemma DisputeOpAdvances(db: Db, op: Op, now: Time)
    requires IsDisputeOp(op)
    ensures DisputesAdvance(db, ApplyDispute(db, op, now).discrepancies)
  {
    match op
    case DoCreateDispute(k, item, reason) => CreateDisputeAdvances(db, k, item, reason, now);
    case DoRespond(id, position) => RespondAdvances(db, id, position, now);
    case DoRunJob(id, pick) => RunJobAdvances(db, id, pick, now);
    case _ => DisputeTouches(db, op, now);
  }

  lemma EntryAdvancesDisputes(db: Db, op: Op, now: Time)
    requires IsEntryOp(op)
    ensures DisputesAdvance(db, ApplyEntry(db, op, now).discrepancies)
  {
    EntryStep(db, op, now);
    EffectEnters(db, op, now);
    hide ApplyEntry, EffectOf;
    var x := EffectOf(db, op, now);
    if x.Entered? {
      assert WithEffect(db, x, now).discrepancies == db.discrepancies;
      hide WithEffect;
    }
    hide UpsertError;
  }

  lemma DisputesStep(db: Db, op: Op, now: Time)
    ensures DisputesAdvance(db, Apply(db, op, now).discrepancies)
  {
    hide DisputesAdvance, Touches;
    if IsEntryOp(op) { EntryAdvancesDisputes(db, op, now); }
    else if IsDisputeOp(op) { DisputeOpAdvances(db, op, now); }
    else { SameDisputes(db, op, now); }
  }

  lemma SameDisputes(db: Db, op: Op, now: Time)
    requires !IsEntryOp(op) && !IsDisputeOp(op)
    ensures DisputesAdvance(db, Apply(db, op, now).discrepancies)
  {
    Footprint(db, op, now);
    hide Apply;
  }

  lemma SubmitGpClosesNothing(db: Db, k: PeriodKey, xs: seq<GpItem>, now: Time, j: PeriodKey)
    requires !IsClosed(db.periods, j)
    ensures !IsClosed(SubmitGp(db, k, xs, now).Or(db).periods, j)
  {
    hide TokenError, FactAllowed, WithGpItems;
  }

  lemma OpenClosesNothing(db: Db, site: int, pause: bool, reason: Option<string>, free: bool, now: Time, j: PeriodKey)
    requires !IsClosed(db.periods, j)
    ensures !IsClosed(OpenPeriod(db, site, pause, reason, free, now).Or(db).periods, j)
  {
    hide HasApprovedReport, HasOpenPeriod, ActiveVersion, LastNumber;
  }

  lemma PeriodOpCloses(db: Db, op: Op, now: Time, k: PeriodKey)
    requires IsPeriodOp(op) && !IsClosed(db.periods, k) && IsClosed(ApplyPeriod(db, op, now).periods, k)
    ensures op == DoClosePeriod(k) && ClosePeriod(db, k, now).Ok?
  {
    match op
    case DoOpenPeriod(site, pause, reason, free) => OpenClosesNothing(db, site, pause, reason, free, now, k);
      hide OpenPeriod;
    case DoSubmitGp(j, xs) => SubmitGpClosesNothing(db, j, xs, now, k); hide SubmitGp;
    case DoClosePeriod(j) =>
      if ClosePeriod(db, j, now).Ok? { ClosingPeriods(db, j, now); }
      hide ClosePeriod;
    case DoCorrectFact(fk, sc, accepted) => CorrectTouches(db, fk, sc, accepted, now); hide AdminCorrect;
  }

  /** A period becomes closed only through closePeriod, which finds no open dispute in it. */
  lemma ClosingFindsNoOpenDispute(db: Db, op: Op, now: Time, k: PeriodKey)
    requires Numbered(db.periods) && !IsClosed(db.periods, k) && IsClosed(Apply(db, op, now).periods, k)
    ensures op == DoClosePeriod(k) && ClosePeriod(db, k, now).Ok?
    ensures forall d | d in db.discrepancies && d.fact.period == k :: d.status != DisputeOpen
  {
    hide Numbered;
    if IsEntryOp(op) { EntryPeriods(db, op, now); hide ApplyEntry; }
    else if IsPeriodOp(op) { PeriodOpCloses(db, op, now, k); hide Recalculated, MarkedClosed; }
    else { UnchangedPeriods(db, op, now); hide Apply; }
  }

  lemma CloseKeepsDisputes(db: Db, k: PeriodKey, now: Time)
    ensures Apply(db, DoClosePeriod(k), now).discrepancies == db.discrepancies
  {
    Footprint(db, DoClosePeriod(k), now);
    hide Apply;
  }

  /** Closing a period meets no open dispute in it and changes no dispute. */
  ghost predicate ClosesQuietly(db: Db, q: map<PeriodKey, Period>, ds: seq<Discrepancy>) {
    forall k | k in q && ClosedStatus(q[k].status) && !IsClosed(db.periods, k) ::
      ds == db.discrepancies && forall d | d in ds && d.fact.period == k :: d.status != DisputeOpen
  }

  lemma DisputesOkAfter(db: Db, q: map<PeriodKey, Period>, facts: map<FactKey, Fact>, ds: seq<Discrepancy>)
    requires FactsOk(db) && DisputesOk(db.periods, db.facts, db.discrepancies)
    requires DisputesAdvance(db, ds) && Advanced(db.periods, q) && ClosesQuietly(db, q, ds)
    requires forall fk | fk in db.facts :: fk in facts
    ensures DisputesOk(q, facts, ds)
  {
    hide HasItem, PeriodItems, FactOk, Rank;
    forall d | d in ds
      ensures d.fact in facts && (d.kind == 2 || d.kind == 3)
      ensures d.kind == 3 ==> IsClosed(q, d.fact.period)
      ensures d.status == DisputeOpen && IsClosed(q, d.fact.period) ==> d.kind == 3
    {
      var i :| 0 <= i < |ds| && ds[i] == d;
      if i < |db.discrepancies| { assert db.discrepancies[i] in db.discrepancies; }
      assert d.fact.period in db.periods;
    }
  }

  lemma QuietStep(db: Db, op: Op, now: Time)
    requires Base(db)
    ensures var e := Apply(db, op, now); ClosesQuietly(db, e.periods, e.discrepancies)
  {
    var e := Apply(db, op, now);
    hide Apply;
    forall k | k in e.periods && ClosedStatus(e.periods[k].status) && !IsClosed(db.periods, k)
      ensures e.discrepancies == db.discrepancies && forall d | d in e.discrepancies && d.fact.period == k ::
        d.status != DisputeOpen
    {
      ClosingFindsNoOpenDispute(db, op, now, k);
      CloseKeepsDisputes(db, k, now);
    }
  }

  lemma DisputesOkStep(db: Db, op: Op, now: Time)
    requires Base(db)
    ensures var e := Apply(db, op, now); DisputesOk(e.periods, e.facts, e.discrepancies)
  {
    var e := Apply(db, op, now);
    DisputesStep(db, op, now);
    PeriodsStep(db, op, now);
    FactsStep(db, op, now);
    QuietStep(db, op, now);
    hide Apply, DisputesAdvance, Advanced, ClosesQuietly, FactKept, Numbered, PeriodsRefer, FactsOk, DisputesOk;
    DisputesOkAfter(db, e.periods, e.facts, e.discrepancies);
  }

  lemma FactsOkStep(db: Db, op: Op, now: Time)
    requires Base(db)
    ensures FactsOk(Apply(db, op, now))
  {
    var e := Apply(db, op, now);
    PeriodsStep(db, op, now);
    VersionsStep(db, op, now);
    FactsStep(db, op, now);
    hide Apply;
    forall fk | fk in e.facts ensures fk.period in e.periods && HasItem(PeriodItems(e, fk.period), fk.item)
      && FactOk(e.facts[fk]) {
      assert fk.period in db.periods && HasItem(PeriodItems(db, fk.period), fk.item);
      PeriodItemsStep(db, e, fk.period);
    }
  }

  lemma BaseStep(db: Db, op: Op, now: Time)
    requires Base(db)
    ensures Base(Apply(db, op, now))
  {
    PeriodsStep(db, op, now);
    RefersStep(db, op, now);
    FactsOkStep(db, op, now);
    DisputesOkStep(db, op, now);
    hide Apply, Numbered, PeriodsRefer, FactsOk, DisputesOk;
  }

  lemma EmptyBase(sites: map<int, Site>)
    ensures Base(EmptyDb(sites))
  {
  }

  lemma {:induction false} BaseRun(db: Db, steps: seq<Step>)
    requires Base(db)
    ensures Base(Run(db, steps))
    decreases |steps|
  {
    hide Apply, Base;
    if steps != [] {
      BaseStep(db, steps[0].op, steps[0].now);
      BaseRun(Apply(db, steps[0].op, steps[0].now), steps[1..]);
    }
  }

  /** In every reachable state the period numbers of an object are exactly 1..n, only the last
      of them can be open, and every open dispute in a closed period is of type 3. */
  lemma ReachableLifecycle(sites: map<int, Site>, steps: seq<Step>, site: int)
    ensures var db := Run(EmptyDb(sites), steps);
      && (forall j :: PeriodKey(site, j) in db.periods <==> 1 <= j <= LastNumber(db.periods, site))
      && (forall j | PeriodKey(site, j) in db.periods && db.periods[PeriodKey(site, j)].status == Open ::
        j == LastNumber(db.periods, site))
      && (forall d | d in db.discrepancies && d.status == DisputeOpen && IsClosed(db.periods, d.fact.period) ::
        d.kind == 3)
  {
    BaseRun(EmptyDb(sites), steps);
    NumbersExact(Run(EmptyDb(sites), steps).periods, site);
  }

  /** Over any further run no period is lost and no status moves back. */
  lemma {:induction false} StatusNeverMovesBack(db: Db, steps: seq<Step>)
    requires Numbered(db.periods)
    ensures Advanced(db.periods, Run(db, steps).periods)
    decreases |steps|
  {
    hide Apply, Numbered;
    if steps != [] {
      var e := Apply(db, steps[0].op, steps[0].now);
      PeriodsStep(db, steps[0].op, steps[0].now);
      StatusNeverMovesBack(e, steps[1..]);
    }
  }
}

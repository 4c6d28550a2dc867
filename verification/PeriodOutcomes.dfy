/** What the operations on periods and facts do to the store, in terms of its rows alone. */
module PeriodOutcomes {
  import opened Common
  import opened Store
  import opened Derived
  import opened PeriodSpec
  import opened Runs
  import opened Lifecycle

  /** The version of the period lists the item. */
  predicate Lists(db: Db, k: PeriodKey, item: int) {
    k in db.periods && db.periods[k].version < |db.versions|
    && exists x | x in db.versions[db.periods[k].version].items :: x.id == item
  }

  lemma ListsIs(db: Db, k: PeriodKey, item: int)
    ensures HasItem(PeriodItems(db, k), item) <==> Lists(db, k, item)
  {
  }

  predicate ClosedIn(db: Db, k: PeriodKey) {
    k in db.periods && (db.periods[k].status == Closed || db.periods[k].status == ForceClosed)
  }

  // ---- opening ----

  /** The refusals of openPeriod, in their order. */
  lemma OpenRefuses(db: Db, site: int, pause: bool, reason: Option<string>, free: bool, now: Time)
    ensures OpenPeriod(db, site, pause, reason, free, now).Error() ==
      Needs(pause ==> reason.Some? && reason.value in PAUSE_REASONS, InvalidPauseReason,
      Needs(free, PeriodLockTimeout,
      Needs(site in db.sites, RowNotFound,
      Needs(exists r | r in db.reports :: r.site == site && r.status == Approved, ZeroReportNotApproved,
      Needs(forall k | k in db.periods && k.site == site :: db.periods[k].status != Open, PeriodAlreadyOpen,
      Needs(exists v | v in db.versions :: v.site == site && v.isActive, RowNotFound, None))))))
  {
    assert (exists v | v in db.versions :: v.site == site && v.isActive) <==> ActiveVersion(db.versions, site).Some?;
    hide LastNumber, ActiveVersion;
  }

  /** A period that was opened is the first of the object or follows its last one, has the active
      version and the pause that was asked for, and leaves the contractor 14 days; nothing else
      changes. */
  lemma OpenAdds(db: Db, site: int, pause: bool, reason: Option<string>, free: bool, now: Time)
      returns (k: PeriodKey, v: nat)
    requires OpenPeriod(db, site, pause, reason, free, now).Ok?
    ensures k.site == site && k !in db.periods
    ensures forall j | j in db.periods && j.site == site :: j.number < k.number
    ensures (forall j | j in db.periods :: j.site != site) ==> k.number == 1
    ensures (exists j | j in db.periods :: j.site == site) ==> PeriodKey(site, k.number - 1) in db.periods
    ensures v < |db.versions| && db.versions[v].site == site && db.versions[v].isActive
    ensures OpenPeriod(db, site, pause, reason, free, now).value ==
      db.(periods := db.periods[k := Period(v, Open, pause, Some(now + 1_209_600_000), None)])
  {
    k := PeriodKey(site, LastNumber(db.periods, site) + 1);
    v := ActiveVersion(db.versions, site).value;
    assert forall j | j in db.periods && j.site == site :: j.number in Numbers(db.periods, site);
    hide LastNumber, ActiveVersion, HasApprovedReport, HasOpenPeriod;
  }

  // ---- the contractor's submission ----

  /** The refusals of submitGp, in their order. */
  lemma SubmitRefuses(db: Db, k: PeriodKey, xs: seq<GpItem>, now: Time)
    ensures SubmitGp(db, k, xs, now).Error() ==
      if k !in db.periods then Some(GpTokenNotFound)
      else
        var p := db.periods[k];
        Needs(p.tokenExpiresAt.Some? && now <= p.tokenExpiresAt.value, GpTokenExpired,
        Needs(p.gpSubmittedAt.None?, GpAlreadySubmitted,
        Needs(p.status == Open, PeriodWrongStatus,
        Needs(forall x | x in xs :: !x.extraField, ProtectedField,
        Needs(forall x | x in xs ::
          Lists(db, k, x.item) && (x.gp.Some? ==> x.gp.value >= 0.0), ConstraintViolation, None)))))
  {
    hide WithGpItems, HasItem, PeriodItems, Lists;
    forall x | x in xs
      ensures FactAllowed(db, k, x.item, x.gp) <==> Lists(db, k, x.item) && (x.gp.Some? ==> x.gp.value >= 0.0)
    {
      ListsIs(db, k, x.item);
    }
    hide FactAllowed;
  }

  /** The last row of the form for the item. */
  function LastRow(xs: seq<GpItem>, item: int): Option<GpItem>
    decreases |xs|
  {
    if xs == [] then None
    else if xs[|xs| - 1].item == item then Some(xs[|xs| - 1])
    else LastRow(xs[..|xs| - 1], item)
  }

  lemma {:induction false} GpItemsAppend(facts: map<FactKey, Fact>, k: PeriodKey, xs: seq<GpItem>, x: GpItem)
    ensures WithGpItems(facts, k, xs + [x]) == WithGp(WithGpItems(facts, k, xs), k, x)
    decreases |xs|
  {
    if xs == [] {
      assert [] + [x] == [x] && [x][1..] == [];
      assert WithGpItems(facts, k, [x]) == WithGpItems(WithGp(facts, k, x), k, []);
    } else {
      assert (xs + [x])[0] == xs[0] && (xs + [x])[1..] == xs[1..] + [x];
      GpItemsAppend(WithGp(facts, k, xs[0]), k, xs[1..], x);
    }
  }

  /** A fact of the form holds the figure and note of the item's last row, and keeps the rest. */
  predicate HoldsRow(before: map<FactKey, Fact>, after: map<FactKey, Fact>, fk: FactKey, x: GpItem) {
    && fk in after && after[fk].gp == x.gp && after[fk].gpNote == x.note
    && if fk in before then
         after[fk] == before[fk].(gp := x.gp, gpNote := x.note, version := after[fk].version)
       else
         after[fk] == Fact(x.gp, x.note, None, None, None, None, None, after[fk].version)
  }

  /** A row of the form raises the version of a fact exactly when it changes the note. */
  lemma RowVersion(facts: map<FactKey, Fact>, k: PeriodKey, x: GpItem)
    ensures var fk, after := FactKey(k, x.item), WithGp(facts, k, x);
      && fk in after
      && after[fk].version ==
           if fk !in facts then 1 else if facts[fk].gpNote == x.note then facts[fk].version else facts[fk].version + 1
  {
  }

  /** Every item of the form holds its last row; facts of other items and periods do not change. */
  lemma {:induction false} FormIsWritten(facts: map<FactKey, Fact>, k: PeriodKey, xs: seq<GpItem>, fk: FactKey)
    ensures var after := WithGpItems(facts, k, xs);
      if fk.period == k && LastRow(xs, fk.item).Some? then HoldsRow(facts, after, fk, LastRow(xs, fk.item).value)
      else (fk in after <==> fk in facts) && (fk in facts ==> after[fk] == facts[fk])
    decreases |xs|
  {
    if xs != [] {
      var n := |xs| - 1;
      assert xs == xs[..n] + [xs[n]];
      FormIsWritten(facts, k, xs[..n], fk);
      GpItemsAppend(facts, k, xs[..n], xs[n]);
      assert fk == FactKey(fk.period, fk.item);
      hide WithGpItems;
    }
  }

  /** A submission writes every row of the form and marks the period, and nothing else. */
  lemma SubmitWrites(db: Db, k: PeriodKey, xs: seq<GpItem>, now: Time, fk: FactKey)
    requires SubmitGp(db, k, xs, now).Ok?
    ensures var e := SubmitGp(db, k, xs, now).value;
      && k in db.periods
      && e == db.(facts := e.facts,
                  periods := db.periods[k := db.periods[k].(status := GpSubmitted, gpSubmittedAt := Some(now))])
      && if fk.period == k && LastRow(xs, fk.item).Some?
        then HoldsRow(db.facts, e.facts, fk, LastRow(xs, fk.item).value)
         else (fk in e.facts <==> fk in db.facts) && (fk in db.facts ==> e.facts[fk] == db.facts[fk])
  {
    FormIsWritten(db.facts, k, xs, fk);
    hide WithGpItems, FactAllowed, TokenError, HoldsRow, LastRow;
  }

  // ---- the SC entry ----

  function VersionOf(db: Db, fk: FactKey): int { if fk in db.facts then db.facts[fk].version else 0 }

  /** The refusals of upsertPeriodFact, in their order. */
  lemma EntryRefuses(db: Db, k: PeriodKey, item: int, sc: real, opts: UpsertOpts, now: Time)
    ensures UpsertFact(db, k, item, sc, opts, now).Error() ==
      if k !in db.periods then Some(RowNotFound)
      else
        var p, fk := db.periods[k], FactKey(k, item);
        Needs(p.status != Closed && p.status != ForceClosed, PeriodAlreadyClosed,
        Needs(p.status == GpSubmitted || p.status == Verification
              || (p.status == Open && p.tokenExpiresAt.Some? && p.tokenExpiresAt.value < now), PeriodWrongStatus,
        Needs(opts.workAccessible == Some(false) ==> (k, Some(item)) in db.photos, Type2PhotoRequired,
        Needs(opts.expectedVersion.Some? ==> opts.expectedVersion.value == VersionOf(db, fk),
              VersionConflict(if fk in db.facts then db.facts[fk].sc else None, VersionOf(db, fk)),
        Needs(Lists(db, k, item) && sc >= 0.0, ConstraintViolation, None)))))
  {
    ListsIs(db, k, item);
    hide UpsertedFact, HasItem, PeriodItems, Lists;
  }

  /** An SC entry stores the figure and the spike answer given with it; it confirms the fact when
      the contractor has the same figure, and opens a type-1 discrepancy without an accepted volume
      otherwise. The contractor's figure and note stay, and so does every other fact. */
  lemma EntryWrites(db: Db, k: PeriodKey, item: int, sc: real, opts: UpsertOpts, now: Time)
    requires UpsertFact(db, k, item, sc, opts, now).Ok?
    ensures var e, fk := UpsertFact(db, k, item, sc, opts, now).value, FactKey(k, item);
      var gp := if fk in db.facts then db.facts[fk].gp else None;
      var note := if fk in db.facts then db.facts[fk].gpNote else None;
      && fk in e.facts && k in db.periods
      && e.facts == db.facts[fk := e.facts[fk]]
      && e.facts[fk] == (if gp == Some(sc)
           then Fact(gp, note, Some(sc), Some(sc), None, Some(FactConfirmed), opts.spikeResponse, e.facts[fk].version)
           else Fact(gp, note, Some(sc), None, Some(1), Some(FactOpen), opts.spikeResponse, e.facts[fk].version))
      && e == db.(facts := e.facts, periods := e.periods)
      && e.periods == (if db.periods[k].status == GpSubmitted
           then db.periods[k := db.periods[k].(status := Verification)] else db.periods)
  {
    assert k in db.periods by { hide UpsertedFact; }
    hide UpsertError;
  }

  // ---- closing ----

  /** The refusals of closePeriod, in their order. */
  lemma CloseRefuses(db: Db, k: PeriodKey, now: Time)
    ensures ClosePeriod(db, k, now).Error() ==
      if k !in db.periods then Some(RowNotFound)
      else
        var p := db.periods[k];
        Needs(p.status != Closed && p.status != ForceClosed, PeriodAlreadyClosed,
        Needs(p.status == Verification, PeriodWrongStatus,
        Needs(forall d | d in db.discrepancies && d.fact.period == k :: d.status != DisputeOpen, OpenDiscrepanciesExist,
        Needs(k !in db.snaps, ConstraintViolation, None))))
  {
    hide Recalculated;
    assert HasOpenDiscrepancy(db, k)
      <==> exists d | d in db.discrepancies :: d.fact.period == k && d.status == DisputeOpen;
    if HasOpenDiscrepancy(db, k) {
      var d :| d in db.discrepancies && d.fact.period == k && d.status == DisputeOpen;
    }
  }

  /** The volume of a fact: the accepted one, or else the SC figure, or else nothing. */
  lemma VolumeIs(facts: map<FactKey, Fact>, fk: FactKey)
    ensures fk in facts && facts[fk].accepted.Some? ==> Volume(facts, fk) == facts[fk].accepted.value
    ensures fk in facts && facts[fk].accepted.None? && facts[fk].sc.Some? ==> Volume(facts, fk) == facts[fk].sc.value
    ensures fk !in facts || (facts[fk].accepted.None? && facts[fk].sc.None?) ==> Volume(facts, fk) == 0.0
  {
  }

  /** A row holds, twice, the volume less that of the closed period before, and the planned pause. */
  lemma RowIs(db: Db, k: PeriodKey, item: int, prev: int)
    requires k in db.periods
    requires prev == 0 || (0 < prev < k.number && ClosedIn(db, PeriodKey(k.site, prev)))
    requires forall j | prev < j < k.number && 0 < j :: !ClosedIn(db, PeriodKey(k.site, j))
    ensures var v := Volume(db.facts, FactKey(k, item)) -
                     (if prev == 0 then 0.0 else Volume(db.facts, FactKey(PeriodKey(k.site, prev), item)));
      RowFor(db, k, item) == PaceRow(v, v, db.periods[k].plannedPause)
  {
    var m := PrevClosed(db.periods, k.site, k.number);
    assert m > 0 ==> ClosedIn(db, PeriodKey(k.site, m));
    assert prev > 0 ==> IsClosed(db.periods, PeriodKey(k.site, prev));
    hide Volume, PrevClosed;
  }

  /** Closing changes the status of the period, stores a row for each item of its version, and a
      snapshot of the moment; facts, versions, disputes and the other rows stay. */
  lemma CloseWrites(db: Db, k: PeriodKey, now: Time)
    requires ClosePeriod(db, k, now).Ok?
    ensures var e := ClosePeriod(db, k, now).value;
      && k in db.periods
      && e == db.(periods := db.periods[k := db.periods[k].(status := Closed)], pace := e.pace, snaps := e.snaps,
        spikes := e.spikes)
      && (forall fk: FactKey {:trigger fk in e.pace} | fk.period == k ==> !Lists(db, k, fk.item) ::
            (fk in e.pace <==> fk in db.pace) && (fk in db.pace ==> e.pace[fk] == db.pace[fk]))
      && (forall item | Lists(db, k, item) ::
        FactKey(k, item) in e.pace && e.pace[FactKey(k, item)] == RowFor(e, k, item))
      && k in e.snaps && e.snaps == db.snaps[k := e.snaps[k]] && e.snaps[k].calculatedAt == now
      && e.snaps[k].readiness == Readiness(e, k)
  {
    var d := MarkedClosed(db, k);
    var e := ClosePeriod(db, k, now).value;
    assert e == Recalculated(d, k, now) && k in db.periods by { hide Recalculated, HasOpenDiscrepancy; }
    RecalculatedPeriods(d, k, now);
    RecalculatedParts(d, k, now);
    hide ClosePeriod, Recalculated;
    assert PeriodItems(e, k) == PeriodItems(d, k) == PeriodItems(db, k);
    forall item | Lists(db, k, item) ensures FactKey(k, item) in e.pace
      && e.pace[FactKey(k, item)] == RowFor(e, k, item) {
      ListsIs(db, k, item);
      assert FactKey(k, item) in RowKeys(k, PeriodItems(d, k));
      assert RowFor(d, k, item) == RowFor(e, k, item);
    }
    forall fk: FactKey | fk.period == k ==> !Lists(db, k, fk.item)
      ensures (fk in e.pace <==> fk in db.pace) && (fk in db.pace ==> e.pace[fk] == db.pace[fk])
    {
      ListsIs(db, k, fk.item);
      assert fk !in RowsFor(d, k);
    }
  }

  lemma RecalculatedParts(d: Db, k: PeriodKey, now: Time)
    ensures var e := Recalculated(d, k, now);
      e.pace == d.pace + RowsFor(d, k) && e.snaps == d.snaps[k := e.snaps[k]] && e.snaps[k].calculatedAt == now
      && e.snaps[k].readiness == Readiness(e, k)
  {
    hide RowsFor, ObjectForecast, SpikesOf;
    var e := Recalculated(d, k, now);
    assert PeriodItems(e, k) == PeriodItems(WithRows(d, k), k);
  }

  // ---- correcting ----

  /** The refusals of adminCorrectFact, in their order. */
  lemma CorrectionRefuses(db: Db, fk: FactKey, sc: real, accepted: real, now: Time)
    ensures AdminCorrect(db, fk, sc, accepted, now).Error() ==
      Needs(fk in db.facts, RowNotFound, Needs(sc >= 0.0 && accepted >= 0.0, ConstraintViolation, None))
  {
    hide CascadeFrom;
  }

  /** A correction stores the SC figure and the accepted figure where they belong, so that the
      accepted one is the volume from then on. The rest of the fact, except its version, every
      other fact, and everything that is not derived stay. */
  lemma CorrectionWrites(db: Db, fk: FactKey, sc: real, accepted: real, now: Time)
    requires AdminCorrect(db, fk, sc, accepted, now).Ok?
    ensures var e := AdminCorrect(db, fk, sc, accepted, now).value;
      && fk in db.facts && fk in e.facts
      && e.facts[fk].sc == Some(sc) && e.facts[fk].accepted == Some(accepted)
      && e.facts[fk] == db.facts[fk].(sc := Some(sc), accepted := Some(accepted), version := e.facts[fk].version)
      && e.facts[fk].version == db.facts[fk].version + (if db.facts[fk].sc == Some(sc) then 0 else 1)
      && Volume(e.facts, fk) == accepted
      && e == db.(facts := db.facts[fk := e.facts[fk]], pace := e.pace, snaps := e.snaps, spikes := e.spikes)
  {
    hide CascadeFrom;
    CascadeTouches(CorrectFact(db, fk, sc, accepted).value, fk.period.site, fk.period.number, now);
  }
}

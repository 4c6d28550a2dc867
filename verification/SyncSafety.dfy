/** What the sync queue guarantees over whole runs: no lost update, one write per row, no
    conflict forgotten, and how often one operation can take effect. */
module SyncSafety {
  import opened Common
  import opened Store
  import opened PeriodSpec
  import opened DisputeSpec
  import opened SyncSpec
  import opened SyncBatch
  import opened Runs
  import opened Lifecycle

  // ---- the version check ----

  /** The step enters the SC figure on the fact after finding its version to be L. */
  predicate CheckedEntry(db: Db, s: Step, fk: FactKey, L: int, sc: real) {
    var x := EffectOf(db, s.op, s.now);
    x.Entered? && FactKey(x.k, x.item) == fk && x.opts.expectedVersion == Some(L) && x.sc == sc
  }

  lemma ApplyStatusIs(d: Db, org: int, key: OpKey, raw: RawOp, now: Time)
    requires IsValid(raw) && key in d.queue
    ensures var p := PayloadOf(raw);
      var r := UpsertFact(d, p.period, p.item, p.sc, UpsertOpts(None, p.workAccessible, raw.lastKnownVersion), now);
      var s := ApplyOperation(d, org, key, raw, now);
      NewlySaid(s, Applied) <==>
      p.period in d.periods && OrgOf(d, p.period) == Some(org)
        && PeriodLabel(d, d.periods[p.period]) == raw.boqVersion.value && r.Ok?
  {
    hide UpsertFact, PeriodLabel, OrgOf, IsValid, PayloadOf;
  }

  /** An operation is freshly answered as applied exactly when it enters its figure on the
      version the device had seen. */
  lemma AppliedIffChecked(db: Db, org: int, device: string, raw: RawOp, now: Time)
    requires IsValid(raw)
    ensures NewlySaid(SubmitOne(db, org, device, raw, now), Applied)
      <==> CheckedEntry(db, Step(DoSync(org, device, raw), now), FactOf(raw), raw.lastKnownVersion.value,
        PayloadOf(raw).sc)
  {
    if KeyOf(device, raw) !in db.queue {
      var queue := db.queue[KeyOf(device, raw) := NewRow(raw, now)];
      var d := db.(queue := queue);
      var p := PayloadOf(raw);
      var opts := UpsertOpts(None, p.workAccessible, raw.lastKnownVersion);
      UpsertIgnoresQueue(db, queue, p.period, p.item, p.sc, opts, now);
      ApplyStatusIs(d, org, KeyOf(device, raw), raw, now);
      assert p.period in db.periods ==> PeriodLabel(d, d.periods[p.period]) == PeriodLabel(db, db.periods[p.period]);
      assert UpsertFact(d, p.period, p.item, p.sc, opts, now).Ok?
        <==> UpsertError(d, p.period, p.item, p.sc, opts, now).None? by {
        hide UpsertError, UpsertedFact;
      }
      hide UpsertError, UpsertFact, PeriodLabel, ApplyOperation;
    }
  }

  /** An entry on version L overwrites exactly the SC figure that version L held, and no other
      fact: what the device had seen, and nothing entered since. */
  lemma CheckedEntryOverwrites(db: Db, s: Step, fk: FactKey, L: int, sc: real)
    requires CheckedEntry(db, s, fk, L, sc)
    ensures var e := Apply(db, s.op, s.now);
      && FactVersion(db.facts, fk) == L
      && fk in e.facts && e.facts == db.facts[fk := e.facts[fk]]
      && e.facts[fk].sc == Some(sc) && e.facts[fk].gp == GpOf(db.facts, fk)
      && e.facts[fk].accepted == (if GpOf(db.facts, fk) == Some(sc) then Some(sc) else None)
  {
    EffectEnters(db, s.op, s.now);
    var x := EffectOf(db, s.op, s.now);
    assert IsEntryOp(s.op);
    EntryStep(db, s.op, s.now);
    hide ApplyEntry, EffectOf;
    assert FactVersion(db.facts, fk) == L;
    var f := UpsertedFact(db.facts, fk, sc, x.opts.spikeResponse);
    assert WithEffect(db, x, s.now).facts == db.facts[fk := f];
    assert f.sc == Some(sc) && f.gp == GpOf(db.facts, fk)
      && f.accepted == (if GpOf(db.facts, fk) == Some(sc) then Some(sc) else None);
    hide WithEffect, UpsertedFact, UpsertError;
  }

  /** A fresh conflict is answered exactly on a version other than the one seen; it changes no
      fact and reports the current version and figure. */
  lemma ConflictReports(db: Db, org: int, device: string, raw: RawOp, now: Time)
    requires IsValid(raw) && NewlySaid(SubmitOne(db, org, device, raw, now), Conflict)
    ensures var s := SubmitOne(db, org, device, raw, now);
      && FactVersion(db.facts, FactOf(raw)) != raw.lastKnownVersion.value
      && s.answer.value.reason == Some(Because(VersionConflict(ScOf(db.facts, FactOf(raw)),
        FactVersion(db.facts, FactOf(raw)))))
      && s.db == db.(queue := s.db.queue)
  {
    var queue := db.queue[KeyOf(device, raw) := NewRow(raw, now)];
    var d := db.(queue := queue);
    var p := PayloadOf(raw);
    var r := UpsertFact(d, p.period, p.item, p.sc, UpsertOpts(None, p.workAccessible, raw.lastKnownVersion), now);
    assert r.Fail? && r.error.VersionConflict? ==>
      FactVersion(d.facts, FactOf(raw)) != raw.lastKnownVersion.value
      && r.error == VersionConflict(ScOf(d.facts, FactOf(raw)),
        FactVersion(d.facts, FactOf(raw))) by { hide UpsertedFact; }
    hide UpsertFact, PeriodLabel, OrgOf, FactVersion, ScOf;
  }

  // ---- queue rows ----

  /** A row stays as it is, or a conflict is resolved; only settled rows are archived. */
  ghost predicate RowMoves(op: Op, now: Time, key: OpKey, row: QueueRow, after: map<OpKey, QueueRow>) {
    || (key in after && after[key] == row)
    || (op.DoResolve? && op.key == key && row.status == Conflict && key in after
        && (after[key] == row.(status := Applied) || after[key] == row.(status := Escalated)))
    || (op.DoArchive? && Archivable(row, now) && key !in after)
  }

  /** A new row comes from a valid operation or a photo under its key. */
  ghost predicate RowBorn(op: Op, now: Time, key: OpKey, row: QueueRow) {
    || (op.DoSync? && IsValid(op.raw) && KeyOf(op.device, op.raw) == key
        && row == NewRow(op.raw, now).(status := row.status))
    || (op.DoPhoto? && op.key == key && row == QueueRow(UploadPhoto, Applied, now))
  }

  ghost predicate QueueMoves(db: Db, op: Op, now: Time, after: map<OpKey, QueueRow>) {
    && (forall key | key in db.queue :: RowMoves(op, now, key, db.queue[key], after))
    && (forall key | key in after && key !in db.queue :: RowBorn(op, now, key, after[key]))
  }

  lemma SyncMoves(db: Db, org: int, device: string, raw: RawOp, now: Time)
    ensures QueueMoves(db, DoSync(org, device, raw), now, SubmitOne(db, org, device, raw, now).db.queue)
  {
    if IsValid(raw) && KeyOf(device, raw) !in db.queue {
      var key := KeyOf(device, raw);
      var d := db.(queue := db.queue[key := NewRow(raw, now)]);
      var status := ApplySetsStatus(d, org, key, raw, now);
      assert d.queue[key] == NewRow(raw, now);
      hide ApplyOperation;
    }
  }

  lemma ResolveMoves(db: Db, org: int, key: OpKey, chosen: real, now: Time)
    ensures QueueMoves(db, DoResolve(org, key, chosen), now, ResolveConflict(db, org, key, chosen, now).db.queue)
  {
    if key in db.queue && db.queue[key].kind.SubmitFact? {
      var p := db.queue[key].kind.payload;
      var r := UpsertFact(db, p.period, p.item, chosen, NO_OPTS, now);
      assert r.Ok? ==> r.value.queue == db.queue by { hide UpsertError, UpsertedFact; }
      hide UpsertFact, OrgOf;
    }
  }

  lemma QueueOpMoves(db: Db, op: Op, now: Time)
    requires IsQueueOp(op)
    ensures QueueMoves(db, op, now, ApplyQueue(db, op, now).queue)
  {
    hide OrgOf;
  }

  lemma SameQueue(db: Db, op: Op, now: Time)
    requires !op.DoSync? && !op.DoResolve? && !IsQueueOp(op)
    ensures QueueMoves(db, op, now, Apply(db, op, now).queue)
  {
    Footprint(db, op, now);
    hide Apply;
  }

  lemma QueueStep(db: Db, op: Op, now: Time)
    ensures QueueMoves(db, op, now, Apply(db, op, now).queue)
  {
    hide QueueMoves;
    if IsQueueOp(op) { QueueOpMoves(db, op, now); hide ApplyQueue; }
    else {
      match op
      case DoSync(org, device, raw) => SyncMoves(db, org, device, raw, now); hide SubmitOne;
      case DoResolve(org, key, chosen) => ResolveMoves(db, org, key, chosen, now); hide ResolveConflict;
      case _ => SameQueue(db, op, now); hide Apply;
    }
  }

  /** A conflict waits for its resolution: over any run without one it is neither changed nor
      archived. */
  lemma {:induction false} ConflictWaits(db: Db, steps: seq<Step>, key: OpKey)
    requires key in db.queue && db.queue[key].status == Conflict
    requires forall s | s in steps :: !(s.op.DoResolve? && s.op.key == key)
    ensures var e := Run(db, steps); key in e.queue && e.queue[key] == db.queue[key]
    decreases |steps|
  {
    if steps != [] {
      QueueStep(db, steps[0].op, steps[0].now);
      hide Apply;
      assert steps[0] in steps && forall s | s in steps[1..] :: s in steps;
      ConflictWaits(Apply(db, steps[0].op, steps[0].now), steps[1..], key);
    }
  }

  // ---- one fact write per row ----

  /** The step enters an SC figure on behalf of the row under the key. */
  predicate WritesFor(db: Db, s: Step, key: OpKey) {
    && EffectOf(db, s.op, s.now).Entered?
    && ((s.op.DoSync? && IsValid(s.op.raw) && KeyOf(s.op.device, s.op.raw) == key)
      || (s.op.DoResolve? && s.op.key == key))
  }

  lemma WriteNeedsConflictOrNoRow(db: Db, s: Step, key: OpKey)
    requires WritesFor(db, s, key)
    ensures key in db.queue ==> db.queue[key].status == Conflict
  {
    hide UpsertError, OrgOf, PeriodLabel;
  }

  lemma ResolveWrites(db: Db, org: int, key: OpKey, chosen: real, now: Time)
    requires EffectOfResolve(db, org, key, chosen, now).Entered?
    ensures var q := ResolveConflict(db, org, key, chosen, now).db.queue; key in q && q[key].status == Applied
  {
    var p := db.queue[key].kind.payload;
    var r := UpsertFact(db, p.period, p.item, chosen, NO_OPTS, now);
    assert r.Ok? && r.value.queue == db.queue by { hide UpsertedFact; }
    hide UpsertFact, UpsertError;
  }

  lemma SyncWrites(db: Db, org: int, device: string, raw: RawOp, now: Time)
    requires EffectOfSync(db, org, device, raw, now).Entered?
    ensures var q := SubmitOne(db, org, device, raw, now).db.queue;
      KeyOf(device, raw) in q && q[KeyOf(device, raw)].status == Applied
  {
    AppliedIffChecked(db, org, device, raw, now);
    SubmitRows(db, org, device, raw, now);
    hide SubmitOne, UpsertError, OrgOf, PeriodLabel;
  }

  lemma WriteSettles(db: Db, s: Step, key: OpKey)
    requires WritesFor(db, s, key)
    ensures var q := Apply(db, s.op, s.now).queue; key in q && q[key].status == Applied
  {
    match s.op
    case DoSync(org, device, raw) => SyncWrites(db, org, device, raw, s.now); hide SubmitOne, EffectOfSync;
    case DoResolve(org, k, chosen) => ResolveWrites(db, org, k, chosen, s.now); hide ResolveConflict, EffectOfResolve;
    case _ =>
  }

  /** The row under the key is there in every state of the run. */
  ghost predicate Kept(db: Db, steps: seq<Step>, key: OpKey)
    decreases |steps|
  {
    key in db.queue && (steps == [] || Kept(Apply(db, steps[0].op, steps[0].now), steps[1..], key))
  }

  lemma {:induction false} SettledStays(db: Db, steps: seq<Step>, key: OpKey)
    requires Kept(db, steps, key) && db.queue[key].status != Conflict
    ensures var e := Run(db, steps); key in e.queue && e.queue[key] == db.queue[key]
    decreases |steps|
  {
    if steps != [] {
      QueueStep(db, steps[0].op, steps[0].now);
      hide Apply;
      SettledStays(Apply(db, steps[0].op, steps[0].now), steps[1..], key);
    }
  }

  /** Each row brings at most one write of a fact: after one, no later step writes for its key
      while the row is there. */
  lemma OneWritePerRow(db: Db, s: Step, mid: seq<Step>, t: Step, key: OpKey)
    requires WritesFor(db, s, key) && Kept(Apply(db, s.op, s.now), mid, key)
    ensures !WritesFor(Run(Apply(db, s.op, s.now), mid), t, key)
  {
    var d := Apply(db, s.op, s.now);
    WriteSettles(db, s, key);
    hide Apply, WritesFor, Run;
    SettledStays(d, mid, key);
    if WritesFor(Run(d, mid), t, key) { WriteNeedsConflictOrNoRow(Run(d, mid), t, key); }
  }

  // ---- how often one operation takes effect ----

  /** The entry changes something that the version of the fact counts. */
  predicate Changes(facts: map<FactKey, Fact>, fk: FactKey, sc: real) {
    fk in facts ==>
      facts[fk].sc != Some(sc) || facts[fk].discType != (if facts[fk].gp == Some(sc) then None else Some(1))
  }

  lemma EntryVersion(db: Db, s: Step, fk: FactKey, L: int, sc: real)
    requires CheckedEntry(db, s, fk, L, sc)
    ensures var e := Apply(db, s.op, s.now);
      && fk in e.facts && e.facts[fk].version == L + (if Changes(db.facts, fk, sc) then 1 else 0)
        && e.facts[fk].sc == Some(sc)
  {
    EffectEnters(db, s.op, s.now);
    var x := EffectOf(db, s.op, s.now);
    EntryStep(db, s.op, s.now);
    hide ApplyEntry, EffectOf;
    assert FactVersion(db.facts, fk) == L;
    var f := UpsertedFact(db.facts, fk, sc, x.opts.spikeResponse);
    assert WithEffect(db, x, s.now).facts == db.facts[fk := f];
    assert f.version == L + (if Changes(db.facts, fk, sc) then 1 else 0) && f.sc == Some(sc);
    hide WithEffect, UpsertedFact, UpsertError;
  }

  lemma {:induction false} FactRun(db: Db, steps: seq<Step>, fk: FactKey)
    requires Base(db) && fk in db.facts
    ensures var e := Run(db, steps); Base(e) && fk in e.facts && NotOlder(db.facts[fk], e.facts[fk])
    decreases |steps|
  {
    hide Apply, Base;
    if steps != [] {
      BaseStep(db, steps[0].op, steps[0].now);
      FactsStep(db, steps[0].op, steps[0].now);
      hide FactOk;
      FactRun(Apply(db, steps[0].op, steps[0].now), steps[1..], fk);
    }
  }

  /** At most once for ever: over any run, with retries, resolutions, other devices and archival
      deletes in between, an operation that changed the fact is never applied again; if the same
      figure passes the check for the same version twice, the first entry had changed nothing
      and the second finds the SC figure it writes already there. */
  lemma AtMostOneChange(db: Db, s: Step, mid: seq<Step>, t: Step, fk: FactKey, L: int, sc: real)
    requires Base(db) && CheckedEntry(db, s, fk, L, sc)
    requires CheckedEntry(Run(Apply(db, s.op, s.now), mid), t, fk, L, sc)
    ensures !Changes(db.facts, fk, sc)
    ensures ScOf(Run(Apply(db, s.op, s.now), mid).facts, fk) == Some(sc)
  {
    var d := Apply(db, s.op, s.now);
    var e := Run(d, mid);
    EntryVersion(db, s, fk, L, sc);
    BaseStep(db, s.op, s.now);
    hide Apply, Base, Run, CheckedEntry;
    FactRun(d, mid, fk);
    CheckedVersion(e, t, fk, L, sc);
  }

  lemma CheckedVersion(db: Db, s: Step, fk: FactKey, L: int, sc: real)
    requires CheckedEntry(db, s, fk, L, sc)
    ensures FactVersion(db.facts, fk) == L
  {
    EffectEnters(db, s.op, s.now);
    hide EffectOf;
  }

  lemma NoVersionNoFact(db: Db, fk: FactKey)
    requires Base(db) && FactVersion(db.facts, fk) == 0
    ensures fk !in db.facts
  {
    hide Numbered, PeriodsRefer, DisputesOk;
  }

  /** No lost update: whatever happened since the device read the fact, an operation that is
      applied overwrites the very figure the device had seen. */
  lemma NoLostUpdate(seen: Db, steps: seq<Step>, s: Step, fk: FactKey, L: int, sc: real)
    requires Base(seen) && FactVersion(seen.facts, fk) == L
    requires CheckedEntry(Run(seen, steps), s, fk, L, sc)
    ensures ScOf(Run(seen, steps).facts, fk) == ScOf(seen.facts, fk)
  {
    var db := Run(seen, steps);
    BaseRun(seen, steps);
    CheckedVersion(db, s, fk, L, sc);
    hide Run, CheckedEntry, Base;
    if fk in seen.facts {
      FactRun(seen, steps, fk);
    } else {
      NoVersionNoFact(db, fk);
    }
  }

  /** Right after an entry the same operation would pass the version check again exactly when
      the entry changed nothing. */
  lemma ReplayPassesCheckIff(db: Db, s: Step, fk: FactKey, L: int, sc: real)
    requires CheckedEntry(db, s, fk, L, sc)
    ensures FactVersion(Apply(db, s.op, s.now).facts, fk) == L <==> !Changes(db.facts, fk, sc)
  {
    EntryVersion(db, s, fk, L, sc);
    hide Apply, CheckedEntry;
  }

  // ---- the same over the states of one run ----

  lemma BaseAt(sites: map<int, Site>, steps: seq<Step>, i: nat)
    requires i <= |steps|
    ensures Base(Before(EmptyDb(sites), steps, i))
  {
    hide Base, Run;
    EmptyBase(sites);
    BaseRun(EmptyDb(sites), steps[..i]);
  }

  /** At most once for ever: when in one run the same figure passes the check for the same
      version of a fact twice, at whatever distance and with whatever happened to the queue rows
      in between, the first entry had changed nothing and the second finds its figure stored. */
  lemma AtMostOnceForEver(sites: map<int, Site>, steps: seq<Step>, i: nat, j: nat, fk: FactKey, L: int, sc: real)
    requires i < j < |steps|
    requires CheckedEntry(Before(EmptyDb(sites), steps, i), steps[i], fk, L, sc)
    requires CheckedEntry(Before(EmptyDb(sites), steps, j), steps[j], fk, L, sc)
    ensures !Changes(Before(EmptyDb(sites), steps, i).facts, fk, sc)
    ensures ScOf(Before(EmptyDb(sites), steps, j).facts, fk) == Some(sc)
  {
    BaseAt(sites, steps, i);
    BeforeLater(EmptyDb(sites), steps, i, j);
    hide Before, Base, Apply, Run, CheckedEntry, Changes, ScOf;
    AtMostOneChange(Before(EmptyDb(sites), steps, i), steps[i], steps[i + 1..j], steps[j], fk, L, sc);
  }

  /** No lost update: an operation applied at step j on the version that the fact had at step i
      overwrites the very figure that the fact had at step i. */
  lemma AppliedOverwritesWhatWasSeen(sites: map<int, Site>, steps: seq<Step>, i: nat, j: nat, fk: FactKey, L: int,
      sc: real)
    requires i <= j < |steps| && FactVersion(Before(EmptyDb(sites), steps, i).facts, fk) == L
    requires CheckedEntry(Before(EmptyDb(sites), steps, j), steps[j], fk, L, sc)
    ensures ScOf(Before(EmptyDb(sites), steps, j).facts, fk) == ScOf(Before(EmptyDb(sites), steps, i).facts, fk)
  {
    BaseAt(sites, steps, i);
    BeforeLater(EmptyDb(sites), steps, i, j);
    hide Before, Base, Apply, Run, CheckedEntry, FactVersion, ScOf;
    NoLostUpdate(Before(EmptyDb(sites), steps, i), steps[i..j], steps[j], fk, L, sc);
  }

  lemma {:induction false} KeptBetween(db: Db, steps: seq<Step>, i: nat, j: nat, key: OpKey)
    requires i <= j <= |steps| && forall m: nat | i <= m <= j :: key in Before(db, steps, m).queue
    ensures Kept(Before(db, steps, i), steps[i..j], key)
    decreases j - i
  {
    hide Before, Apply, Run;
    assert key in Before(db, steps, i).queue;
    if i < j {
      BeforeLater(db, steps, i, j);
      assert steps[i..j][0] == steps[i] && steps[i..j][1..] == steps[i + 1..j];
      KeptBetween(db, steps, i + 1, j, key);
    }
  }

  /** One write per row: two steps of a run enter a figure for the same key only if the row was
      archived in between. */
  lemma OneWriteWhileKept(sites: map<int, Site>, steps: seq<Step>, i: nat, j: nat, key: OpKey)
    requires i < j < |steps|
    requires WritesFor(Before(EmptyDb(sites), steps, i), steps[i], key)
    requires forall m: nat | i < m <= j :: key in Before(EmptyDb(sites), steps, m).queue
    ensures !WritesFor(Before(EmptyDb(sites), steps, j), steps[j], key)
  {
    hide Before, Apply, Run, WritesFor, Kept;
    BeforeLater(EmptyDb(sites), steps, i, j);
    KeptBetween(EmptyDb(sites), steps, i + 1, j, key);
    OneWritePerRow(Before(EmptyDb(sites), steps, i), steps[i], steps[i + 1..j], steps[j], key);
  }
}

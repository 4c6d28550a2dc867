/** The operations on periods and period facts, each as one atomic step on the store. */
module PeriodSpec {
  import opened Common
  import opened Store
  import opened Derived

  const GP_TOKEN_EXPIRES: Time := 14 * DAY

  const PAUSE_REASONS: seq<string> := [
    "Праздничные дни",
    "Ожидание поставки материалов",
    "Технологический перерыв",
    "Неблагоприятные погодные условия",
    "Ожидание разрешительной документации",
    "Иное"]

  // ---- openPeriod ----

  predicate HasApprovedReport(db: Db, site: int) {
    exists r | r in db.reports :: r.site == site && r.status == Approved
  }

  /** lockFree is false when the lock on the object could not be taken in five seconds. */
  function OpenPeriod(db: Db, site: int, plannedPause: bool, pauseReason: Option<string>, lockFree: bool,
      now: Time): Result<Db> {
    if plannedPause && (pauseReason.None? || pauseReason.value !in PAUSE_REASONS) then Fail(InvalidPauseReason)
    else if !lockFree then Fail(PeriodLockTimeout)
    else if site !in db.sites then Fail(RowNotFound)
    else if !HasApprovedReport(db, site) then Fail(ZeroReportNotApproved)
    else if HasOpenPeriod(db.periods, site) then Fail(PeriodAlreadyOpen)
    else
      var v := ActiveVersion(db.versions, site);
      if v.None? then Fail(RowNotFound)
      else
        var k := PeriodKey(site, LastNumber(db.periods, site) + 1);
        var p := Period(v.value, Open, plannedPause, Some(now + GP_TOKEN_EXPIRES), None);
        Ok(db.(periods := db.periods[k := p]))
  }

  // ---- submitGp ----

  /** One row of the contractor's form; the figure may be missing, and extraField
      is set when the row carries a protected column. */
  datatype GpItem = GpItem(item: int, gp: Option<real>, note: Option<string>, extraField: bool)

  /** What the store checks on every write of a fact. */
  predicate FactAllowed(db: Db, k: PeriodKey, item: int, volume: Option<real>) {
    HasItem(PeriodItems(db, k), item) && (volume.Some? ==> volume.value >= 0.0)
  }

  const NEW_FACT := Fact(None, None, None, None, None, None, None, 1)

  /** The version trigger: an update raises the version exactly when the SC volume, the
      discrepancy type or the contractor's note becomes distinct. */
  function Bumped(before: Fact, after: Fact): Fact {
    if after.sc != before.sc || after.discType != before.discType || after.gpNote != before.gpNote
    then after.(version := before.version + 1)
    else after.(version := before.version)
  }

  function WithGp(facts: map<FactKey, Fact>, k: PeriodKey, x: GpItem): map<FactKey, Fact> {
    var fk := FactKey(k, x.item);
    facts[fk := if fk in facts then Bumped(facts[fk], facts[fk].(gp := x.gp, gpNote := x.note))
                else NEW_FACT.(gp := x.gp, gpNote := x.note)]
  }

  function WithGpItems(facts: map<FactKey, Fact>, k: PeriodKey, xs: seq<GpItem>): map<FactKey, Fact>
    decreases |xs|
  {
    if xs == [] then facts else WithGpItems(WithGp(facts, k, xs[0]), k, xs[1..])
  }

  function TokenError(p: Period, now: Time): Option<Error> {
    if p.tokenExpiresAt.None? || p.tokenExpiresAt.value < now then Some(GpTokenExpired)
    else if p.gpSubmittedAt.Some? then Some(GpAlreadySubmitted)
    else None
  }

  /** The token names the period it was issued for. */
  function SubmitGp(db: Db, k: PeriodKey, xs: seq<GpItem>, now: Time): Result<Db> {
    if k !in db.periods then Fail(GpTokenNotFound)
    else
      var p := db.periods[k];
      if TokenError(p, now).Some? then Fail(TokenError(p, now).value)
      else if p.status != Open then Fail(PeriodWrongStatus)
      else if exists x | x in xs :: x.extraField then Fail(ProtectedField)
      else if exists x | x in xs :: !FactAllowed(db, k, x.item, x.gp) then Fail(ConstraintViolation)
      else Ok(db.(facts := WithGpItems(db.facts, k, xs),
                  periods := db.periods[k := p.(gpSubmittedAt := Some(now), status := GpSubmitted)]))
  }

  // ---- upsertPeriodFact ----

  datatype UpsertOpts = UpsertOpts(spikeResponse: Option<SpikeResponse>, workAccessible: Option<bool>,
                                   expectedVersion: Option<int>)

  const NO_OPTS := UpsertOpts(None, None, None)

  /** The contractor's deadline passed without a submission. */
  predicate NoTemplateInput(p: Period, now: Time) {
    p.status == Open && p.tokenExpiresAt.Some? && p.tokenExpiresAt.value < now
  }

  function FactVersion(facts: map<FactKey, Fact>, fk: FactKey): int { if fk in facts then facts[fk].version else 0 }

  function GpOf(facts: map<FactKey, Fact>, fk: FactKey): Option<real> { if fk in facts then facts[fk].gp else None }

  function ScOf(facts: map<FactKey, Fact>, fk: FactKey): Option<real> { if fk in facts then facts[fk].sc else None }

  /** The fact as an SC entry leaves it. */
  function WithSc(f: Fact, sc: real, response: Option<SpikeResponse>): Fact {
    if f.gp == Some(sc) then
      f.(sc := Some(sc), discType := None, discStatus := Some(FactConfirmed), accepted := Some(sc),
        spikeResponse := response)
    else
      f.(sc := Some(sc), discType := Some(1), discStatus := Some(FactOpen), accepted := None, spikeResponse := response)
  }

  function UpsertError(db: Db, k: PeriodKey, item: int, sc: real, opts: UpsertOpts, now: Time): Option<Error> {
    var fk := FactKey(k, item);
    if k !in db.periods then Some(RowNotFound)
    else
      var p := db.periods[k];
      if ClosedStatus(p.status) then Some(PeriodAlreadyClosed)
      else if !NoTemplateInput(p, now) && p.status != GpSubmitted && p.status != Verification
        then Some(PeriodWrongStatus)
      else if opts.workAccessible == Some(false) && (k, Some(item)) !in db.photos then Some(Type2PhotoRequired)
      else if opts.expectedVersion.Some? && FactVersion(db.facts, fk) != opts.expectedVersion.value then
        Some(VersionConflict(ScOf(db.facts, fk), FactVersion(db.facts, fk)))
      else if !FactAllowed(db, k, item, Some(sc)) then Some(ConstraintViolation)
      else None
  }

  function UpsertedFact(facts: map<FactKey, Fact>, fk: FactKey, sc: real, response: Option<SpikeResponse>): Fact {
    if fk in facts then Bumped(facts[fk], WithSc(facts[fk], sc, response)) else WithSc(NEW_FACT, sc, response)
  }

  function UpsertFact(db: Db, k: PeriodKey, item: int, sc: real, opts: UpsertOpts, now: Time): Result<Db> {
    var e := UpsertError(db, k, item, sc, opts, now);
    if e.Some? then Fail(e.value)
    else
      var fk := FactKey(k, item);
      var p := db.periods[k];
      Ok(db.(facts := db.facts[fk := UpsertedFact(db.facts, fk, sc, opts.spikeResponse)],
             periods := if p.status == GpSubmitted then db.periods[k := p.(status := Verification)] else db.periods))
  }

  // ---- closePeriod ----

  predicate HasOpenDiscrepancy(db: Db, k: PeriodKey) {
    exists d | d in db.discrepancies :: d.fact.period == k && d.status == DisputeOpen
  }

  function CloseError(db: Db, k: PeriodKey): Option<Error> {
    if k !in db.periods then Some(RowNotFound)
    else if ClosedStatus(db.periods[k].status) then Some(PeriodAlreadyClosed)
    else if db.periods[k].status != Verification then Some(PeriodWrongStatus)
    else if HasOpenDiscrepancy(db, k) then Some(OpenDiscrepanciesExist)
    else if k in db.snaps then Some(ConstraintViolation)
    else None
  }

  function MarkedClosed(db: Db, k: PeriodKey): Db
    requires k in db.periods
  {
    db.(periods := db.periods[k := db.periods[k].(status := Closed)])
  }

  function ClosePeriod(db: Db, k: PeriodKey, now: Time): Result<Db> {
    var e := CloseError(db, k);
    if e.Some? then Fail(e.value) else Ok(Recalculated(MarkedClosed(db, k), k, now))
  }

  // ---- adminCorrectFact ----

  /** The SQL correction alone, before its cascade. */
  function CorrectFact(db: Db, fk: FactKey, sc: real, accepted: real): Result<Db> {
    if fk !in db.facts then Fail(RowNotFound)
    else if sc < 0.0 || accepted < 0.0 then Fail(ConstraintViolation)
    else
      var f := db.facts[fk];
      Ok(db.(facts := db.facts[fk := Bumped(f, f.(sc := Some(sc), accepted := Some(accepted)))]))
  }

  function AdminCorrect(db: Db, fk: FactKey, sc: real, accepted: real, now: Time): Result<Db> {
    var r := CorrectFact(db, fk, sc, accepted);
    if r.Fail? then r else Ok(CascadeFrom(r.value, fk.period.site, fk.period.number, now))
  }

  // ---- what the parts of an entry mean ----

  /** An SC entry raises the fact's version exactly when the fact is new or its SC volume or
      discrepancy type changes; it never lowers it. */
  lemma UpsertVersion(db: Db, k: PeriodKey, item: int, sc: real, opts: UpsertOpts, now: Time)
    requires UpsertFact(db, k, item, sc, opts, now).Ok?
    ensures var fk, e := FactKey(k, item), UpsertFact(db, k, item, sc, opts, now).value;
      && (opts.expectedVersion.Some? ==> FactVersion(db.facts, fk) == opts.expectedVersion.value)
      && FactVersion(e.facts, fk) == FactVersion(db.facts, fk) +
           (if fk !in db.facts || db.facts[fk].sc != Some(sc)
             || db.facts[fk].discType != (if db.facts[fk].gp == Some(sc) then None else Some(1)) then 1 else 0)
  {
  }
}

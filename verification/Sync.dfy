/** The offline synchronization protocol, one operation of a batch as one step. */
module SyncSpec {
  import opened Common
  import opened Store
  import opened PeriodSpec

  // ---- what a device sends ----

  /** A field is None where the request does not carry a value of the expected type. */
  datatype RawPayload = RawPayload(period: Option<PeriodKey>, item: Option<int>, sc: Option<real>,
      workAccessible: Option<bool>)
  datatype RawOp = RawOp(clientOpId: Option<string>, operation: Option<string>, boqVersion: Option<string>,
                         lastKnownVersion: Option<int>, clientTimestamp: Option<Time>, payload: Option<RawPayload>)

  /** The reason for which an operation is not even queued. */
  function Validate(raw: RawOp): Option<string> {
    if raw.clientOpId.None? || |raw.clientOpId.value| == 0 || |raw.clientOpId.value| > 64
      then Some("INVALID_CLIENT_OP_ID")
    else if raw.operation != Some("submit_fact") then Some("UNSUPPORTED_OPERATION")
    else if raw.boqVersion.None? || |raw.boqVersion.value| == 0 then Some("INVALID_BOQ_VERSION")
    else if raw.lastKnownVersion.None? || raw.lastKnownVersion.value < 0 then Some("INVALID_LAST_KNOWN_VERSION")
    else if raw.clientTimestamp.None? then Some("INVALID_CLIENT_TIMESTAMP")
    else if raw.payload.None? || raw.payload.value.period.None? || raw.payload.value.item.None?
      || raw.payload.value.sc.None? then
      Some("INVALID_PAYLOAD")
    else None
  }

  predicate IsValid(raw: RawOp) { Validate(raw).None? }

  function KeyOf(device: string, raw: RawOp): OpKey
    requires IsValid(raw)
  {
    OpKey(device, raw.clientOpId.value)
  }

  function PayloadOf(raw: RawOp): Payload
    requires IsValid(raw)
  {
    var p := raw.payload.value;
    Payload(p.period.value, p.item.value, p.sc.value, p.workAccessible)
  }

  function FactOf(raw: RawOp): FactKey
    requires IsValid(raw)
  {
    FactKey(PayloadOf(raw).period, PayloadOf(raw).item)
  }

  // ---- what the service answers ----

  datatype AnswerStatus = InRow(row: RowStatus) | Skipped
  datatype Reason = Malformed(code: string) | Because(error: Error)
  datatype Answer = Answer(clientOpId: Option<string>, status: AnswerStatus, reason: Option<Reason>, duplicate: bool)

  /** The new state and the answer; no answer when an exception other than an HTTP error
      ended the request, which leaves the row pending. */
  datatype Submission = Submission(db: Db, answer: Option<Answer>)

  predicate NewlySaid(s: Submission, status: RowStatus) {
    s.answer.Some? && s.answer.value.status == InRow(status) && !s.answer.value.duplicate
  }

  // ---- one operation ----

  function Digits(n: nat): string {
    if n < 10 then ["0123456789"[n]] else Digits(n / 10) + ["0123456789"[n % 10]]
  }

  /** The text of a version number counted in tenths. */
  function VersionLabel(tenths: nat): string { Digits(tenths / 10) + "." + Digits(tenths % 10) }

  function PeriodLabel(db: Db, p: Period): string {
    if p.version < |db.versions| then VersionLabel(db.versions[p.version].number) else ""
  }

  function OrgOf(db: Db, k: PeriodKey): Option<int> { if k.site in db.sites then Some(db.sites[k.site].org) else None }

  function WithStatus(db: Db, key: OpKey, status: RowStatus): Db {
    if key in db.queue then db.(queue := db.queue[key := db.queue[key].(status := status)]) else db
  }

  /** A conflict in a closed period: a type-3 discrepancy on the fact, if it exists. */
  function Escalate(db: Db, key: OpKey, fk: FactKey, now: Time): Db {
    WithStatus(
      if fk in db.facts then db.(discrepancies := db.discrepancies + [Discrepancy(fk, 3, DisputeOpen, None, now)])
        else db,
      key, Escalated)
  }

  function Said(raw: RawOp, s: RowStatus, r: Option<Reason>): Option<Answer> {
    Some(Answer(raw.clientOpId, InRow(s), r, false))
  }

  function ApplyOperation(db: Db, org: int, key: OpKey, raw: RawOp, now: Time): Submission
    requires IsValid(raw)
  {
    var p := PayloadOf(raw);
    if p.period !in db.periods || OrgOf(db, p.period) != Some(org) then
      Submission(WithStatus(db, key, Rejected), Said(raw, Rejected, Some(Because(PeriodNotFound))))
    else if PeriodLabel(db, db.periods[p.period]) != raw.boqVersion.value then
      Submission(WithStatus(db, key, Rejected), Said(raw, Rejected, Some(Because(BoqVersionMismatch))))
    else
      var r := UpsertFact(db, p.period, p.item, p.sc, UpsertOpts(None, p.workAccessible, raw.lastKnownVersion), now);
      match r
      case Ok(d) => Submission(WithStatus(d, key, Applied), Said(raw, Applied, None))
      case Fail(VersionConflict(sc, v)) =>
        Submission(WithStatus(db, key, Conflict), Said(raw, Conflict, Some(Because(r.error))))
      case Fail(PeriodAlreadyClosed) => Submission(Escalate(db, key, FactOf(raw), now), Said(raw, Escalated, None))
      case Fail(e) =>
        if IsHttp(e) then Submission(WithStatus(db, key, Rejected), Said(raw, Rejected, Some(Because(e))))
        else Submission(db, None)
  }

  function NewRow(raw: RawOp, now: Time): QueueRow
    requires IsValid(raw)
  {
    QueueRow(SubmitFact(PayloadOf(raw), raw.lastKnownVersion.value), Pending, now)
  }

  function SubmitOne(db: Db, org: int, device: string, raw: RawOp, now: Time): Submission {
    if !IsValid(raw) then
      Submission(db, Some(Answer(raw.clientOpId, InRow(Rejected), Some(Malformed(Validate(raw).value)), false)))
    else
      var key := KeyOf(device, raw);
      if key in db.queue then
        Submission(db, Some(Answer(raw.clientOpId, InRow(db.queue[key].status), None, true)))
      else ApplyOperation(db.(queue := db.queue[key := NewRow(raw, now)]), org, key, raw, now)
  }

  // ---- a batch ----

  datatype BatchResult = BatchResult(db: Db, answers: seq<Answer>, crashed: bool)

  /** True when the rest of the batch is not processed. */
  predicate Stops(a: Answer) { !a.duplicate && (a.status == InRow(Conflict) || a.status == InRow(Escalated)) }

  function Batch(db: Db, org: int, device: string, ops: seq<RawOp>, stopped: bool, now: Time): BatchResult
    decreases |ops|
  {
    if ops == [] then BatchResult(db, [], false)
    else if stopped then
      var rest := Batch(db, org, device, ops[1..], true, now);
      BatchResult(rest.db, [Answer(ops[0].clientOpId, Skipped, None, false)] + rest.answers, rest.crashed)
    else
      var s := SubmitOne(db, org, device, ops[0], now);
      if s.answer.None? then BatchResult(s.db, [], true)
      else
        var rest := Batch(s.db, org, device, ops[1..], Stops(s.answer.value), now);
        BatchResult(rest.db, [s.answer.value] + rest.answers, rest.crashed)
  }

  // ---- resolution, photos, archiving ----

  /** The state after the call and the error it raised, if any; an error can leave changes. */
  datatype Outcome = Outcome(db: Db, error: Option<Error>)

  function ResolveConflict(db: Db, org: int, key: OpKey, chosen: real, now: Time): Outcome {
    if key !in db.queue then Outcome(db, Some(SyncOperationNotFound))
    else if db.queue[key].status != Conflict then Outcome(db, Some(SyncNotInConflict))
    else if db.queue[key].kind.UploadPhoto? then Outcome(db, Some(PeriodNotFound))
    else
      var p := db.queue[key].kind.payload;
      if p.period !in db.periods || OrgOf(db, p.period) != Some(org) then Outcome(db, Some(PeriodNotFound))
      else if ClosedStatus(db.periods[p.period].status) then
        Outcome(Escalate(db, key, FactKey(p.period, p.item), now), Some(PeriodAlreadyClosedEscalate))
      else
        var r := UpsertFact(db, p.period, p.item, chosen, NO_OPTS, now);
        if r.Fail? then Outcome(db, Some(r.error)) else Outcome(WithStatus(r.value, key, Applied), None)
  }

  function PhotoUpload(db: Db, org: int, key: OpKey, k: PeriodKey, item: Option<int>, now: Time): Result<Db> {
    if key in db.queue then Ok(db)
    else if k !in db.periods || OrgOf(db, k) != Some(org) then Fail(PeriodNotFound)
    else if ClosedStatus(db.periods[k].status) then Fail(PeriodAlreadyClosed)
    else Ok(db.(photos := db.photos + {(k, item)}, queue := db.queue[key := QueueRow(UploadPhoto, Applied, now)]))
  }

  const RETENTION: Time := 30 * DAY

  predicate Archivable(row: QueueRow, now: Time) {
    (row.status == Applied || row.status == Rejected || row.status == Escalated) && row.receivedAt < now - RETENTION
  }

  function Archive(db: Db, now: Time): Db {
    db.(queue := map key | key in db.queue && !Archivable(db.queue[key], now) :: db.queue[key])
  }
}

/** The sync service and its archiver, proved against SyncSpec. */
module SyncServices {
  import opened Common
  import opened Store
  import opened PeriodSpec
  import opened PeriodServices
  import opened SyncSpec

  class SyncService {
    const db: Database
    const periodService: PeriodService

    constructor (db: Database, periodService: PeriodService)
      requires periodService.db == db
      ensures this.db == db && this.periodService == periodService
    {
      this.db := db;
      this.periodService := periodService;
    }

    method SetStatus(key: OpKey, status: RowStatus)
      requires key in db.queue
      modifies db`queue
      ensures db.View() == WithStatus(old(db.View()), key, status)
    {
      db.queue := db.queue[key := db.queue[key].(status := status)];
    }

    method EscalateClosedPeriod(key: OpKey, fk: FactKey, now: Time)
      requires key in db.queue
      modifies db`queue, db`discrepancies
      ensures db.View() == Escalate(old(db.View()), key, fk, now)
    {
      if fk in db.facts {
        db.discrepancies := db.discrepancies + [Discrepancy(fk, 3, DisputeOpen, None, now)];
      }
      SetStatus(key, Escalated);
    }

    method ApplyFactOperation(org: int, key: OpKey, raw: RawOp, now: Time) returns (answer: Option<Answer>)
      requires periodService.db == db && IsValid(raw) && key in db.queue
      modifies db
      ensures ApplyOperation(old(db.View()), org, key, raw, now) == Submission(db.View(), answer)
    {
      var p := PayloadOf(raw);
      if p.period !in db.periods || OrgOf(db.View(), p.period) != Some(org) {
        SetStatus(key, Rejected);
        return Some(Answer(raw.clientOpId, InRow(Rejected), Some(Because(PeriodNotFound)), false));
      }
      if PeriodLabel(db.View(), db.periods[p.period]) != raw.boqVersion.value {
        SetStatus(key, Rejected);
        return Some(Answer(raw.clientOpId, InRow(Rejected), Some(Because(BoqVersionMismatch)), false));
      }
      var e := periodService.UpsertPeriodFact(p.period, p.item, p.sc,
        UpsertOpts(None, p.workAccessible, raw.lastKnownVersion), now);
      if e.None? {
        SetStatus(key, Applied);
        return Some(Answer(raw.clientOpId, InRow(Applied), None, false));
      }
      if e.value.VersionConflict? {
        SetStatus(key, Conflict);
        return Some(Answer(raw.clientOpId, InRow(Conflict), Some(Because(e.value)), false));
      }
      if e.value == PeriodAlreadyClosed {
        EscalateClosedPeriod(key, FactKey(p.period, p.item), now);
        return Some(Answer(raw.clientOpId, InRow(Escalated), None, false));
      }
      if IsHttp(e.value) {
        SetStatus(key, Rejected);
        return Some(Answer(raw.clientOpId, InRow(Rejected), Some(Because(e.value)), false));
      }
      return None;
    }

    method ProcessOne(org: int, device: string, raw: RawOp, now: Time) returns (answer: Option<Answer>)
      requires periodService.db == db
      modifies db
      ensures SubmitOne(old(db.View()), org, device, raw, now) == Submission(db.View(), answer)
    {
      var invalidReason := Validate(raw);
      if invalidReason.Some? {
        return Some(Answer(raw.clientOpId, InRow(Rejected), Some(Malformed(invalidReason.value)), false));
      }
      var key := KeyOf(device, raw);
      if key in db.queue {
        return Some(Answer(raw.clientOpId, InRow(db.queue[key].status), None, true));
      }
      db.queue := db.queue[key := NewRow(raw, now)];
      answer := ApplyFactOperation(org, key, raw, now);
    }

    method ProcessOperations(org: int, device: string, ops: seq<RawOp>, now: Time)
        returns (results: seq<Answer>, crashed: bool)
      requires periodService.db == db
      modifies db
      ensures Batch(old(db.View()), org, device, ops, false, now) == BatchResult(db.View(), results, crashed)
    {
      hide SubmitOne;
      results, crashed := [], false;
      var stopped := false;
      ghost var whole := Batch(db.View(), org, device, ops, false, now);
      for i := 0 to |ops|
        invariant !crashed
        invariant var rest := Batch(db.View(), org, device, ops[i..], stopped, now);
          whole == BatchResult(rest.db, results + rest.answers, rest.crashed)
      {
        var raw := ops[i];
        assert ops[i..][0] == raw && ops[i..][1..] == ops[i + 1..];
        ghost var before := results;
        ghost var rest := Batch(db.View(), org, device, ops[i..], stopped, now);
        if stopped {
          results := results + [Answer(raw.clientOpId, Skipped, None, false)];
          assert before + rest.answers == results + rest.answers[1..];
          continue;
        }
        var answer := ProcessOne(org, device, raw, now);
        if answer.None? {
          crashed := true;
          assert before + [] == before;
          return;
        }
        results := results + [answer.value];
        if Stops(answer.value) { stopped := true; }
        assert before + rest.answers == results + rest.answers[1..];
      }
      assert results + [] == results;
    }

    method ResolveConflict(org: int, key: OpKey, chosen: real, now: Time) returns (e: Option<Error>)
      requires periodService.db == db
      modifies db
      ensures SyncSpec.ResolveConflict(old(db.View()), org, key, chosen, now) == Outcome(db.View(), e)
    {
      if key !in db.queue { return Some(SyncOperationNotFound); }
      var row := db.queue[key];
      if row.status != Conflict { return Some(SyncNotInConflict); }
      if row.kind.UploadPhoto? { return Some(PeriodNotFound); }
      var p := row.kind.payload;
      if p.period !in db.periods || OrgOf(db.View(), p.period) != Some(org) { return Some(PeriodNotFound); }
      if ClosedStatus(db.periods[p.period].status) {
        EscalateClosedPeriod(key, FactKey(p.period, p.item), now);
        return Some(PeriodAlreadyClosedEscalate);
      }
      e := periodService.UpsertPeriodFact(p.period, p.item, chosen, NO_OPTS, now);
      if e.None? { SetStatus(key, Applied); }
    }

    method UploadPhoto(org: int, key: OpKey, k: PeriodKey, item: Option<int>, now: Time) returns (e: Option<Error>)
      modifies db
      ensures var r := PhotoUpload(old(db.View()), org, key, k, item, now);
        e == r.Error() && db.View() == r.Or(old(db.View()))
    {
      if key in db.queue { return None; }
      if k !in db.periods || OrgOf(db.View(), k) != Some(org) { return Some(PeriodNotFound); }
      if ClosedStatus(db.periods[k].status) { return Some(PeriodAlreadyClosed); }
      db.photos := db.photos + {(k, item)};
      db.queue := db.queue[key := QueueRow(Store.UploadPhoto, Applied, now)];
      return None;
    }
  }

  class SyncArchivalWorker {
    const db: Database

    constructor (db: Database)
      ensures this.db == db
    {
      this.db := db;
    }

    method Process(now: Time)
      modifies db`queue
      ensures db.View() == Archive(old(db.View()), now)
    {
      var cutoff := now - RETENTION;
      db.queue := map key | key in db.queue &&
        !(db.queue[key].status in {Applied, Rejected, Escalated} && db.queue[key].receivedAt < cutoff) :: db.queue[key];
    }
  }
}

/** What the sync operations accept and do, in terms of the request and the rows alone. */
module SyncOutcomes {
  import opened Common
  import opened Store
  import opened PeriodSpec
  import opened SyncSpec
  import opened Runs
  import opened SyncSafety
  import opened PeriodOutcomes

  // ---- validation ----

  /** The first code of a list of conditions, in order. */
  function First(holds: bool, code: string, rest: Option<string>): Option<string> { if holds then rest else Some(code) }

  /** An operation is refused without a row for the first condition that its fields do not meet. */
  lemma ValidationCodes(raw: RawOp)
    ensures Validate(raw) ==
      First(raw.clientOpId.Some? && 1 <= |raw.clientOpId.value| <= 64, "INVALID_CLIENT_OP_ID",
      First(raw.operation == Some("submit_fact"), "UNSUPPORTED_OPERATION",
      First(raw.boqVersion.Some? && raw.boqVersion.value != "", "INVALID_BOQ_VERSION",
      First(raw.lastKnownVersion.Some? && 0 <= raw.lastKnownVersion.value, "INVALID_LAST_KNOWN_VERSION",
      First(raw.clientTimestamp.Some?, "INVALID_CLIENT_TIMESTAMP",
      First(raw.payload.Some? && raw.payload.value.period.Some? && raw.payload.value.item.Some?
            && raw.payload.value.sc.Some?, "INVALID_PAYLOAD", None))))))
  {
  }

  /** An operation is valid exactly when it has an id of 1 to 64 characters, is a submit_fact, names
      a BoQ version, a known version from 0 on and a time, and carries period, item and figure. */
  lemma ValidIff(raw: RawOp)
    ensures IsValid(raw) <==>
      && raw.clientOpId.Some? && 1 <= |raw.clientOpId.value| <= 64
      && raw.operation == Some("submit_fact")
      && raw.boqVersion.Some? && raw.boqVersion.value != ""
      && raw.lastKnownVersion.Some? && raw.lastKnownVersion.value >= 0
      && raw.clientTimestamp.Some?
      && raw.payload.Some? && raw.payload.value.period.Some? && raw.payload.value.item.Some?
        && raw.payload.value.sc.Some?
  {
    ValidationCodes(raw);
    hide Validate;
  }

  /** The request in one piece: what a valid operation says. */
  function Request(id: string, version: string, known: int, time: Time, k: PeriodKey, item: int, sc: real,
      accessible: Option<bool>): RawOp
  {
    RawOp(Some(id), Some("submit_fact"), Some(version), Some(known), Some(time),
      Some(RawPayload(Some(k), Some(item), Some(sc), accessible)))
  }

  lemma RequestMeans(id: string, version: string, known: int, time: Time, k: PeriodKey, item: int, sc: real,
      accessible: Option<bool>, device: string)
    requires 1 <= |id| <= 64 && version != "" && known >= 0
    ensures var raw := Request(id, version, known, time, k, item, sc, accessible);
      IsValid(raw) && KeyOf(device, raw) == OpKey(device, id) && PayloadOf(raw) == Payload(k, item, sc, accessible)
      && FactOf(raw) == FactKey(k, item)
  {
    ValidIff(Request(id, version, known, time, k, item, sc, accessible));
    hide Validate;
  }

  // ---- version labels ----

  lemma {:induction false} DigitsHaveNoDot(n: nat)
    ensures |Digits(n)| > 0 && forall c | c in Digits(n) :: c != '.'
    ensures forall m: nat :: Digits(m) == Digits(n) ==> m == n
    decreases n
  {
    forall m: nat | Digits(m) == Digits(n) ensures m == n { SameDigits(m, n); }
    if n >= 10 { DigitsHaveNoDot(n / 10); }
  }

  lemma {:induction false} SameDigits(m: nat, n: nat)
    requires Digits(m) == Digits(n)
    ensures m == n
    decreases m + n
  {
    DigitsLength(m);
    DigitsLength(n);
    if m >= 10 && n >= 10 {
      var a, b := Digits(m), Digits(n);
      assert a == Digits(m / 10) + [a[|a| - 1]] && b == Digits(n / 10) + [b[|b| - 1]];
      assert a[..|a| - 1] == Digits(m / 10) && b[..|b| - 1] == Digits(n / 10);
      SameDigits(m / 10, n / 10);
      assert a[|a| - 1] == "0123456789"[m % 10] && b[|b| - 1] == "0123456789"[n % 10];
    }
  }

  lemma {:induction false} DigitsLength(n: nat)
    ensures |Digits(n)| >= 1 && (|Digits(n)| == 1 <==> n < 10)
    decreases n
  {
    if n >= 10 { DigitsLength(n / 10); }
  }

  /** Two version numbers have the same text only when they are the same number: an operation is
      never taken for one against another version. */
  lemma LabelsDiffer(m: nat, n: nat)
    ensures VersionLabel(m) == VersionLabel(n) <==> m == n
  {
    if VersionLabel(m) == VersionLabel(n) {
      var a, b := VersionLabel(m), VersionLabel(n);
      DigitsLength(m % 10);
      DigitsLength(n % 10);
      assert a[|a| - 1..] == Digits(m % 10) && b[|b| - 1..] == Digits(n % 10);
      assert a[..|a| - 2] == Digits(m / 10) && b[..|b| - 2] == Digits(n / 10);
      SameDigits(m % 10, n % 10);
      SameDigits(m / 10, n / 10);
    }
  }

  /** The text of a version: the whole part, a point, and the tenth. */
  lemma LabelIs()
    ensures VersionLabel(10) == "1.0" && VersionLabel(19) == "1.9" && VersionLabel(20) == "2.0"
      && VersionLabel(105) == "10.5"
  {
    assert Digits(0) == "0" && Digits(1) == "1" && Digits(2) == "2" && Digits(5) == "5" && Digits(9) == "9";
    assert Digits(10) == Digits(1) + "0";
  }

  // ---- one new operation ----

  /** Period and object of the operation belong to the organization, and its version is that of the
      period. */
  predicate Addressed(db: Db, org: int, k: PeriodKey, version: string) {
    && k in db.periods && k.site in db.sites && db.sites[k.site].org == org
    && db.periods[k].version < |db.versions| && version == VersionLabel(db.versions[db.periods[k].version].number)
  }

  /** What happens to a valid operation with a new key: rejected when it is not addressed to a period
      of the organization and its version; otherwise decided by the entry of the figure on the known
      version. */
  lemma NewOperation(db: Db, org: int, device: string, id: string, version: string, known: int, time: Time,
      k: PeriodKey, item: int, sc: real, accessible: Option<bool>, now: Time)
    requires 1 <= |id| <= 64 && version != "" && known >= 0 && OpKey(device, id) !in db.queue
    ensures var s := SubmitOne(db, org, device, Request(id, version, known, time, k, item, sc, accessible), now);
      var entry := UpsertFact(db, k, item, sc, UpsertOpts(None, accessible, Some(known)), now);
      var row := QueueRow(SubmitFact(Payload(k, item, sc, accessible), known), Pending, now);
      var key := OpKey(device, id);
      if k !in db.periods || k.site !in db.sites || db.sites[k.site].org != org then
        Says(s, id, Rejected, Some(Because(PeriodNotFound))) && s.db == WithRow(db, key, row.(status := Rejected))
      else if !Addressed(db, org, k, version) then
        Says(s, id, Rejected, Some(Because(BoqVersionMismatch))) && s.db == WithRow(db, key, row.(status := Rejected))
      else if entry.Ok? then
        Says(s, id, Applied, None) && s.db == WithRow(entry.value, key, row.(status := Applied))
      else if entry.error.VersionConflict? then
        Says(s, id, Conflict, Some(Because(entry.error))) && s.db == WithRow(db, key, row.(status := Conflict))
      else if entry.error.PeriodAlreadyClosed? then
        Says(s, id, Escalated, None)
          && s.db == WithRow(Disputed(db, FactKey(k, item), now), key, row.(status := Escalated))
      else if entry.error != RowNotFound && entry.error != ConstraintViolation then
        Says(s, id, Rejected, Some(Because(entry.error))) && s.db == WithRow(db, key, row.(status := Rejected))
      else s == Submission(WithRow(db, key, row), None)
  {
    var raw, key := Request(id, version, known, time, k, item, sc, accessible), OpKey(device, id);
    RequestMeans(id, version, known, time, k, item, sc, accessible, device);
    var row := QueueRow(SubmitFact(Payload(k, item, sc, accessible), known), Pending, now);
    var d := db.(queue := db.queue[key := row]);
    assert SubmitOne(db, org, device, raw, now) == ApplyOperation(d, org, key, raw, now) by {
      hide Validate, IsValid, ApplyOperation, PayloadOf, KeyOf;
    }
    assert raw.boqVersion.value == version && raw.clientOpId == Some(id) && raw.lastKnownVersion == Some(known);
    hide SubmitOne, Validate, IsValid, PayloadOf, KeyOf, FactOf, Request;
    AppliedRow(d, db, org, key, raw, version, now, row);
  }

  predicate Says(s: Submission, id: string, status: RowStatus, reason: Option<Reason>) {
    s.answer == Some(Answer(Some(id), InRow(status), reason, false))
  }

  function WithRow(db: Db, key: OpKey, row: QueueRow): Db { db.(queue := db.queue[key := row]) }

  /** With a type-3 discrepancy on the fact, when there is one. */
  function Disputed(db: Db, fk: FactKey, now: Time): Db {
    if fk in db.facts then db.(discrepancies := db.discrepancies + [Discrepancy(fk, 3, DisputeOpen, None, now)]) else db
  }

  lemma LabelOf(db: Db, k: PeriodKey, version: string)
    requires k in db.periods && version != ""
    ensures PeriodLabel(db, db.periods[k]) == version <==>
      db.periods[k].version < |db.versions| && version == VersionLabel(db.versions[db.periods[k].version].number)
  {
    hide VersionLabel;
  }

  /** The same, after the row was added: d is the state with the row. */
  lemma AppliedRow(d: Db, db: Db, org: int, key: OpKey, raw: RawOp, version: string, now: Time, row: QueueRow)
    requires IsValid(raw) && d == db.(queue := db.queue[key := row]) && row.status == Pending && key !in db.queue
    requires raw.boqVersion == Some(version) && version != "" && raw.clientOpId.Some?
    ensures var s, p, id := ApplyOperation(d, org, key, raw, now), PayloadOf(raw), raw.clientOpId.value;
      var k := p.period;
      var entry := UpsertFact(db, k, p.item, p.sc, UpsertOpts(None, p.workAccessible, raw.lastKnownVersion), now);
      if k !in db.periods || k.site !in db.sites || db.sites[k.site].org != org then
        Says(s, id, Rejected, Some(Because(PeriodNotFound))) && s.db == WithRow(db, key, row.(status := Rejected))
      else if !Addressed(db, org, k, version) then
        Says(s, id, Rejected, Some(Because(BoqVersionMismatch))) && s.db == WithRow(db, key, row.(status := Rejected))
      else if entry.Ok? then
        Says(s, id, Applied, None) && s.db == WithRow(entry.value, key, row.(status := Applied))
      else if entry.error.VersionConflict? then
        Says(s, id, Conflict, Some(Because(entry.error))) && s.db == WithRow(db, key, row.(status := Conflict))
      else if entry.error.PeriodAlreadyClosed? then
        Says(s, id, Escalated, None) && s.db == WithRow(Disputed(db, FactOf(raw), now), key, row.(status := Escalated))
      else if entry.error != RowNotFound && entry.error != ConstraintViolation then
        Says(s, id, Rejected, Some(Because(entry.error))) && s.db == WithRow(db, key, row.(status := Rejected))
      else s == Submission(WithRow(db, key, row), None)
  {
    var p := PayloadOf(raw);
    var k := p.period;
    var entry := UpsertFact(db, k, p.item, p.sc, UpsertOpts(None, p.workAccessible, raw.lastKnownVersion), now);
    assert (k in db.periods && OrgOf(db, k) == Some(org)) <==>
      k in db.periods && k.site in db.sites && db.sites[k.site].org == org;
    if k in db.periods { LabelOf(db, k, version); }
    if !(k in db.periods && OrgOf(db, k) == Some(org) && PeriodLabel(db, db.periods[k]) == version) {
      NotAddressedRow(d, db, org, key, raw, version, now, row);
    } else {
      EntryInRow(d, db, key, raw, now, row);
      if entry.Ok? { EnteredRow(d, db, org, key, raw, version, now, row, entry); }
      else { RefusedRow(d, db, org, key, raw, version, now, row, entry.error); }
    }
    hide ApplyOperation, UpsertFact, PeriodLabel, IsValid, PayloadOf, FactOf, VersionLabel, WithRow, Disputed, Says;
  }

  lemma NotAddressedRow(d: Db, db: Db, org: int, key: OpKey, raw: RawOp, version: string, now: Time, row: QueueRow)
    requires IsValid(raw) && d == db.(queue := db.queue[key := row]) && raw.boqVersion == Some(version)
      && raw.clientOpId.Some?
    requires var k := PayloadOf(raw).period;
      !(k in db.periods && OrgOf(db, k) == Some(org) && PeriodLabel(db, db.periods[k]) == version)
    ensures var s, k := ApplyOperation(d, org, key, raw, now), PayloadOf(raw).period;
      && s.db == WithRow(db, key, row.(status := Rejected))
      && Says(s, raw.clientOpId.value, Rejected,
           Some(Because(if k in db.periods && OrgOf(db, k) == Some(org) then BoqVersionMismatch else PeriodNotFound)))
  {
    StatusSet(db, key, row, Rejected);
    hide IsValid, PayloadOf, WithStatus, WithRow, VersionLabel, UpsertFact;
  }

  /** An entry does not see the queue. */
  lemma EntryInRow(d: Db, db: Db, key: OpKey, raw: RawOp, now: Time, row: QueueRow)
    requires IsValid(raw) && d == db.(queue := db.queue[key := row])
    ensures var p := PayloadOf(raw);
      var opts := UpsertOpts(None, p.workAccessible, raw.lastKnownVersion);
      var entry := UpsertFact(db, p.period, p.item, p.sc, opts, now);
      UpsertFact(d, p.period, p.item, p.sc, opts, now)
        == if entry.Ok? then Ok(entry.value.(queue := db.queue[key := row])) else entry
    ensures var p := PayloadOf(raw);
      var opts := UpsertOpts(None, p.workAccessible, raw.lastKnownVersion);
      var entry := UpsertFact(db, p.period, p.item, p.sc, opts, now);
      entry.Ok? ==> entry.value.queue == db.queue
  {
    var p := PayloadOf(raw);
    var opts := UpsertOpts(None, p.workAccessible, raw.lastKnownVersion);
    UpsertIgnoresQueue(db, d.queue, p.period, p.item, p.sc, opts, now);
    EntryIs(db, p.period, p.item, p.sc, opts, now);
    EntryIs(d, p.period, p.item, p.sc, opts, now);
    hide UpsertFact, UpsertError, IsValid, PayloadOf;
  }

  lemma EnteredRow(d: Db, db: Db, org: int, key: OpKey, raw: RawOp, version: string, now: Time, row: QueueRow,
      entry: Result<Db>)
    requires IsValid(raw) && d == db.(queue := db.queue[key := row]) && raw.boqVersion == Some(version)
      && raw.clientOpId.Some?
    requires var p := PayloadOf(raw);
      && p.period in db.periods && OrgOf(db, p.period) == Some(org) && PeriodLabel(db, db.periods[p.period]) == version
      && entry.Ok? && entry.value.queue == db.queue
      && UpsertFact(d, p.period, p.item, p.sc, UpsertOpts(None, p.workAccessible, raw.lastKnownVersion), now)
           == Ok(entry.value.(queue := db.queue[key := row]))
    ensures var s := ApplyOperation(d, org, key, raw, now);
      s.db == WithRow(entry.value, key, row.(status := Applied)) && Says(s, raw.clientOpId.value, Applied, None)
  {
    StatusSet(entry.value, key, row, Applied);
    hide IsValid, PayloadOf, WithStatus, WithRow, VersionLabel, UpsertFact;
  }

  lemma RefusedRow(d: Db, db: Db, org: int, key: OpKey, raw: RawOp, version: string, now: Time, row: QueueRow, e: Error)
    requires IsValid(raw) && d == db.(queue := db.queue[key := row]) && raw.boqVersion == Some(version)
      && raw.clientOpId.Some?
    requires row.status == Pending
    requires var p := PayloadOf(raw);
      && p.period in db.periods && OrgOf(db, p.period) == Some(org) && PeriodLabel(db, db.periods[p.period]) == version
      && UpsertFact(d, p.period, p.item, p.sc, UpsertOpts(None, p.workAccessible, raw.lastKnownVersion), now) == Fail(e)
    ensures var s, id := ApplyOperation(d, org, key, raw, now), raw.clientOpId.value;
      if e.VersionConflict? then
        Says(s, id, Conflict, Some(Because(e))) && s.db == WithRow(db, key, row.(status := Conflict))
      else if e.PeriodAlreadyClosed? then
        Says(s, id, Escalated, None) && s.db == WithRow(Disputed(db, FactOf(raw), now), key, row.(status := Escalated))
      else if e != RowNotFound && e != ConstraintViolation then
        Says(s, id, Rejected, Some(Because(e))) && s.db == WithRow(db, key, row.(status := Rejected))
      else s == Submission(WithRow(db, key, row), None)
  {
    RefusalBranch(d, org, key, raw, version, now, e);
    StatusSet(db, key, row, Rejected);
    StatusSet(db, key, row, Conflict);
    StatusSet(Disputed(db, FactOf(raw), now), key, row, Escalated);
    hide IsValid, PayloadOf, FactOf, WithStatus, VersionLabel, UpsertFact, ApplyOperation, PeriodLabel, OrgOf;
    assert Escalate(d, key, FactOf(raw), now) == WithStatus(Disputed(db, FactOf(raw), now).(queue := d.queue), key,
      Escalated);
    assert WithRow(db, key, row) == d;
    hide WithRow, Escalate, Disputed;
  }

  lemma RefusalBranch(d: Db, org: int, key: OpKey, raw: RawOp, version: string, now: Time, e: Error)
    requires IsValid(raw) && raw.boqVersion == Some(version)
    requires var p := PayloadOf(raw);
      && p.period in d.periods && OrgOf(d, p.period) == Some(org) && PeriodLabel(d, d.periods[p.period]) == version
      && UpsertFact(d, p.period, p.item, p.sc, UpsertOpts(None, p.workAccessible, raw.lastKnownVersion), now) == Fail(e)
    ensures ApplyOperation(d, org, key, raw, now) ==
      if e.VersionConflict? then Submission(WithStatus(d, key, Conflict), Said(raw, Conflict, Some(Because(e))))
      else if e.PeriodAlreadyClosed? then Submission(Escalate(d, key, FactOf(raw), now), Said(raw, Escalated, None))
      else if e != RowNotFound && e != ConstraintViolation then
        Submission(WithStatus(d, key, Rejected), Said(raw, Rejected, Some(Because(e))))
      else Submission(d, None)
  {
    hide IsValid, PayloadOf, FactOf, WithStatus, VersionLabel, UpsertFact, Escalate, Said;
  }

  /** Setting the status of a row just added is adding it with that status. */
  lemma StatusSet(db: Db, key: OpKey, row: QueueRow, status: RowStatus)
    ensures WithStatus(db.(queue := db.queue[key := row]), key, status) == WithRow(db, key, row.(status := status))
  {
    assert db.queue[key := row][key := row.(status := status)] == db.queue[key := row.(status := status)];
  }

  lemma EntryIs(db: Db, k: PeriodKey, item: int, sc: real, opts: UpsertOpts, now: Time)
    ensures var r, e := UpsertFact(db, k, item, sc, opts, now), UpsertError(db, k, item, sc, opts, now);
      if e.None? then r.Ok? && r.value.queue == db.queue else r == Fail(e.value)
  {
    hide UpsertError, UpsertedFact;
  }

  /** The first figure of an item, entered offline on version 0, in a submitted period of the
      organization and its version, is applied and stored. */
  lemma FirstFigureIsApplied(db: Db, org: int, device: string, id: string, time: Time, k: PeriodKey, item: int,
      sc: real,
      now: Time)
    requires 1 <= |id| <= 64 && OpKey(device, id) !in db.queue && sc >= 0.0
    requires k in db.periods && k.site in db.sites && db.sites[k.site].org == org
    requires db.periods[k].status == GpSubmitted || db.periods[k].status == Verification
    requires Lists(db, k, item) && FactKey(k, item) !in db.facts
    ensures var version := VersionLabel(db.versions[db.periods[k].version].number);
      var s := SubmitOne(db, org, device, Request(id, version, 0, time, k, item, sc, None), now);
      && s.answer == Some(Answer(Some(id), InRow(Applied), None, false))
      && FactKey(k, item) in s.db.facts && s.db.facts[FactKey(k, item)].sc == Some(sc)
  {
    var version := VersionLabel(db.versions[db.periods[k].version].number);
    assert version != "";
    var opts := UpsertOpts(None, None, Some(0));
    EntryRefuses(db, k, item, sc, opts, now);
    assert UpsertFact(db, k, item, sc, opts, now).Ok? by { hide UpsertFact, Lists; }
    EntryWrites(db, k, item, sc, opts, now);
    NewOperation(db, org, device, id, version, 0, time, k, item, sc, None, now);
    hide SubmitOne, UpsertFact, VersionLabel, Lists, Request;
  }

  // ---- a repeated key ----

  /** A key that has a row already is answered with the row's status and changes nothing. */
  lemma RepeatedOperation(db: Db, org: int, device: string, id: string, version: string, known: int, time: Time,
      k: PeriodKey, item: int, sc: real, accessible: Option<bool>, now: Time)
    requires 1 <= |id| <= 64 && version != "" && known >= 0 && OpKey(device, id) in db.queue
    ensures SubmitOne(db, org, device, Request(id, version, known, time, k, item, sc, accessible), now) ==
      Submission(db, Some(Answer(Some(id), InRow(db.queue[OpKey(device, id)].status), None, true)))
  {
    RequestMeans(id, version, known, time, k, item, sc, accessible, device);
    hide Validate, ApplyOperation;
  }

  // ---- resolution ----

  /** A conflict is resolved by entering the chosen figure without a version check; in a closed period
      it is escalated instead, with an error; what is not a conflict is refused. */
  lemma Resolution(db: Db, org: int, key: OpKey, chosen: real, now: Time)
    requires key in db.queue ==> db.queue[key].kind.SubmitFact?
    ensures var o := ResolveConflict(db, org, key, chosen, now);
      if key !in db.queue then o == Outcome(db, Some(SyncOperationNotFound))
      else if db.queue[key].status != Conflict then o == Outcome(db, Some(SyncNotInConflict))
      else
        var row, p := db.queue[key], db.queue[key].kind.payload;
        var k := p.period;
        if k !in db.periods || k.site !in db.sites || db.sites[k.site].org != org
          then o == Outcome(db, Some(PeriodNotFound))
        else if ClosedIn(db, k) then
          o == Outcome(WithRow(Disputed(db, FactKey(k, p.item), now), key, row.(status := Escalated)),
            Some(PeriodAlreadyClosedEscalate))
        else
          var entry := UpsertFact(db, k, p.item, chosen, UpsertOpts(None, None, None), now);
          if entry.Ok? then o == Outcome(WithRow(entry.value, key, row.(status := Applied)), None)
          else o == Outcome(db, Some(entry.error))
  {
    if key in db.queue {
      var p := db.queue[key].kind.payload;
      EntryIs(db, p.period, p.item, chosen, UpsertOpts(None, None, None), now);
    }
    hide UpsertFact, UpsertError;
  }

  // ---- photos and the archive ----

  lemma PhotoIs(db: Db, org: int, key: OpKey, k: PeriodKey, item: Option<int>, now: Time)
    ensures var r := PhotoUpload(db, org, key, k, item, now);
      if key in db.queue then r == Ok(db)
      else if k !in db.periods || k.site !in db.sites || db.sites[k.site].org != org then r == Fail(PeriodNotFound)
      else if ClosedIn(db, k) then r == Fail(PeriodAlreadyClosed)
      else r == Ok(WithRow(db.(photos := db.photos + {(k, item)}), key, QueueRow(UploadPhoto, Applied, now)))
  {
  }

  /** A row survives the archiver exactly when it is pending or in conflict, or not older than 30 days. */
  lemma ArchiveKeepsIff(db: Db, now: Time, key: OpKey)
    ensures var e := Archive(db, now);
      && e == db.(queue := e.queue)
      && (key in e.queue <==>
            key in db.queue
            && (db.queue[key].status == Pending || db.queue[key].status == Conflict
                || db.queue[key].receivedAt >= now - 2_592_000_000))
      && (key in e.queue ==> e.queue[key] == db.queue[key])
  {
  }
}

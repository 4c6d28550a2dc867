/** Batches of offline operations: what the answers say, and that retries drain a batch. */
module SyncBatch {
  import opened Common
  import opened Store
  import opened PeriodSpec
  import opened SyncSpec
  import opened Runs

  // ---- one operation and its queue row ----

  /** Applying an operation ends in one write of the row's status, which is what is answered, or
      in a crash that changes nothing. */
  lemma ApplySetsStatus(db: Db, org: int, key: OpKey, raw: RawOp, now: Time) returns (status: Option<RowStatus>)
    requires IsValid(raw) && key in db.queue
    ensures var s := ApplyOperation(db, org, key, raw, now);
      match status
      case Some(st) =>
        && s.db.queue == db.queue[key := db.queue[key].(status := st)]
        && s.answer.Some? && s.answer.value == Answer(raw.clientOpId, InRow(st), s.answer.value.reason, false)
      case None => s == Submission(db, None)
  {
    var p := PayloadOf(raw);
    var opts := UpsertOpts(None, p.workAccessible, raw.lastKnownVersion);
    var r := UpsertFact(db, p.period, p.item, p.sc, opts, now);
    assert r.Ok? ==> r.value.queue == db.queue by { hide UpsertError, UpsertedFact; }
    hide UpsertFact, PeriodLabel, OrgOf, IsValid, PayloadOf;
    if p.period !in db.periods || OrgOf(db, p.period) != Some(org)
      || PeriodLabel(db, db.periods[p.period]) != raw.boqVersion.value {
      status := Some(Rejected);
    } else if r.Ok? { status := Some(Applied);
    } else if r.error.VersionConflict? { status := Some(Conflict);
    } else if r.error.PeriodAlreadyClosed? { status := Some(Escalated);
    } else if IsHttp(r.error) { status := Some(Rejected);
    } else { status := None; }
  }

  /** A valid operation leaves a row under its key, whatever the outcome; a malformed or a
      repeated one leaves no trace. Other rows are not touched. */
  lemma SubmitRows(db: Db, org: int, device: string, raw: RawOp, now: Time)
    ensures var s := SubmitOne(db, org, device, raw, now);
      if IsValid(raw) && KeyOf(device, raw) !in db.queue then
        var key := KeyOf(device, raw);
        key in s.db.queue && s.db.queue == db.queue[key := s.db.queue[key]]
        && (s.answer.Some? ==> s.answer.value.status == InRow(s.db.queue[key].status) && !s.answer.value.duplicate)
      else s.db == db && s.answer.Some? && !Stops(s.answer.value) && s.answer.value.status.InRow?
    ensures var s := SubmitOne(db, org, device, raw, now);
      s.answer.Some? ==> s.answer.value.clientOpId == raw.clientOpId && s.answer.value.status.InRow?
  {
    if IsValid(raw) && KeyOf(device, raw) !in db.queue {
      var key := KeyOf(device, raw);
      var d := db.(queue := db.queue[key := NewRow(raw, now)]);
      var status := ApplySetsStatus(d, org, key, raw, now);
      var q := ApplyOperation(d, org, key, raw, now).db.queue;
      assert d.queue[key := q[key]] == db.queue[key := q[key]];
      hide ApplyOperation, IsValid;
    }
  }

  // ---- answers ----

  /** Answers come one for one and in order; a request that crashed gives none at all for the rest. */
  lemma {:induction false} AnswersInOrder(db: Db, org: int, device: string, ops: seq<RawOp>, stopped: bool, now: Time)
    ensures var r := Batch(db, org, device, ops, stopped, now);
      && (if r.crashed then |r.answers| < |ops| else |r.answers| == |ops|)
      && (forall i | 0 <= i < |r.answers| :: r.answers[i].clientOpId == ops[i].clientOpId)
    decreases |ops|
  {
    hide SubmitOne;
    if ops != [] {
      if stopped { AnswersInOrder(db, org, device, ops[1..], true, now); }
      else {
        var s := SubmitOne(db, org, device, ops[0], now);
        SubmitRows(db, org, device, ops[0], now);
        if s.answer.Some? { AnswersInOrder(s.db, org, device, ops[1..], Stops(s.answer.value), now); }
      }
    }
  }

  lemma {:induction false} StoppedDoesNothing(db: Db, org: int, device: string, ops: seq<RawOp>, now: Time)
    ensures var r := Batch(db, org, device, ops, true, now);
      r.db == db && !r.crashed && |r.answers| == |ops| && forall a | a in r.answers :: a.status == Skipped
    decreases |ops|
  {
    hide SubmitOne;
    if ops != [] { StoppedDoesNothing(db, org, device, ops[1..], now); }
  }

  ghost predicate StoppedBefore(answers: seq<Answer>, i: nat)
    requires i <= |answers|
  {
    exists j | 0 <= j < i ::
      !answers[j].duplicate && (answers[j].status == InRow(Conflict) || answers[j].status == InRow(Escalated))
  }

  lemma StoppedBeforeIs(answers: seq<Answer>, i: nat)
    requires i <= |answers|
    ensures StoppedBefore(answers, i) <==> exists j | 0 <= j < i :: Stops(answers[j])
  {
  }

  lemma {:induction false} StoppedBeforeShift(first: Answer, rest: seq<Answer>, i: nat)
    requires i <= |rest|
    ensures StoppedBefore([first] + rest, i + 1) <==> Stops(first) || StoppedBefore(rest, i)
  {
    var all := [first] + rest;
    StoppedBeforeIs(all, i + 1);
    StoppedBeforeIs(rest, i);
    hide Stops, StoppedBefore;
    assert all[0] == first && forall j | 0 < j <= i :: all[j] == rest[j - 1];
    if j: int :| 0 <= j < i && Stops(rest[j]) { assert Stops(all[j + 1]); }
  }

  /** An operation is skipped exactly when a fresh conflict or escalation came before it. */
  lemma {:induction false} SkippedIff(db: Db, org: int, device: string, ops: seq<RawOp>, now: Time, i: nat)
    requires i < |Batch(db, org, device, ops, false, now).answers|
    ensures var answers := Batch(db, org, device, ops, false, now).answers;
      answers[i].status == Skipped <==> StoppedBefore(answers, i)
    decreases |ops|
  {
    hide SubmitOne, StoppedBefore;
    assert !StoppedBefore(Batch(db, org, device, ops, false, now).answers,
      0) by { NoneBefore(Batch(db, org, device, ops, false, now).answers); }
    var s := SubmitOne(db, org, device, ops[0], now);
    SubmitRows(db, org, device, ops[0], now);
    if i > 0 {
      var rest := Batch(s.db, org, device, ops[1..], Stops(s.answer.value), now).answers;
      StoppedBeforeShift(s.answer.value, rest, i - 1);
      if Stops(s.answer.value) {
        StoppedDoesNothing(s.db, org, device, ops[1..], now);
        assert rest[i - 1] in rest;
      } else {
        SkippedIff(s.db, org, device, ops[1..], now, i - 1);
      }
    }
  }

  lemma {:induction false} NoneBefore(answers: seq<Answer>)
    ensures !StoppedBefore(answers, 0)
  {
  }

  /** Operations after the first fresh conflict or escalation leave no trace: the batch ends in
      the state it would have ended in without them. */
  lemma {:induction false} NothingAfterStop(db: Db, org: int, device: string, ops: seq<RawOp>, now: Time, i: nat)
    requires var r := Batch(db, org, device, ops, false, now); i < |r.answers| && Stops(r.answers[i])
    ensures i < |ops|
      && Batch(db, org, device, ops, false, now).db == Batch(db, org, device, ops[..i + 1], false, now).db
    ensures !Batch(db, org, device, ops, false, now).crashed
    decreases |ops|
  {
    hide SubmitOne;
    AnswersInOrder(db, org, device, ops, false, now);
    var s := SubmitOne(db, org, device, ops[0], now);
    var cut := ops[..i + 1];
    assert cut[0] == ops[0] && cut[1..] == ops[1..][..i];
    var stop := Stops(s.answer.value);
    if stop {
      StoppedDoesNothing(s.db, org, device, ops[1..], now);
      StoppedDoesNothing(s.db, org, device, cut[1..], now);
      if i > 0 {
        SkippedIff(db, org, device, ops, now, i);
        assert Stops(Batch(db, org, device, ops, false, now).answers[0]);
      }
    } else {
      NothingAfterStop(s.db, org, device, ops[1..], now, i - 1);
    }
  }

  // ---- a batch is a run ----

  /** The operations of a batch as steps. */
  function Sends(org: int, device: string, ops: seq<RawOp>, now: Time): seq<Step> {
    if ops == [] then [] else [Step(DoSync(org, device, ops[0]), now)] + Sends(org, device, ops[1..], now)
  }

  /** How many operations of the batch are processed: up to the first stop or crash. */
  function Processed(db: Db, org: int, device: string, ops: seq<RawOp>, now: Time): (n: nat)
    ensures n <= |ops|
    decreases |ops|
  {
    if ops == [] then 0
    else
      var s := SubmitOne(db, org, device, ops[0], now);
      if s.answer.None? || Stops(s.answer.value) then 1 else 1 + Processed(s.db, org, device, ops[1..], now)
  }

  /** A batch ends in the state of the run of the operations that it processed. */
  lemma {:induction false} BatchIsRun(db: Db, org: int, device: string, ops: seq<RawOp>, now: Time)
    ensures var n := Processed(db, org, device, ops, now);
      && Batch(db, org, device, ops, false, now).db == Run(db, Sends(org, device, ops[..n], now))
      && AllowedRun(db, now, Sends(org, device, ops[..n], now))
    decreases |ops|
  {
    hide SubmitOne;
    if ops != [] {
      var s, op := SubmitOne(db, org, device, ops[0], now), DoSync(org, device, ops[0]);
      SendIsStep(db, org, device, ops[0], now);
      hide Apply, Allowed;
      var n := Processed(db, org, device, ops, now);
      var rest := Sends(org, device, ops[..n][1..], now);
      assert ops[..n][0] == ops[0] && ([Step(op, now)] + rest)[1..] == rest;
      assert Sends(org, device, ops[..n], now) == [Step(op, now)] + rest;
      if s.answer.None? || Stops(s.answer.value) {
        StoppedDoesNothing(s.db, org, device, ops[1..], now);
        assert ops[..n][1..] == [];
      } else {
        BatchIsRun(s.db, org, device, ops[1..], now);
        assert ops[..n][1..] == ops[1..][..n - 1];
      }
    }
  }

  lemma SendIsStep(db: Db, org: int, device: string, raw: RawOp, now: Time)
    ensures Apply(db, DoSync(org, device, raw), now) == SubmitOne(db, org, device, raw, now).db
    ensures Allowed(db, now, Step(DoSync(org, device, raw), now))
  {
    hide SubmitOne;
  }

  // ---- the measure ----

  predicate Unqueued(queue: map<OpKey, QueueRow>, device: string, raw: RawOp) {
    IsValid(raw) && KeyOf(device, raw) !in queue
  }

  /** The number of valid operations without a queue row. */
  function Waiting(queue: map<OpKey, QueueRow>, device: string, ops: seq<RawOp>): nat {
    if ops == [] then 0 else (if Unqueued(queue, device, ops[0]) then 1 else 0) + Waiting(queue, device, ops[1..])
  }

  lemma {:induction false} MoreRows(q: map<OpKey, QueueRow>, r: map<OpKey, QueueRow>, device: string, ops: seq<RawOp>)
    requires q.Keys <= r.Keys
    ensures Waiting(r, device, ops) <= Waiting(q, device, ops)
  {
    if ops != [] { MoreRows(q, r, device, ops[1..]); }
  }

  lemma {:induction false} NoneWaiting(queue: map<OpKey, QueueRow>, device: string, ops: seq<RawOp>)
    ensures Waiting(queue, device, ops) == 0 <==> forall raw | raw in ops :: !Unqueued(queue, device, raw)
  {
    if ops != [] {
      assert ops[0] in ops && forall raw | raw in ops :: raw == ops[0] || raw in ops[1..];
      NoneWaiting(queue, device, ops[1..]);
    }
  }

  predicate AnySkipped(r: BatchResult) { exists a | a in r.answers :: a.status == Skipped }

  /** A batch never loses a row; when it skips or crashes fewer operations are left waiting,
      and otherwise none. */
  lemma {:induction false} BatchDrains(db: Db, org: int, device: string, ops: seq<RawOp>, now: Time)
    ensures var r := Batch(db, org, device, ops, false, now);
      && db.queue.Keys <= r.db.queue.Keys
      && (AnySkipped(r) || r.crashed ==> Waiting(r.db.queue, device, ops) < Waiting(db.queue, device, ops))
      && (!AnySkipped(r) && !r.crashed ==> Waiting(r.db.queue, device, ops) == 0)
    decreases |ops|
  {
    hide SubmitOne, Unqueued;
    if ops != [] {
      var s := SubmitOne(db, org, device, ops[0], now);
      var r := Batch(db, org, device, ops, false, now);
      RowAfter(db, org, device, ops[0], now);
      MoreRows(db.queue, s.db.queue, device, ops[1..]);
      if s.answer.Some? {
        var rest := Batch(s.db, org, device, ops[1..], Stops(s.answer.value), now);
        assert r.answers == [s.answer.value] + rest.answers && r.db == rest.db && r.crashed == rest.crashed;
        assert forall a | a in r.answers :: a == s.answer.value || a in rest.answers;
        assert forall a | a in rest.answers :: a in r.answers;
        if Stops(s.answer.value) {
          StoppedDoesNothing(s.db, org, device, ops[1..], now);
          if ops[1..] != [] { assert rest.answers[0] in r.answers; }
        } else {
          BatchDrains(s.db, org, device, ops[1..], now);
          StillQueued(s.db.queue, r.db.queue, device, ops[0]);
        }
      }
    }
  }

  lemma StillQueued(q: map<OpKey, QueueRow>, r: map<OpKey, QueueRow>, device: string, raw: RawOp)
    requires q.Keys <= r.Keys && !Unqueued(q, device, raw)
    ensures !Unqueued(r, device, raw)
  {
  }

  lemma RowAfter(db: Db, org: int, device: string, raw: RawOp, now: Time)
    ensures var s := SubmitOne(db, org, device, raw, now);
      && db.queue.Keys <= s.db.queue.Keys && !Unqueued(s.db.queue, device, raw)
      && (s.answer.None? || Stops(s.answer.value) ==> Unqueued(db.queue, device, raw))
      && (s.answer.Some? ==> s.answer.value.status != Skipped)
  {
    SubmitRows(db, org, device, raw, now);
    hide SubmitOne, IsValid;
  }

  /** When no operation of the batch waits, sending it again changes nothing at all. */
  lemma {:induction false} RetryIsIdle(db: Db, org: int, device: string, ops: seq<RawOp>, now: Time)
    requires Waiting(db.queue, device, ops) == 0
    ensures var r := Batch(db, org, device, ops, false, now); r.db == db && !r.crashed && !AnySkipped(r)
    decreases |ops|
  {
    hide SubmitOne;
    if ops != [] {
      SubmitRows(db, org, device, ops[0], now);
      RetryIsIdle(db, org, device, ops[1..], now);
      var r, rest := Batch(db, org, device, ops, false, now), Batch(db, org, device, ops[1..], false, now);
      assert forall a | a in r.answers :: a == r.answers[0] || a in rest.answers;
    }
  }

  /** The same batch sent again and again. */
  function Retried(db: Db, org: int, device: string, ops: seq<RawOp>, times: seq<Time>): Db
    decreases |times|
  {
    if times == [] then db else Retried(Batch(db, org, device, ops, false, times[0]).db, org, device, ops, times[1..])
  }

  /** Retries terminate: after as many retries as operations were waiting, every valid operation
      has its row, and from then on a retry changes nothing and skips nothing. */
  lemma {:induction false} RetriesTerminate(db: Db, org: int, device: string, ops: seq<RawOp>, times: seq<Time>,
      now: Time)
    requires |times| >= Waiting(db.queue, device, ops)
    ensures var e := Retried(db, org, device, ops, times);
      && (forall raw | raw in ops :: IsValid(raw) ==> KeyOf(device, raw) in e.queue)
      && Batch(e, org, device, ops, false, now).db == e && !AnySkipped(Batch(e, org, device, ops, false, now))
    decreases |times|
  {
    hide Batch;
    if times == [] {
      NoneWaiting(db.queue, device, ops);
      RetryIsIdle(db, org, device, ops, now);
    } else {
      BatchDrains(db, org, device, ops, times[0]);
      RetriesTerminate(Batch(db, org, device, ops, false, times[0]).db, org, device, ops, times[1..], now);
    }
  }
}

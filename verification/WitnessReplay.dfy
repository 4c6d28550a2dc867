/** A run in which one offline operation is applied twice. */
module WitnessReplay {
  import opened Common
  import opened Store
  import opened PeriodSpec
  import opened DisputeSpec
  import opened SyncSpec
  import opened Runs
  import opened WitnessRuns

  const RAW := RawOp(Some("op"), Some("submit_fact"), Some("1.0"), Some(4), Some(0),
    Some(RawPayload(Some(K), Some(1), Some(5.0), None)))
  const SEND := DoSync(1, "d", RAW)
  const SENT := OpKey("d", "op")

  function SentRow(now: Time): QueueRow { QueueRow(SubmitFact(Payload(K, 1, 5.0, None), 4), Applied, now) }

  const REENTERED := ENTERED.(version := 4)
  const D2 := D1.(facts := map[FK := REENTERED])
  const D3 := D2.(queue := D2.queue[SENT := SentRow(0)])
  const D4 := D3.(facts := map[FK := REENTERED.(accepted := Some(5.0), discStatus := Some(FactForced))],
                  discrepancies := [Discrepancy(FK, 2, ForcedScFigure, None, 0)],
                  events := Timers(FK, A, 0)[1 := Timers(FK, A, 0)[1].(executedAt := Some(5 * DAY))],
                  jobs := map[0 := 3 * DAY])
  const D5 := D4.(queue := map[])
  const D6 := D5.(queue := map[SENT := SentRow(40 * DAY)], facts := map[FK := REENTERED])

  /** A figure entered again on a disputed fact, up to the operation that repeats it. */
  const REPEATING: seq<Step> := VERIFYING + [Step(DISPUTE, 0)] + [ENTER]
  /** The day-5 timer, and the archiver after the retention. */
  const LATER: seq<Step> := [FORCE] + [Step(DoArchive, 40 * DAY)]

  lemma EnterAgain()
    ensures Apply(D1, ENTER.op, 0) == D2
  {
    ActiveOne(D1);
    assert PeriodItems(D1, K) == VERSION.items;
    hide ActiveVersion, HasItem, PeriodItems, Timers;
    assert UpsertError(D1, K, 1, 5.0, NO_OPTS, 0).None?;
    assert UpsertedFact(D1.facts, FK, 5.0, None) == REENTERED;
    hide UpsertError, UpsertedFact;
    assert D2.facts == D1.facts[FK := REENTERED];
  }

  lemma Label(db: Db)
    requires db.versions == [VERSION]
    ensures PeriodLabel(db, VERIFIED) == "1.0"
  {
    assert Digits(1) == "1" && Digits(0) == "0" && VersionLabel(10) == "1.0";
  }

  /** The operation finds the fact at version 4 with the figure it carries. */
  lemma Sending(db: Db, f: Fact, now: Time)
    requires db.sites == SITES && db.versions == [VERSION] && db.periods == map[K := VERIFIED] && SENT !in db.queue
    requires db.facts == map[FK := f] && f.gp == Some(7.0) && f.sc == Some(5.0) && f.discType == Some(1)
      && f.version == 4
    ensures var s, g := SubmitOne(db, 1, "d", RAW, now),
      f.(accepted := None, discStatus := Some(FactOpen), spikeResponse := None);
      NewlySaid(s, Applied) && s.db == db.(queue := db.queue[SENT := SentRow(now)], facts := map[FK := g])
  {
    ActiveOne(db);
    Label(db);
    var d := db.(queue := db.queue[SENT := NewRow(RAW, now)]);
    assert PeriodLabel(d, VERIFIED) == PeriodLabel(db, VERIFIED) && PeriodItems(d, K) == VERSION.items;
    assert IsValid(RAW) && KeyOf("d", RAW) == SENT && OrgOf(d, K) == Some(1);
    hide ActiveVersion, HasItem, PeriodItems, PeriodLabel, OrgOf;
    var opts := UpsertOpts(None, None, Some(4));
    assert UpsertError(d, K, 1, 5.0, opts, now).None?;
    var g := f.(accepted := None, discStatus := Some(FactOpen), spikeResponse := None);
    assert UpsertedFact(d.facts, FK, 5.0, None) == g && d.facts[FK := g] == map[FK := g];
    assert UpsertFact(d, K, 1, 5.0, opts, now) == Ok(d.(facts := map[FK := g])) by { hide UpsertError, UpsertedFact; }
    hide UpsertFact, UpsertError, UpsertedFact;
    assert d.queue[SENT := SentRow(now)] == db.queue[SENT := SentRow(now)];
  }

  const FORCE := Step(DoRunJob(1, 0), 5 * DAY)

  lemma ForceRepeated()
    ensures Apply(D3, FORCE.op, 5 * DAY) == D4 && Allowed(D3, 0, FORCE)
  {
    var es := Timers(FK, A, 0);
    assert D3.events == es && es[1] == Timer(FK, A, ForceCloseDay5, 0) && |es| == 2;
    assert D3.facts == map[FK := REENTERED] && D3.discrepancies == [Discrepancy(FK, 2, DisputeOpen, None, 0)];
    assert D3.jobs == map[0 := 3 * DAY, 1 := 5 * DAY];
    hide Timers;
    assert IsOpenOn(D3.discrepancies, 0, FK);
    Forcing(D3, 1, 0, 5 * DAY);
    Deliverable(D3, 0, 1, 0, 5 * DAY);
    hide Apply, Allowed;
    assert D4.discrepancies == D3.discrepancies[0 := D3.discrepancies[0].(status := ForcedScFigure)];
    assert D3.facts[FK := Forced(REENTERED)] == D4.facts && D3.jobs - {1} == D4.jobs;
  }

  lemma ArchiveRows()
    ensures Apply(D4, DoArchive, 40 * DAY) == D5
  {
    hide Timers;
    assert forall key | key in D4.queue :: Archivable(D4.queue[key], 40 * DAY);
    hide Archivable;
    assert Archive(D4, 40 * DAY).queue == map[];
  }

  lemma ReachRepeating()
    ensures Reaches(REPEATING, D2, 0)
  {
    ReachVerifying();
    DisputeFirst();
    EnterAgain();
    hide Apply, Timers;
    Extend(VERIFYING, P4, 0, Step(DISPUTE, 0), D1);
    Extend(VERIFYING + [Step(DISPUTE, 0)], D1, 0, ENTER, D2);
  }

  lemma SendTwice()
    ensures NewlySaid(SubmitOne(D2, 1, "d", RAW, 0), Applied) && Apply(D2, SEND, 0) == D3
    ensures NewlySaid(SubmitOne(D5, 1, "d", RAW, 40 * DAY), Applied) && Apply(D5, SEND, 40 * DAY) == D6
  {
    hide Timers;
    Sending(D2, REENTERED, 0);
    Sending(D5, D5.facts[FK], 40 * DAY);
    hide SubmitOne;
  }

  const SENT_RUN := REPEATING + [Step(SEND, 0)]

  lemma ReachArchived()
    ensures Reaches(SENT_RUN + LATER, D5, 40 * DAY)
  {
    ReachRepeating();
    SendTwice();
    ForceRepeated();
    ArchiveRows();
    hide Apply, Timers, Allowed, SubmitOne, Reaches;
    assert Allowed(D2, 0, Step(SEND, 0)) && Allowed(D4, 5 * DAY, Step(DoArchive, 40 * DAY)) by { SyncAllowed(D2, D4); }
    Extend(REPEATING, D2, 0, Step(SEND, 0), D3);
    Extend(SENT_RUN, D3, 0, FORCE, D4);
    Extend(SENT_RUN + [FORCE], D4, 5 * DAY, Step(DoArchive, 40 * DAY), D5);
    assert SENT_RUN + LATER == SENT_RUN + [FORCE] + [Step(DoArchive, 40 * DAY)];
  }

  lemma SyncAllowed(d: Db, e: Db)
    ensures Allowed(d, 0, Step(SEND, 0)) && Allowed(e, 5 * DAY, Step(DoArchive, 40 * DAY))
      && Allowed(e, 40 * DAY, Step(SEND, 40 * DAY))
  {
  }

  /** Applied once is not promised for ever: in this run the same operation is applied, its row is
      archived after the retention, and it is applied again, taking back the figure that a timer
      forced in between. */
  lemma ReplayUndoesForcedFigure()
    ensures var all := SENT_RUN + LATER + [Step(SEND, 40 * DAY)];
      var d, e, last := Run(EmptyDb(SITES), REPEATING), Run(EmptyDb(SITES), SENT_RUN + LATER), Run(EmptyDb(SITES), all);
      && AllowedRun(EmptyDb(SITES), 0, all)
      && NewlySaid(SubmitOne(d, 1, "d", RAW, 0), Applied)
      && NewlySaid(SubmitOne(e, 1, "d", RAW, 40 * DAY), Applied)
      && FK in e.facts && e.facts[FK].accepted == Some(5.0) && e.facts[FK].discStatus == Some(FactForced)
      && FK in last.facts && last.facts[FK].accepted == None && last.facts[FK].discStatus == Some(FactOpen)
  {
    ReachRepeating();
    ReachArchived();
    SendTwice();
    SyncAllowed(D5, D5);
    hide Apply, Timers, Allowed, SubmitOne;
    Extend(SENT_RUN + LATER, D5, 40 * DAY, Step(SEND, 40 * DAY), D6);
    hide Run, AllowedRun;
  }
}

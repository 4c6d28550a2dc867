/** The tables of the construction-period domain, as one immutable value and as the
    mutable database the services write to. */
module Store {
  import opened Common

  type Time = int // milliseconds
  const DAY: Time := 86_400_000

  datatype Config = Config(avgPacePeriods: nat, decayFactor: real, spikeThreshold: real,
                           weightThreshold: real, forecastGapPeriods: real)

  const DEFAULT_CONFIG := Config(5, 0.8, 3.0, 0.1, 2.0)

  /** A construction object with the settings of its organization. */
  datatype Site = Site(org: int, config: Config)

  datatype Item = Item(id: int, lineage: int, workCode: string, plan: real, contract: real,
                       weight: Option<real>, critical: bool, active: bool, predecessor: Option<int>)

  /** A BoQ version; number counts tenths, so "1.3" is 13. */
  datatype Version = Version(site: int, number: nat, isActive: bool, items: seq<Item>)

  datatype RequestStatus = RequestPending | RequestApproved
  datatype Request = Request(site: int, item: int, newPlan: real, status: RequestStatus)

  datatype ReportStatus = Draft | PendingApproval | Approved | ReportRejected
  datatype ReportItem = ReportItem(factVolume: real, crossVerified: bool)
  datatype ZeroReport = ZeroReport(site: int, version: nat, status: ReportStatus, items: map<int, ReportItem>)

  /** A period is named by its unique key: the object and the number within the object. */
  datatype PeriodKey = PeriodKey(site: int, number: int)
  datatype PeriodStatus = Open | GpSubmitted | Verification | Closed | ForceClosed
  datatype Period = Period(version: nat, status: PeriodStatus, plannedPause: bool,
                           tokenExpiresAt: Option<Time>, gpSubmittedAt: Option<Time>)

  datatype FactKey = FactKey(period: PeriodKey, item: int)
  datatype SpikeResponse = PlannedConcentration | DataEntryError
  datatype FactStatus = FactOpen | FactConfirmed | FactForced
  datatype Fact = Fact(gp: Option<real>, gpNote: Option<string>, sc: Option<real>, accepted: Option<real>,
                       discType: Option<int>, discStatus: Option<FactStatus>,
                       spikeResponse: Option<SpikeResponse>, version: int)

  datatype PaceRow = PaceRow(volume: real, weightedPace: real, excluded: bool)
  datatype Snapshot = Snapshot(readiness: real, weightedDate: Option<real>, criticalDate: Option<real>,
                               gapFlag: bool, calculatedAt: Time)

  datatype DisputeStatus = DisputeOpen | ForcedScFigure
  datatype Discrepancy = Discrepancy(fact: FactKey, kind: int, status: DisputeStatus,
                                     gcResponseAt: Option<Time>, createdAt: Time)

  datatype Scenario = A | B
  datatype EventType = NotifyDay3 | ForceCloseDay5 | DirectorDeadlineDay7 | ScFigureDay14
  datatype SlaEvent = SlaEvent(fact: FactKey, scenario: Scenario, eventType: EventType, scheduledAt: Time,
                               executedAt: Option<Time>, isCancelled: bool)

  datatype OpKey = OpKey(device: string, clientOpId: string)
  datatype Payload = Payload(period: PeriodKey, item: int, sc: real, workAccessible: Option<bool>)
  datatype RowKind = SubmitFact(payload: Payload, lastKnownVersion: int) | UploadPhoto
  datatype RowStatus = Pending | Applied | Conflict | Rejected | Escalated
  datatype QueueRow = QueueRow(kind: RowKind, status: RowStatus, receivedAt: Time)

  datatype Db = Db(
    sites: map<int, Site>,
    versions: seq<Version>,
    nextItem: int,
    requests: seq<Request>,
    reports: seq<ZeroReport>,
    periods: map<PeriodKey, Period>,
    facts: map<FactKey, Fact>,
    spikes: set<FactKey>,
    pace: map<FactKey, PaceRow>,
    snaps: map<PeriodKey, Snapshot>,
    photos: set<(PeriodKey, Option<int>)>,
    discrepancies: seq<Discrepancy>,
    events: seq<SlaEvent>,
    jobs: map<nat, Time>,
    queue: map<OpKey, QueueRow>)

  class Database {
    var sites: map<int, Site>
    var versions: seq<Version>
    var nextItem: int
    var requests: seq<Request>
    var reports: seq<ZeroReport>
    var periods: map<PeriodKey, Period>
    var facts: map<FactKey, Fact>
    var spikes: set<FactKey>
    var pace: map<FactKey, PaceRow>
    var snaps: map<PeriodKey, Snapshot>
    var photos: set<(PeriodKey, Option<int>)>
    var discrepancies: seq<Discrepancy>
    var events: seq<SlaEvent>
    var jobs: map<nat, Time>
    var queue: map<OpKey, QueueRow>

    function View(): Db
      reads this
    {
      Db(sites, versions, nextItem, requests, reports, periods, facts, spikes, pace, snaps, photos,
         discrepancies, events, jobs, queue)
    }
  }

  /** The empty store, before any service call. */
  function EmptyDb(sites: map<int, Site>): Db {
    Db(sites, [], 1, [], [], map[], map[], {}, map[], map[], {}, [], [], map[], map[])
  }

  // ---- queries ----

  function ConfigOf(db: Db, site: int): Config {
    if site in db.sites then db.sites[site].config else DEFAULT_CONFIG
  }

  predicate ClosedStatus(s: PeriodStatus) { s == Closed || s == ForceClosed }

  predicate IsClosed(periods: map<PeriodKey, Period>, k: PeriodKey) {
    k in periods && ClosedStatus(periods[k].status)
  }

  /** The greatest closed period number of the object below n, or 0. */
  function PrevClosed(periods: map<PeriodKey, Period>, site: int, n: int): (m: int)
    ensures m == 0 || (0 < m < n && IsClosed(periods, PeriodKey(site, m)))
    ensures forall j :: 0 < j < n && IsClosed(periods, PeriodKey(site, j)) ==> j <= m
    decreases n
  {
    if n <= 1 then 0
    else if IsClosed(periods, PeriodKey(site, n - 1)) then n - 1
    else PrevClosed(periods, site, n - 1)
  }

  function Numbers(periods: map<PeriodKey, Period>, site: int): set<int> {
    set k | k in periods.Keys && k.site == site :: k.number
  }

  lemma MemberOf<T>(s: set<T>) returns (y: T)
    requires s != {}
    ensures y in s
  {
    y :| y in s;
  }

  predicate IsMax(s: set<int>, m: int) { m in s && forall x | x in s :: x <= m }

  lemma {:induction false} MaxExists(s: set<int>)
    requires s != {}
    ensures exists m :: IsMax(s, m)
    decreases s
  {
    var y := MemberOf(s);
    var rest := s - {y};
    if rest == {} {
      forall x | x in s ensures x <= y { assert x !in rest; }
      assert IsMax(s, y);
    } else {
      MaxExists(rest);
      var m :| IsMax(rest, m);
      var top := if m < y then y else m;
      forall x | x in s ensures x <= top { assert x == y || x in rest; }
      assert IsMax(s, top);
    }
  }

  /** The greatest period number of the object, or 0 when it has no period. */
  function LastNumber(periods: map<PeriodKey, Period>, site: int): (n: int)
    ensures Numbers(periods, site) == {} ==> n == 0
    ensures Numbers(periods, site) != {} ==> PeriodKey(site, n) in periods
    ensures forall k | k in periods && k.site == site :: k.number <= n
  {
    var s := Numbers(periods, site);
    assert forall k | k in periods && k.site == site :: k.number in s;
    if s == {} then 0
    else
      MaxExists(s);
      var m :| m in s && IsMax(s, m);
      m
  }

  predicate HasOpenPeriod(periods: map<PeriodKey, Period>, site: int) {
    exists k | k in periods.Keys :: k.site == site && periods[k].status == Open
  }

  /** The active BoQ version of the object. */
  function ActiveVersion(versions: seq<Version>, site: int): (v: Option<nat>)
    ensures v.Some? ==> v.value < |versions| && versions[v.value].site == site && versions[v.value].isActive
    ensures v.None? ==> forall i | 0 <= i < |versions| :: !(versions[i].site == site && versions[i].isActive)
  {
    if versions == [] then None
    else
      var last := |versions| - 1;
      if versions[last].site == site && versions[last].isActive then Some(last)
      else ActiveVersion(versions[..last], site)
  }

  function ItemsOf(db: Db, version: nat): seq<Item> {
    if version < |db.versions| then db.versions[version].items else []
  }

  function PeriodItems(db: Db, k: PeriodKey): seq<Item> {
    if k in db.periods then ItemsOf(db, db.periods[k].version) else []
  }

  predicate HasItem(items: seq<Item>, item: int) { exists x | x in items :: x.id == item }
}

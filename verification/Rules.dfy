/** The lifecycle of the audit rules: what is proposed, applied, counted and audited. */
module RuleSpec {
  import opened Common

  /** A rule of a working set. Numbers are None where the file holds no finite number;
      sessions is sessions_observed or sessions_in_quarantine. */
  datatype Entry = Entry(id: string, hasStatus: bool, transcript: bool, sessions: Option<real>, hits: Option<real>,
                         tp: Option<real>, fp: Option<real>, precision: Option<real>)
  datatype Gone = Gone(id: string, hasStatus: bool)
  datatype Sets = Sets(active: seq<Entry>, quarantine: seq<Entry>, deprecated: seq<Gone>)

  function Num(x: Option<real>): real { if x.Some? then x.value else 0.0 }

  // ---- token-rules-propose ----

  datatype Rolling = Rolling(deltaT: Option<real>, eResp: Option<real>)
  datatype Reason = Seasoned | NoHit | LowPrecision
  datatype Move = Move(id: string, reason: Reason)
  datatype Delta = Delta(promote: seq<Move>, deprecate: seq<Move>)

  const PROMOTE_MIN_SESSIONS := 3.0
  const PROMOTE_MIN_PRECISION := 0.7
  const PROMOTE_MIN_SAVINGS_PCT := 5.0
  const PROMOTE_MIN_E_RESP := 0.6
  const DEPRECATE_NOHIT_SESSIONS := 20.0
  const DEPRECATE_MAX_PRECISION := 0.4

  predicate Gates(r: Rolling) {
    && r.deltaT.Some? && r.deltaT.value <= -PROMOTE_MIN_SAVINGS_PCT
    && (r.eResp.None? || r.eResp.value >= PROMOTE_MIN_E_RESP)
  }

  predicate Promotable(e: Entry, r: Rolling) {
    !e.transcript && Num(e.sessions) >= PROMOTE_MIN_SESSIONS && e.precision.Some?
      && e.precision.value >= PROMOTE_MIN_PRECISION && Gates(r)
  }

  predicate NeverHit(e: Entry) { Num(e.sessions) >= DEPRECATE_NOHIT_SESSIONS && Num(e.hits) == 0.0 }

  predicate Imprecise(e: Entry) { e.precision.Some? && e.precision.value < DEPRECATE_MAX_PRECISION }

  function Promotions(quarantine: seq<Entry>, r: Rolling): seq<Move> {
    if quarantine == [] then []
    else (if Promotable(quarantine[0], r) then [Move(quarantine[0].id, Seasoned)]
      else []) + Promotions(quarantine[1..], r)
  }

  function Deprecations(active: seq<Entry>): seq<Move> {
    if active == [] then []
    else
      (if NeverHit(active[0]) then [Move(active[0].id, NoHit)]
       else if Imprecise(active[0]) then [Move(active[0].id, LowPrecision)] else [])
      + Deprecations(active[1..])
  }

  function Proposals(s: Sets, r: Rolling): Delta { Delta(Promotions(s.quarantine, r), Deprecations(s.active)) }

  // ---- token-rules-apply ----

  datatype DeltaError =
    | DuplicateId(id: string)
    | NotInQuarantine(id: string)
    | NeedsTranscript(id: string)
    | NotInActive(id: string)

  /** The first entry with the id. */
  function ById(es: seq<Entry>, id: string): Option<Entry> {
    if es == [] then None else if es[0].id == id then Some(es[0]) else ById(es[1..], id)
  }

  function MoveIds(ms: seq<Move>): (r: set<string>)
    ensures forall m | m in ms :: m.id in r
  {
    set m | m in ms :: m.id
  }

  function PromoteErrors(quarantine: seq<Entry>, ms: seq<Move>, seen: set<string>): seq<DeltaError>
    decreases |ms|
  {
    if ms == [] then []
    else
      var q := ById(quarantine, ms[0].id);
      (if ms[0].id in seen then [DuplicateId(ms[0].id)] else [])
      + (if q.None? then [NotInQuarantine(ms[0].id)] else if q.value.transcript then [NeedsTranscript(ms[0].id)]
        else [])
      + PromoteErrors(quarantine, ms[1..], seen + {ms[0].id})
  }

  function DeprecateErrors(active: seq<Entry>, ms: seq<Move>, seen: set<string>): seq<DeltaError>
    decreases |ms|
  {
    if ms == [] then []
    else
      (if ms[0].id in seen then [DuplicateId(ms[0].id)] else [])
      + (if ById(active, ms[0].id).None? then [NotInActive(ms[0].id)] else [])
      + DeprecateErrors(active, ms[1..], seen + {ms[0].id})
  }

  function DeltaErrors(s: Sets, d: Delta): seq<DeltaError> {
    PromoteErrors(s.quarantine, d.promote, {}) + DeprecateErrors(s.active, d.deprecate, MoveIds(d.promote))
  }

  /** The entries whose id is not in the set, as the file keeps them. */
  function Without(es: seq<Entry>, ids: set<string>): seq<Entry> {
    if es == [] then [] else (if es[0].id in ids then [] else [es[0]]) + Without(es[1..], ids)
  }

  function Promoted(q: Entry): Entry {
    Entry(q.id, true, false, Some(0.0), Some(Num(q.hits)), Some(Num(q.tp)), Some(Num(q.fp)), q.precision)
  }

  function PromotedAll(quarantine: seq<Entry>, ms: seq<Move>): seq<Entry> {
    if ms == [] then []
    else
      var q := ById(quarantine, ms[0].id);
      (if q.Some? then [Promoted(q.value)] else []) + PromotedAll(quarantine, ms[1..])
  }

  function DeprecatedAll(ms: seq<Move>): seq<Gone> {
    seq(|ms|, i requires 0 <= i < |ms| => Gone(ms[i].id, true))
  }

  /** What is read back after an entry was written: a status, and numbers for all counters. */
  function Emitted(e: Entry): Entry {
    e.(hasStatus := true, sessions := Some(Num(e.sessions)), hits := Some(Num(e.hits)), tp := Some(Num(e.tp)),
      fp := Some(Num(e.fp)))
  }

  function EmittedAll(es: seq<Entry>): seq<Entry> { seq(|es|, i requires 0 <= i < |es| => Emitted(es[i])) }

  /** Active entries are written without the transcript flag. */
  function EmittedActive(es: seq<Entry>): seq<Entry> {
    seq(|es|, i requires 0 <= i < |es| => Emitted(es[i]).(transcript := false))
  }

  function EmittedGone(gs: seq<Gone>): seq<Gone> { seq(|gs|, i requires 0 <= i < |gs| => Gone(gs[i].id, true)) }

  function AppliedSets(s: Sets, d: Delta): Sets {
    Sets(EmittedActive(Without(s.active, MoveIds(d.deprecate)) + PromotedAll(s.quarantine, d.promote)),
         EmittedAll(Without(s.quarantine, MoveIds(d.promote))),
         EmittedGone(s.deprecated + DeprecatedAll(d.deprecate)))
  }

  // ---- token-rules-count ----

  datatype Stat = Stat(hits: Option<real>, tp: Option<real>, fp: Option<real>)

  /** Rounds to four decimals. */
  function Round4(x: real): real { ((x * 10000.0 + 0.5).Floor as real) / 10000.0 }

  function DerivePrecision(tp: real, fp: real): Option<real> {
    if tp + fp > 0.0 then Some(Round4(tp / (tp + fp))) else None
  }

  function ApplyStats(e: Entry, stat: Option<Stat>): Entry {
    var s := if stat.Some? then stat.value else Stat(None, None, None);
    var tp, fp := Num(e.tp) + Num(s.tp), Num(e.fp) + Num(s.fp);
    e.(sessions := Some(Num(e.sessions) + 1.0), hits := Some(Num(e.hits) + Num(s.hits)),
       tp := Some(tp), fp := Some(fp), precision := DerivePrecision(tp, fp))
  }

  function StatOf(session: map<string, Stat>, id: string): Option<Stat> { if id in session then Some(session[id])
      else None }

  function CountedAll(es: seq<Entry>, session: map<string, Stat>): seq<Entry> {
    seq(|es|, i requires 0 <= i < |es| => ApplyStats(es[i], StatOf(session, es[i].id)))
  }

  function CountedSets(s: Sets, session: map<string, Stat>): Sets {
    s.(active := EmittedActive(CountedAll(s.active, session)),
      quarantine := EmittedAll(CountedAll(s.quarantine, session)))
  }

  // ---- the files and their audit ----

  datatype FileName = Baseline | Lock | ActiveYaml | QuarantineYaml | DeprecatedYaml | DeltaJson
  datatype Content =
    | BaselineRules(ids: seq<string>, hash: int)
    | LockHash(locked: int)
    | ActiveRules(active: seq<Entry>)
    | QuarantineRules(quarantine: seq<Entry>)
    | DeprecatedRules(deprecated: seq<Gone>)
    | ProposedDelta(delta: Delta)
    | Garbled

  type Files = map<FileName, Content>

  predicate Readable(f: Files) {
    && ActiveYaml in f && f[ActiveYaml].ActiveRules?
    && QuarantineYaml in f && f[QuarantineYaml].QuarantineRules?
    && DeprecatedYaml in f && f[DeprecatedYaml].DeprecatedRules?
  }

  function SetsOf(f: Files): Sets
    requires Readable(f)
  {
    Sets(f[ActiveYaml].active, f[QuarantineYaml].quarantine, f[DeprecatedYaml].deprecated)
  }

  function WithSets(f: Files, s: Sets): Files {
    f[ActiveYaml := ActiveRules(s.active)]
     [QuarantineYaml := QuarantineRules(s.quarantine)]
     [DeprecatedYaml := DeprecatedRules(s.deprecated)]
  }

  /** R- and three digits. */
  predicate IsRuleId(s: string) {
    |s| == 5 && s[..2] == "R-" && forall i | 2 <= i < 5 :: '0' <= s[i] <= '9'
  }

  datatype Tag = Tag(id: string, hasStatus: bool)

  function Tags(es: seq<Entry>): seq<Tag> { seq(|es|, i requires 0 <= i < |es| => Tag(es[i].id, es[i].hasStatus)) }

  function GoneTags(gs: seq<Gone>): seq<Tag> { seq(|gs|, i requires 0 <= i < |gs| => Tag(gs[i].id, gs[i].hasStatus)) }

  predicate TagOk(t: Tag, baseline: set<string>) { IsRuleId(t.id) && t.hasStatus && t.id in baseline }

  predicate TagsOk(ts: seq<Tag>, baseline: set<string>) { forall t | t in ts :: TagOk(t, baseline) }

  function IdSet(ts: seq<Tag>): set<string> { set t | t in ts :: t.id }

  function SeqSet(xs: seq<string>): set<string> { set x | x in xs }

  /** Every id is well formed, carries a status and belongs to the baseline; no id is in two
      working sets; every id of the baseline is in one. */
  predicate Partitioned(baseline: set<string>, s: Sets) {
    var a, q, d := IdSet(Tags(s.active)), IdSet(Tags(s.quarantine)), IdSet(GoneTags(s.deprecated));
    && TagsOk(Tags(s.active), baseline) && TagsOk(Tags(s.quarantine), baseline)
      && TagsOk(GoneTags(s.deprecated), baseline)
    && a !! q && a !! d && q !! d
    && baseline <= a + q + d
  }

  predicate Clean(f: Files) {
    && Baseline in f && f[Baseline].BaselineRules? && Readable(f)
    && Lock in f && f[Lock] == LockHash(f[Baseline].hash)
    && Partitioned(SeqSet(f[Baseline].ids), SetsOf(f))
  }

  /** The violations of one entry: a bad id, or else a missing status and an id outside the baseline. */
  function TagViolations(ts: seq<Tag>, baseline: set<string>): nat {
    if ts == [] then 0
    else
      (if !IsRuleId(ts[0].id) then 1
       else (if ts[0].hasStatus then 0 else 1) + (if ts[0].id in baseline then 0 else 1))
      + TagViolations(ts[1..], baseline)
  }

  predicate Auditable(f: Files) { Baseline in f && f[Baseline].BaselineRules? && Readable(f) }

  function SetViolations(baseline: set<string>, a: set<string>, q: set<string>, d: set<string>): nat {
    |a * q| + |a * d| + |q * d| + |baseline - (a + q + d)|
  }

  /** The number of violations the audit reports. */
  function Violations(f: Files): nat
    requires Auditable(f)
  {
    var baseline, s := SeqSet(f[Baseline].ids), SetsOf(f);
    (if Lock in f && f[Lock] == LockHash(f[Baseline].hash) then 0 else 1)
    + TagViolations(Tags(s.active), baseline) + TagViolations(Tags(s.quarantine), baseline)
    + TagViolations(GoneTags(s.deprecated), baseline)
    + SetViolations(baseline, IdSet(Tags(s.active)), IdSet(Tags(s.quarantine)), IdSet(GoneTags(s.deprecated)))
  }

  // ---- transactions and commands ----

  function Written(f: Files, writes: seq<(FileName, Content)>): Files
    decreases |writes|
  {
    if writes == [] then f else Written(f[writes[0].0 := writes[0].1], writes[1..])
  }

  datatype Change = Change(promoted: bool, id: string, reason: Reason)

  function Changes(promoted: bool, ms: seq<Move>): seq<Change> {
    seq(|ms|, i requires 0 <= i < |ms| => Change(promoted, ms[i].id, ms[i].reason))
  }

  datatype Verdict = NoDelta | EmptyDelta | Failed | Invalid(errors: seq<DeltaError>) | RolledBack | Done

  datatype Repo = Repo(files: Files, changelog: seq<Change>)

  function Applied(r: Repo): (Repo, Verdict) {
    if DeltaJson !in r.files then (r, NoDelta)
    else if !r.files[DeltaJson].ProposedDelta? then (r, Failed)
    else
      var d := r.files[DeltaJson].delta;
      if d.promote == [] && d.deprecate == [] then (r, EmptyDelta)
      else if !Readable(r.files) then (r, Failed)
      else
        var s := SetsOf(r.files);
        var errors := DeltaErrors(s, d);
        if errors != [] then (r, Invalid(errors))
        else
          var f := WithSets(r.files, AppliedSets(s, d));
          if !Clean(f) then (r, RolledBack)
          else (Repo(f - {DeltaJson}, r.changelog + (Changes(true, d.promote) + Changes(false, d.deprecate))), Done)
  }

  function Proposed(r: Repo, rolling: Rolling): Repo {
    if !(ActiveYaml in r.files && r.files[ActiveYaml].ActiveRules? && QuarantineYaml in r.files
      && r.files[QuarantineYaml].QuarantineRules?) then r
    else
      var d := Delta(Promotions(r.files[QuarantineYaml].quarantine, rolling), Deprecations(r.files[ActiveYaml].active));
      if d.promote == [] && d.deprecate == [] then r.(files := r.files - {DeltaJson})
      else r.(files := r.files[DeltaJson := ProposedDelta(d)])
  }

  function Counted(r: Repo, session: map<string, Stat>): Repo {
    if !(ActiveYaml in r.files && r.files[ActiveYaml].ActiveRules? && QuarantineYaml in r.files
      && r.files[QuarantineYaml].QuarantineRules?) then r
    else
      var f := r.files[ActiveYaml := ActiveRules(EmittedActive(CountedAll(r.files[ActiveYaml].active, session)))]
                      [QuarantineYaml := QuarantineRules(EmittedAll(CountedAll(r.files[QuarantineYaml].quarantine,
                        session)))];
      if Clean(f) then r.(files := f) else r
  }
}

/** The rule tools over the files of the repository, proved against RuleSpec. */
module RuleTools {
  import opened Common
  import opened RuleSpec

  method ComputeProposals(active: seq<Entry>, quarantine: seq<Entry>, rolling: Rolling) returns (delta: Delta)
    ensures delta == Delta(Promotions(quarantine, rolling), Deprecations(active))
  {
    var savingsGate := rolling.deltaT.Some? && rolling.deltaT.value <= -PROMOTE_MIN_SAVINGS_PCT;
    var qualityGate := rolling.eResp.None? || rolling.eResp.value >= PROMOTE_MIN_E_RESP;
    var promote: seq<Move> := [];
    for i := 0 to |quarantine|
      invariant promote + Promotions(quarantine[i..], rolling) == Promotions(quarantine, rolling)
    {
      var r := quarantine[i];
      assert quarantine[i..][0] == r && quarantine[i..][1..] == quarantine[i + 1..];
      ghost var before, tail := promote, Promotions(quarantine[i + 1..], rolling);
      if r.transcript {
        assert [] + tail == tail;
        continue;
      }
      var seasoned := Num(r.sessions) >= PROMOTE_MIN_SESSIONS;
      var precise := r.precision.Some? && r.precision.value >= PROMOTE_MIN_PRECISION;
      if seasoned && precise && savingsGate && qualityGate {
        promote := promote + [Move(r.id, Seasoned)];
        assert promote + tail == before + ([Move(r.id, Seasoned)] + tail);
      } else {
        assert [] + tail == tail;
      }
      hide Promotions;
    }
    assert promote == Promotions(quarantine, rolling) by { assert quarantine[|quarantine|..] == []
      && promote + [] == promote; }
    var deprecate := ComputeDeprecations(active);
    delta := Delta(promote, deprecate);
  }

  /** The second loop of computeProposals. */
  method ComputeDeprecations(active: seq<Entry>) returns (deprecate: seq<Move>)
    ensures deprecate == Deprecations(active)
  {
    deprecate := [];
    for i := 0 to |active|
      invariant deprecate + Deprecations(active[i..]) == Deprecations(active)
    {
      var r := active[i];
      assert active[i..][0] == r && active[i..][1..] == active[i + 1..];
      ghost var before, tail := deprecate, Deprecations(active[i + 1..]);
      var noHit := Num(r.sessions) >= DEPRECATE_NOHIT_SESSIONS && Num(r.hits) == 0.0;
      var lowPrec := r.precision.Some? && r.precision.value < DEPRECATE_MAX_PRECISION;
      if noHit || lowPrec {
        var m := Move(r.id, if noHit then NoHit else LowPrecision);
        deprecate := deprecate + [m];
        assert deprecate + tail == before + ([m] + tail);
      } else {
        assert [] + tail == tail;
      }
      hide Deprecations;
    }
    assert active[|active|..] == [];
  }

  function DuplicateError(id: string, seen: set<string>): seq<DeltaError> { if id in seen then [DuplicateId(id)]
      else [] }

  function PromoteError(quarantine: seq<Entry>, id: string): seq<DeltaError> {
    var q := ById(quarantine, id);
    if q.None? then [NotInQuarantine(id)] else if q.value.transcript then [NeedsTranscript(id)] else []
  }

  lemma Regroup(before: seq<DeltaError>, a: seq<DeltaError>, b: seq<DeltaError>, tail: seq<DeltaError>)
    ensures (before + a + b) + tail == before + (a + b + tail)
  {
  }

  method ValidatePromote(quarantine: seq<Entry>, ms: seq<Move>) returns (errs: seq<DeltaError>, seen: set<string>)
    ensures errs == PromoteErrors(quarantine, ms, {}) && seen == MoveIds(ms)
  {
    errs, seen := [], {};
    for i := 0 to |ms|
      invariant seen == MoveIds(ms[..i])
      invariant errs + PromoteErrors(quarantine, ms[i..], seen) == PromoteErrors(quarantine, ms, {})
    {
      var p := ms[i];
      assert ms[i..][0] == p && ms[i..][1..] == ms[i + 1..] && ms[..i + 1] == ms[..i] + [p];
      ghost var a, b := DuplicateError(p.id, seen), PromoteError(quarantine, p.id);
      Regroup(errs, a, b, PromoteErrors(quarantine, ms[i + 1..], seen + {p.id}));
      assert PromoteErrors(quarantine, ms[i..], seen) == a + b + PromoteErrors(quarantine, ms[i + 1..], seen + {p.id});
      ghost var before := errs;
      if p.id in seen { errs := errs + [DuplicateId(p.id)]; }
      assert errs == before + a;
      seen := seen + {p.id};
      var q := ById(quarantine, p.id);
      if q.None? { errs := errs + [NotInQuarantine(p.id)]; }
      else if q.value.transcript { errs := errs + [NeedsTranscript(p.id)]; }
      assert errs == before + a + b;
      hide PromoteErrors;
    }
    assert ms[..|ms|] == ms && ms[|ms|..] == [];
    assert errs + [] == errs;
  }

  /** The semantic validation of a delta, collecting every error in order. */
  method Validate(s: Sets, d: Delta) returns (errs: seq<DeltaError>)
    ensures errs == DeltaErrors(s, d)
  {
    var seen;
    errs, seen := ValidatePromote(s.quarantine, d.promote);
    for i := 0 to |d.deprecate|
      invariant errs + DeprecateErrors(s.active, d.deprecate[i..], seen) == DeltaErrors(s, d)
    {
      var p := d.deprecate[i];
      assert d.deprecate[i..][0] == p && d.deprecate[i..][1..] == d.deprecate[i + 1..];
      ghost var a, b := DuplicateError(p.id, seen), if ById(s.active, p.id).None? then [NotInActive(p.id)] else [];
      ghost var tail := DeprecateErrors(s.active, d.deprecate[i + 1..], seen + {p.id});
      Regroup(errs, a, b, tail);
      assert DeprecateErrors(s.active, d.deprecate[i..], seen) == a + b + tail;
      ghost var before := errs;
      if p.id in seen { errs := errs + [DuplicateId(p.id)]; }
      assert errs == before + a;
      seen := seen + {p.id};
      if ById(s.active, p.id).None? { errs := errs + [NotInActive(p.id)]; }
      assert errs == before + a + b;
      hide DeprecateErrors;
    }
    assert d.deprecate[|d.deprecate|..] == [];
    assert errs + [] == errs;
  }

  method CheckEntries(ts: seq<Tag>, baseline: set<string>) returns (violations: nat)
    ensures violations == TagViolations(ts, baseline)
  {
    violations := 0;
    for i := 0 to |ts|
      invariant violations + TagViolations(ts[i..], baseline) == TagViolations(ts, baseline)
    {
      var e := ts[i];
      assert ts[i..][0] == e && ts[i..][1..] == ts[i + 1..];
      if !IsRuleId(e.id) { violations := violations + 1; continue; }
      if !e.hasStatus { violations := violations + 1; }
      if e.id !in baseline { violations := violations + 1; }
    }
  }

  method CheckDisjoint(a: set<string>, b: set<string>) returns (violations: nat)
    ensures violations == |a * b|
  {
    violations := 0;
    var rest := a;
    while rest != {}
      invariant rest <= a
      invariant violations + |rest * b| == |a * b|
    {
      var id :| id in rest;
      if id in b {
        violations := violations + 1;
        assert rest * b == ((rest - {id}) * b) + {id};
      } else {
        assert rest * b == (rest - {id}) * b;
      }
      rest := rest - {id};
    }
    assert rest * b == {};
  }

  method CheckComplete(baseline: set<string>, a: set<string>, q: set<string>, d: set<string>) returns (violations: nat)
    ensures violations == |baseline - (a + q + d)|
  {
    violations := 0;
    var rest, placed := baseline, a + q + d;
    while rest != {}
      invariant rest <= baseline
      invariant violations + |rest - placed| == |baseline - placed|
    {
      var id :| id in rest;
      var count := (if id in a then 1 else 0) + (if id in q then 1 else 0) + (if id in d then 1 else 0);
      if count == 0 {
        violations := violations + 1;
        assert rest - placed == ((rest - {id}) - placed) + {id};
      } else {
        assert rest - placed == (rest - {id}) - placed;
      }
      rest := rest - {id};
    }
    assert rest - placed == {};
  }

  lemma {:induction false} NoTagViolations(ts: seq<Tag>, baseline: set<string>)
    ensures TagViolations(ts, baseline) == 0 <==> TagsOk(ts, baseline)
  {
    if ts != [] {
      NoTagViolations(ts[1..], baseline);
      assert ts[0] in ts && forall t | t in ts :: t == ts[0] || t in ts[1..];
    }
  }

  lemma NoSetViolations(baseline: set<string>, a: set<string>, q: set<string>, d: set<string>)
    ensures SetViolations(baseline, a, q, d) == 0 <==> a !! q && a !! d && q !! d && baseline <= a + q + d
  {
    NoneShared(a, q);
    NoneShared(a, d);
    NoneShared(q, d);
    NoneMissing(baseline, a + q + d);
  }

  lemma NoneMissing(a: set<string>, b: set<string>)
    ensures |a - b| == 0 <==> a <= b
  {
    assert |a - b| == 0 <==> a - b == {};
    if a - b == {} {
      forall x | x in a ensures x in b { assert x !in a - b; }
    }
  }

  lemma NoneShared(a: set<string>, b: set<string>)
    ensures |a * b| == 0 <==> a !! b
  {
    assert |a * b| == 0 <==> a * b == {};
    if a * b == {} {
      forall x | x in a ensures x !in b { assert x !in a * b; }
    }
  }

  /** The audit reports no violation exactly when the files are clean. */
  lemma NoViolationsIffClean(f: Files)
    requires Auditable(f)
    ensures Violations(f) == 0 <==> Clean(f)
  {
    var baseline, s := SeqSet(f[Baseline].ids), SetsOf(f);
    var a, q, d := Tags(s.active), Tags(s.quarantine), GoneTags(s.deprecated);
    NoTagViolations(a, baseline);
    NoTagViolations(q, baseline);
    NoTagViolations(d, baseline);
    NoSetViolations(baseline, IdSet(a), IdSet(q), IdSet(d));
    hide TagViolations, SetViolations, TagsOk, Tags, GoneTags, IdSet, SeqSet;
  }

  /** The audit of the rule files: the violations it counts, and its exit status. */
  method AuditRules(f: Files) returns (violations: nat, status: nat)
    ensures Auditable(f) ==> violations == Violations(f)
    ensures status == if Clean(f) then 0 else 1
  {
    if !(Baseline in f && f[Baseline].BaselineRules?) || !Readable(f) { return 0, 1; }
    violations := 0;
    var baselineIds := SeqSet(f[Baseline].ids);
    if Lock !in f { violations := violations + 1; }
    else if f[Lock] != LockHash(f[Baseline].hash) { violations := violations + 1; }
    var s := SetsOf(f);
    var active, quar, depr := Tags(s.active), Tags(s.quarantine), GoneTags(s.deprecated);
    var aIds, qIds, dIds := IdSet(active), IdSet(quar), IdSet(depr);
    var n1 := CheckEntries(active, baselineIds);
    var n2 := CheckEntries(quar, baselineIds);
    var n3 := CheckEntries(depr, baselineIds);
    var m1 := CheckDisjoint(aIds, qIds);
    var m2 := CheckDisjoint(aIds, dIds);
    var m3 := CheckDisjoint(qIds, dIds);
    var missing := CheckComplete(baselineIds, aIds, qIds, dIds);
    violations := violations + n1 + n2 + n3 + m1 + m2 + m3 + missing;
    NoViolationsIffClean(f);
    hide TagViolations, TagsOk, Tags, GoneTags, IdSet, SeqSet, Clean;
    status := if violations == 0 then 0 else 1;
  }

  lemma WrittenTwo(f: Files, a: (FileName, Content), b: (FileName, Content))
    ensures Written(f, [a, b]) == f[a.0 := a.1][b.0 := b.1]
  {
    assert [a, b][1..] == [b] && [b][1..] == [];
    assert Written(f[a.0 := a.1], [b]) == Written(f[a.0 := a.1][b.0 := b.1], []);
  }

  lemma WrittenThree(f: Files, a: (FileName, Content), b: (FileName, Content), c: (FileName, Content))
    ensures Written(f, [a, b, c]) == f[a.0 := a.1][b.0 := b.1][c.0 := c.1]
  {
    assert [a, b, c][1..] == [b, c];
    WrittenTwo(f[a.0 := a.1], b, c);
  }

  class RuleRepo {
    var files: Files
    var changelog: seq<Change>

    function View(): Repo reads this { Repo(files, changelog) }

    constructor (files: Files)
      ensures this.files == files && changelog == []
    {
      this.files := files;
      changelog := [];
    }

    /** Writes all the files, audits, and restores every one of them when the audit fails. */
    method CommitFiles(writes: seq<(FileName, Content)>) returns (ok: bool)
      modifies this`files
      ensures ok == Clean(Written(old(files), writes))
      ensures files == if ok then Written(old(files), writes) else old(files)
    {
      hide Clean, Auditable, Violations;
      ghost var before := files;
      var snap: seq<(FileName, Option<Content>)> := [];
      for i := 0 to |writes|
        invariant |snap| == i
        invariant forall j | 0 <= j < i ::
          snap[j] == (writes[j].0, if writes[j].0 in before then Some(before[writes[j].0]) else None)
      {
        var f := writes[i].0;
        snap := snap + [(f, if f in files then Some(files[f]) else None)];
      }
      for i := 0 to |writes|
        invariant Written(files, writes[i..]) == Written(before, writes)
        invariant forall f | !Writes(writes, f) :: Restored(files, before, f)
      {
        assert writes[i..][0] == writes[i] && writes[i..][1..] == writes[i + 1..];
        assert Writes(writes, writes[i].0);
        files := files[writes[i].0 := writes[i].1];
      }
      assert writes[|writes|..] == [];
      var violations, status := AuditRules(files);
      if status == 0 { return true; }
      for i := 0 to |snap|
        invariant forall j | 0 <= j < i :: Restored(files, before, snap[j].0)
        invariant forall f | !Writes(writes, f) :: Restored(files, before, f)
      {
        var f, c := snap[i].0, snap[i].1;
        assert snap[i].0 == writes[i].0 && Writes(writes, f);
        if c.None? { files := files - {f}; } else { files := files[f := c.value]; }
      }
      forall f ensures Restored(files, before, f) {
        if Writes(writes, f) {
          var j :| 0 <= j < |writes| && writes[j].0 == f;
          assert snap[j].0 == f;
        }
      }
      AllRestored(files, before);
      return false;
    }

    /** Writes or removes the proposed delta; the working sets stay as they are. */
    method Propose(rolling: Rolling)
      modifies this`files
      ensures View() == Proposed(old(View()), rolling)
    {
      if !(ActiveYaml in files && files[ActiveYaml].ActiveRules?) { return; }
      if !(QuarantineYaml in files && files[QuarantineYaml].QuarantineRules?) { return; }
      var delta := ComputeProposals(files[ActiveYaml].active, files[QuarantineYaml].quarantine, rolling);
      if |delta.promote| + |delta.deprecate| == 0 { files := files - {DeltaJson}; }
      else { files := files[DeltaJson := ProposedDelta(delta)]; }
    }

    method Apply() returns (v: Verdict)
      modifies this
      ensures (View(), v) == Applied(old(View()))
    {
      if DeltaJson !in files { return NoDelta; }
      if !files[DeltaJson].ProposedDelta? { return Failed; }
      var delta := files[DeltaJson].delta;
      if |delta.promote| + |delta.deprecate| == 0 { return EmptyDelta; }
      if !Readable(files) { return Failed; }
      var s := SetsOf(files);
      var errs := Validate(s, delta);
      if errs != [] { return Invalid(errs); }
      var t := AppliedSets(s, delta);
      var writes := [(ActiveYaml, ActiveRules(t.active)), (QuarantineYaml, QuarantineRules(t.quarantine)),
        (DeprecatedYaml, DeprecatedRules(t.deprecated))];
      ghost var before := files;
      WrittenThree(before, writes[0], writes[1], writes[2]);
      var ok := CommitFiles(writes);
      if !ok { return RolledBack; }
      changelog := changelog + (Changes(true, delta.promote) + Changes(false, delta.deprecate));
      files := files - {DeltaJson};
      return Done;
    }

    method Count(session: map<string, Stat>)
      modifies this`files
      ensures View() == Counted(old(View()), session)
    {
      if !(ActiveYaml in files && files[ActiveYaml].ActiveRules?) { return; }
      if !(QuarantineYaml in files && files[QuarantineYaml].QuarantineRules?) { return; }
      var newActive := CountedAll(files[ActiveYaml].active, session);
      var newQuar := CountedAll(files[QuarantineYaml].quarantine, session);
      var writes := [(ActiveYaml, ActiveRules(EmittedActive(newActive))),
        (QuarantineYaml, QuarantineRules(EmittedAll(newQuar)))];
      ghost var before := files;
      WrittenTwo(before, writes[0], writes[1]);
      var ok := CommitFiles(writes);
    }
  }

  lemma AllRestored(now: Files, before: Files)
    requires forall f :: Restored(now, before, f)
    ensures now == before
  {
    forall f ensures (f in now <==> f in before)
      && (f in now ==> now[f] == before[f]) { assert Restored(now, before, f); }
  }

  ghost predicate Writes(writes: seq<(FileName, Content)>, f: FileName) { exists j | 0 <= j < |writes| ::
      writes[j].0 == f }

  ghost predicate Restored(now: Files, before: Files, f: FileName) {
    (f in now <==> f in before) && (f in now ==> now[f] == before[f])
  }
}

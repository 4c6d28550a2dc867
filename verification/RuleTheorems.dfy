/** What the rule tools keep over every interleaving of proposing, applying and counting. */
module RuleTheorems {
  import opened Common
  import opened RuleSpec

  function EntryIds(es: seq<Entry>): set<string> { set e | e in es :: e.id }

  function GoneIds(gs: seq<Gone>): set<string> { set g | g in gs :: g.id }

  ghost predicate DupFree(es: seq<Entry>) { forall i, j | 0 <= i < j < |es| :: es[i].id != es[j].id }

  ghost predicate DistinctMoves(ms: seq<Move>) { forall i, j | 0 <= i < j < |ms| :: ms[i].id != ms[j].id }

  // ---- lists and their ids ----

  lemma {:induction false} TagIds(es: seq<Entry>)
    ensures IdSet(Tags(es)) == EntryIds(es)
    ensures forall baseline ::
      TagsOk(Tags(es), baseline) <==> forall e | e in es :: TagOk(Tag(e.id, e.hasStatus), baseline)
  {
    var ts := Tags(es);
    assert forall i | 0 <= i < |es| :: ts[i] in ts && es[i] in es && ts[i] == Tag(es[i].id, es[i].hasStatus);
    hide TagOk;
    assert forall t | t in ts :: exists e | e in es :: t == Tag(e.id, e.hasStatus);
    assert forall e | e in es :: Tag(e.id, e.hasStatus) in ts;
    hide Tags;
    forall x ensures x in IdSet(ts) <==> x in EntryIds(es) {}
  }

  lemma {:induction false} GoneTagIds(gs: seq<Gone>)
    ensures IdSet(GoneTags(gs)) == GoneIds(gs)
    ensures forall baseline ::
      TagsOk(GoneTags(gs), baseline) <==> forall g | g in gs :: TagOk(Tag(g.id, g.hasStatus), baseline)
  {
    var ts := GoneTags(gs);
    assert forall i | 0 <= i < |gs| :: ts[i] in ts && gs[i] in gs && ts[i] == Tag(gs[i].id, gs[i].hasStatus);
    hide TagOk;
    assert forall t | t in ts :: exists g | g in gs :: t == Tag(g.id, g.hasStatus);
    assert forall g | g in gs :: Tag(g.id, g.hasStatus) in ts;
    hide GoneTags;
    forall x ensures x in IdSet(ts) <==> x in GoneIds(gs) {}
  }

  lemma {:induction false} WithoutIds(es: seq<Entry>, ids: set<string>)
    ensures forall e :: e in Without(es, ids) <==> e in es && e.id !in ids
    ensures DupFree(es) ==> DupFree(Without(es, ids))
  {
    if es != [] {
      WithoutIds(es[1..], ids);
      assert forall e :: e in es <==> e == es[0] || e in es[1..];
      var rest := Without(es[1..], ids);
      if DupFree(es) {
        assert forall e | e in es[1..] :: e.id != es[0].id;
        assert forall i | 0 <= i < |rest| :: rest[i] in rest && rest[i].id != es[0].id;
      }
    }
  }

  lemma {:induction false} ByIdFinds(es: seq<Entry>, id: string)
    ensures ById(es, id).Some? <==> id in EntryIds(es)
    ensures ById(es, id).Some? ==> ById(es, id).value in es && ById(es, id).value.id == id
    ensures DupFree(es) ==> forall e | e in es && e.id == id :: ById(es, id) == Some(e)
  {
    if es != [] {
      assert forall e :: e in es <==> e == es[0] || e in es[1..];
      if es[0].id != id { ByIdFinds(es[1..], id); }
      else if DupFree(es) { assert forall e | e in es[1..] :: e.id != id; }
    }
  }

  lemma {:induction false} DupFreeCard(es: seq<Entry>)
    requires DupFree(es)
    ensures |EntryIds(es)| == |es|
  {
    if es != [] {
      DupFreeCard(es[1..]);
      assert forall e :: e in es <==> e == es[0] || e in es[1..];
      assert EntryIds(es) == {es[0].id} + EntryIds(es[1..]);
      assert es[0].id !in EntryIds(es[1..]);
    }
  }

  lemma {:induction false} MovesCard(ms: seq<Move>)
    requires DistinctMoves(ms)
    ensures |MoveIds(ms)| == |ms|
  {
    if ms != [] {
      MovesCard(ms[1..]);
      assert forall m :: m in ms <==> m == ms[0] || m in ms[1..];
      assert MoveIds(ms) == {ms[0].id} + MoveIds(ms[1..]);
      assert ms[0].id !in MoveIds(ms[1..]);
    }
  }

  lemma {:induction false} WithoutCard(es: seq<Entry>, ms: seq<Move>)
    requires DupFree(es) && DistinctMoves(ms) && MoveIds(ms) <= EntryIds(es)
    ensures |Without(es, MoveIds(ms))| == |es| - |ms|
  {
    var rest := Without(es, MoveIds(ms));
    WithoutIds(es, MoveIds(ms));
    DupFreeCard(es);
    DupFreeCard(rest);
    MovesCard(ms);
    assert EntryIds(rest) == EntryIds(es) - MoveIds(ms);
  }

  // ---- what apply's validation accepts ----

  ghost predicate PromoteValid(quarantine: seq<Entry>, m: Move) {
    var q := ById(quarantine, m.id);
    q.Some? && !q.value.transcript
  }

  lemma {:induction false} PromoteErrorsIff(quarantine: seq<Entry>, ms: seq<Move>, seen: set<string>)
    ensures PromoteErrors(quarantine, ms, seen) == []
      <==> DistinctMoves(ms) && MoveIds(ms) !! seen && forall m | m in ms :: PromoteValid(quarantine, m)
    decreases |ms|
  {
    hide ById;
    if ms != [] {
      PromoteErrorsIff(quarantine, ms[1..], seen + {ms[0].id});
      assert forall m :: m in ms <==> m == ms[0] || m in ms[1..];
      assert MoveIds(ms) == {ms[0].id} + MoveIds(ms[1..]);
      DistinctTail(ms);
    }
  }

  lemma {:induction false} DistinctTail(ms: seq<Move>)
    requires ms != []
    ensures DistinctMoves(ms) <==> DistinctMoves(ms[1..]) && ms[0].id !in MoveIds(ms[1..])
  {
    var rest := ms[1..];
    if DistinctMoves(ms) {
      assert forall j | 0 <= j < |rest| :: rest[j] == ms[j + 1];
    }
    if DistinctMoves(rest) && ms[0].id !in MoveIds(rest) {
      forall i, j | 0 <= i < j < |ms| ensures ms[i].id != ms[j].id {
        assert ms[j] == rest[j - 1] && rest[j - 1] in rest;
        if i > 0 { assert ms[i] == rest[i - 1]; }
      }
    }
  }

  lemma {:induction false} DeprecateErrorsIff(active: seq<Entry>, ms: seq<Move>, seen: set<string>)
    ensures DeprecateErrors(active, ms, seen) == []
      <==> DistinctMoves(ms) && MoveIds(ms) !! seen && MoveIds(ms) <= EntryIds(active)
    decreases |ms|
  {
    hide ById;
    if ms != [] {
      DeprecateErrorsIff(active, ms[1..], seen + {ms[0].id});
      ByIdFinds(active, ms[0].id);
      assert forall m :: m in ms <==> m == ms[0] || m in ms[1..];
      assert MoveIds(ms) == {ms[0].id} + MoveIds(ms[1..]);
      DistinctTail(ms);
    }
  }

  /** The validation accepts a delta exactly when no id occurs twice in it, each promotion names
      a quarantined rule that needs no transcript, and each deprecation an active rule. */
  lemma DeltaValidIff(s: Sets, d: Delta)
    ensures DeltaErrors(s, d) == []
      <==> DistinctMoves(d.promote) && DistinctMoves(d.deprecate) && MoveIds(d.promote) !! MoveIds(d.deprecate)
           && (forall m | m in d.promote :: PromoteValid(s.quarantine, m)) && MoveIds(d.deprecate) <= EntryIds(s.active)
  {
    PromoteErrorsIff(s.quarantine, d.promote, {});
    DeprecateErrorsIff(s.active, d.deprecate, MoveIds(d.promote));
    hide PromoteErrors, DeprecateErrors;
  }

  // ---- what is proposed ----

  lemma {:induction false} PromotionsIff(quarantine: seq<Entry>, r: Rolling)
    ensures forall id ::
      id in MoveIds(Promotions(quarantine, r)) <==> exists e | e in quarantine :: e.id == id && Promotable(e, r)
    ensures DupFree(quarantine) ==> DistinctMoves(Promotions(quarantine, r))
  {
    hide Promotable;
    if quarantine != [] {
      var e0, rest := quarantine[0], Promotions(quarantine[1..], r);
      PromotionsIff(quarantine[1..], r);
      assert forall e :: e in quarantine <==> e == e0 || e in quarantine[1..];
      if Promotable(e0, r) {
        var ms := [Move(e0.id, Seasoned)] + rest;
        assert Promotions(quarantine, r) == ms;
        assert forall m :: m in ms <==> m == ms[0] || m in rest;
        assert MoveIds(ms) == {e0.id} + MoveIds(rest);
        assert ms[1..] == rest;
        if DupFree(quarantine) {
          assert forall e | e in quarantine[1..] :: e.id != e0.id;
          DistinctTail(ms);
        }
      } else {
        assert Promotions(quarantine, r) == rest;
      }
    }
  }

  lemma {:induction false} DeprecationsIff(active: seq<Entry>)
    ensures forall id ::
      id in MoveIds(Deprecations(active)) <==> exists e | e in active :: e.id == id && (NeverHit(e) || Imprecise(e))
    ensures DupFree(active) ==> DistinctMoves(Deprecations(active))
  {
    hide NeverHit, Imprecise;
    if active != [] {
      var e0, rest := active[0], Deprecations(active[1..]);
      DeprecationsIff(active[1..]);
      assert forall e :: e in active <==> e == e0 || e in active[1..];
      if NeverHit(e0) || Imprecise(e0) {
        var ms := [Move(e0.id, if NeverHit(e0) then NoHit else LowPrecision)] + rest;
        assert Deprecations(active) == ms;
        assert forall m :: m in ms <==> m == ms[0] || m in rest;
        assert MoveIds(ms) == {e0.id} + MoveIds(rest);
        assert ms[1..] == rest;
        if DupFree(active) {
          assert forall e | e in active[1..] :: e.id != e0.id;
          DistinctTail(ms);
        }
      } else {
        assert Deprecations(active) == rest;
      }
    }
  }

  /** No two of the entries that meet the criterion have the same id. */
  ghost predicate Alone(es: seq<Entry>, wanted: seq<bool>)
    requires |wanted| == |es|
  {
    forall i, j | 0 <= i < j < |es| && wanted[i] && wanted[j] :: es[i].id != es[j].id
  }

  function Wanted(es: seq<Entry>, r: Rolling): (w: seq<bool>)
    ensures |w| == |es|
  {
    seq(|es|, i requires 0 <= i < |es| => Promotable(es[i], r))
  }

  function Unwanted(es: seq<Entry>): (w: seq<bool>)
    ensures |w| == |es|
  {
    seq(|es|, i requires 0 <= i < |es| => NeverHit(es[i]) || Imprecise(es[i]))
  }

  lemma {:induction false} AloneTail(es: seq<Entry>, w: seq<bool>)
    requires es != [] && |w| == |es|
    ensures Alone(es, w)
      <==> Alone(es[1..], w[1..]) && (w[0] ==> forall i | 1 <= i < |es| && w[i] :: es[i].id != es[0].id)
  {
    var fs, v := es[1..], w[1..];
    assert forall i | 0 <= i < |fs| :: fs[i] == es[i + 1] && v[i] == w[i + 1];
    if Alone(fs, v) && (w[0] ==> forall i | 1 <= i < |es| && w[i] :: es[i].id != es[0].id) {
      forall i, j | 0 <= i < j < |es| && w[i] && w[j] ensures es[i].id != es[j].id {
        if i > 0 { assert fs[i - 1].id != fs[j - 1].id; }
      }
    }
  }

  lemma {:induction false} PromotedLater(quarantine: seq<Entry>, r: Rolling, id: string)
    requires quarantine != []
    ensures id in MoveIds(Promotions(quarantine[1..], r)) <==>
      exists i | 1 <= i < |quarantine| :: Wanted(quarantine, r)[i] && quarantine[i].id == id
  {
    var w := Wanted(quarantine, r);
    PromotionsIff(quarantine[1..], r);
    hide Promotions;
    assert forall i | 1 <= i < |quarantine| ::
      quarantine[i] in quarantine[1..] && (w[i] <==> Promotable(quarantine[i], r));
    hide Promotable, Wanted, MoveIds;
  }

  lemma {:induction false} PromotionsDistinctIff(quarantine: seq<Entry>, r: Rolling)
    ensures DistinctMoves(Promotions(quarantine, r)) <==> Alone(quarantine, Wanted(quarantine, r))
  {
    hide Promotable, Alone, DistinctMoves;
    if quarantine == [] {
      NothingDistinct(quarantine, Wanted(quarantine, r), Promotions(quarantine, r));
    } else {
      var e0, rest, w := quarantine[0], Promotions(quarantine[1..], r), Wanted(quarantine, r);
      PromotionsDistinctIff(quarantine[1..], r);
      AloneTail(quarantine, w);
      assert w[1..] == Wanted(quarantine[1..], r);
      assert w[0] <==> Promotable(e0, r);
      if w[0] {
        var ms := [Move(e0.id, Seasoned)] + rest;
        assert Promotions(quarantine, r) == ms && ms[1..] == rest;
        DistinctTail(ms);
        SomeLater(quarantine, w, e0.id);
        PromotedLater(quarantine, r, e0.id);
      } else {
        assert Promotions(quarantine, r) == rest;
      }
    }
  }

  lemma {:induction false} SomeLater(es: seq<Entry>, w: seq<bool>, id: string)
    requires |w| == |es| && es != []
    ensures (forall i | 1 <= i < |es| && w[i] :: es[i].id != id)
      <==> !exists i | 1 <= i < |es| :: w[i] && es[i].id == id
  {
  }

  lemma {:induction false} DeprecatedLater(active: seq<Entry>, id: string)
    requires active != []
    ensures id in MoveIds(Deprecations(active[1..]))
      <==> exists i | 1 <= i < |active| :: Unwanted(active)[i] && active[i].id == id
  {
    var w := Unwanted(active);
    DeprecationsIff(active[1..]);
    hide Deprecations;
    assert forall i | 1 <= i < |active| ::
      active[i] in active[1..] && (w[i] <==> NeverHit(active[i]) || Imprecise(active[i]));
    hide NeverHit, Imprecise, Unwanted, MoveIds;
  }

  lemma {:induction false} DeprecationsDistinctIff(active: seq<Entry>)
    ensures DistinctMoves(Deprecations(active)) <==> Alone(active, Unwanted(active))
  {
    hide NeverHit, Imprecise, Alone, DistinctMoves;
    if active == [] {
      NothingDistinct(active, Unwanted(active), Deprecations(active));
    } else {
      var e0, rest, w := active[0], Deprecations(active[1..]), Unwanted(active);
      DeprecationsDistinctIff(active[1..]);
      AloneTail(active, w);
      assert w[1..] == Unwanted(active[1..]);
      assert w[0] <==> NeverHit(e0) || Imprecise(e0);
      if w[0] {
        var ms := [Move(e0.id, if NeverHit(e0) then NoHit else LowPrecision)] + rest;
        assert Deprecations(active) == ms && ms[1..] == rest;
        DistinctTail(ms);
        SomeLater(active, w, e0.id);
        DeprecatedLater(active, e0.id);
      } else {
        assert Deprecations(active) == rest;
      }
    }
  }

  lemma {:induction false} NothingDistinct(es: seq<Entry>, w: seq<bool>, ms: seq<Move>)
    requires es == [] && w == [] && ms == []
    ensures DistinctMoves(ms) && Alone(es, w)
  {
  }

  /** The working sets without an id twice, disjoint and filling the baseline. */
  ghost predicate WellKept(baseline: set<string>, s: Sets) {
    Partitioned(baseline, s) && DupFree(s.active) && DupFree(s.quarantine)
  }

  lemma PartitionedMeans(baseline: set<string>, s: Sets)
    ensures Partitioned(baseline, s) <==>
      && (forall e | e in s.active :: TagOk(Tag(e.id, e.hasStatus), baseline))
      && (forall e | e in s.quarantine :: TagOk(Tag(e.id, e.hasStatus), baseline))
      && (forall g | g in s.deprecated :: TagOk(Tag(g.id, g.hasStatus), baseline))
      && EntryIds(s.active) !! EntryIds(s.quarantine) && EntryIds(s.active) !! GoneIds(s.deprecated)
      && EntryIds(s.quarantine) !! GoneIds(s.deprecated)
      && baseline <= EntryIds(s.active) + EntryIds(s.quarantine) + GoneIds(s.deprecated)
  {
    TagIds(s.active);
    TagIds(s.quarantine);
    GoneTagIds(s.deprecated);
    hide TagOk, Tags, GoneTags, TagsOk, IdSet, EntryIds, GoneIds;
  }

  /** From well-kept sets every delta that is proposed passes the validation. */
  lemma ProposalsAreValid(baseline: set<string>, s: Sets, r: Rolling)
    requires WellKept(baseline, s)
    ensures DeltaErrors(s, Proposals(s, r)) == []
  {
    var d := Proposals(s, r);
    PartitionedMeans(baseline, s);
    PromotionsIff(s.quarantine, r);
    DeprecationsIff(s.active);
    hide Partitioned, Promotions, Deprecations, NeverHit, Imprecise, DeltaErrors;
    forall m | m in d.promote ensures PromoteValid(s.quarantine, m) {
      assert m.id in MoveIds(d.promote);
      var e :| e in s.quarantine && e.id == m.id && Promotable(e, r);
      ByIdFinds(s.quarantine, m.id);
    }
    assert MoveIds(d.promote) <= EntryIds(s.quarantine);
    assert MoveIds(d.deprecate) <= EntryIds(s.active);
    DeltaValidIff(s, d);
  }

  /** The first entry with the id needs no transcript. */
  predicate FirstNeedsNone(es: seq<Entry>, id: string) {
    var e := ById(es, id);
    e.Some? ==> !e.value.transcript
  }

  /** From partitioned sets, duplicates or not, a proposed delta passes the validation exactly when
      no id is proposed twice and the first quarantined rule of each proposed id needs no
      transcript. */
  lemma ProposalsValidIff(baseline: set<string>, s: Sets, r: Rolling)
    requires Partitioned(baseline, s)
    ensures DeltaErrors(s, Proposals(s, r)) == [] <==>
      && Alone(s.quarantine, Wanted(s.quarantine, r)) && Alone(s.active, Unwanted(s.active))
      && (forall e | e in s.quarantine && Promotable(e, r) :: FirstNeedsNone(s.quarantine, e.id))
  {
    var d := Proposals(s, r);
    PartitionedMeans(baseline, s);
    PromotionsIff(s.quarantine, r);
    PromotionsDistinctIff(s.quarantine, r);
    DeprecationsIff(s.active);
    DeprecationsDistinctIff(s.active);
    DeltaValidIff(s, d);
    hide Partitioned, Promotions, Deprecations, NeverHit, Imprecise, Promotable, DeltaErrors, Alone, DistinctMoves,
      Wanted, Unwanted;
    assert MoveIds(d.promote) <= EntryIds(s.quarantine);
    assert MoveIds(d.deprecate) <= EntryIds(s.active);
    PromotesValidIff(s.quarantine, d.promote, r);
  }

  lemma {:induction false} PromotesValidIff(quarantine: seq<Entry>, ms: seq<Move>, r: Rolling)
    requires forall id :: id in MoveIds(ms) <==> exists e | e in quarantine :: e.id == id && Promotable(e, r)
    ensures (forall m | m in ms :: PromoteValid(quarantine, m))
      <==> forall e | e in quarantine && Promotable(e, r) :: FirstNeedsNone(quarantine, e.id)
  {
    hide Promotable;
    forall e | e in quarantine ensures ById(quarantine, e.id).Some? {
      assert e.id in EntryIds(quarantine);
      ByIdFinds(quarantine, e.id);
    }
    hide ById;
    forall m | m in ms
      ensures exists e | e in quarantine :: e.id == m.id && Promotable(e, r) { assert m.id in MoveIds(ms); }
    forall e | e in quarantine && Promotable(e, r)
      ensures exists m | m in ms :: m.id == e.id { assert e.id in MoveIds(ms); }
  }

  // ---- what applying keeps ----

  lemma {:induction false} PromotedEach(quarantine: seq<Entry>, ms: seq<Move>)
    requires forall m | m in ms :: PromoteValid(quarantine, m)
    ensures |PromotedAll(quarantine, ms)| == |ms|
    ensures forall i | 0 <= i < |ms| ::
      ById(quarantine, ms[i].id).Some? && PromotedAll(quarantine, ms)[i] == Promoted(ById(quarantine, ms[i].id).value)
    ensures forall i | 0 <= i < |ms| :: PromotedAll(quarantine, ms)[i].id == ms[i].id
  {
    if ms != [] {
      assert ms[0] in ms && forall m | m in ms[1..] :: m in ms;
      ByIdFinds(quarantine, ms[0].id);
      PromotedEach(quarantine, ms[1..]);
      hide ById;
    }
  }

  lemma {:induction false} PromotedIds(quarantine: seq<Entry>, ms: seq<Move>)
    requires forall m | m in ms :: PromoteValid(quarantine, m)
    ensures EntryIds(PromotedAll(quarantine, ms)) == MoveIds(ms)
      && (DistinctMoves(ms) ==> DupFree(PromotedAll(quarantine, ms)))
  {
    PromotedEach(quarantine, ms);
    var es := PromotedAll(quarantine, ms);
    assert forall i | 0 <= i < |ms| :: es[i] in es && ms[i] in ms && es[i].id == ms[i].id;
    hide PromotedAll, ById;
    forall x ensures x in EntryIds(es) <==> x in MoveIds(ms) {}
  }

  lemma {:induction false} EmittedIds(es: seq<Entry>)
    ensures EntryIds(EmittedAll(es)) == EntryIds(es) && EntryIds(EmittedActive(es)) == EntryIds(es)
    ensures DupFree(es) ==> DupFree(EmittedAll(es)) && DupFree(EmittedActive(es))
  {
    var a, b := EmittedAll(es), EmittedActive(es);
    assert forall i | 0 <= i < |es| ::
      a[i] in a && b[i] in b && es[i] in es && a[i].id == es[i].id && b[i].id == es[i].id;
    hide EmittedAll, EmittedActive;
    forall x ensures (x in EntryIds(a) <==> x in EntryIds(es)) && (x in EntryIds(b) <==> x in EntryIds(es)) {}
  }

  lemma {:induction false} JoinedDupFree(xs: seq<Entry>, ys: seq<Entry>)
    requires DupFree(xs) && DupFree(ys) && EntryIds(xs) !! EntryIds(ys)
    ensures DupFree(xs + ys)
  {
    var zs := xs + ys;
    forall i, j | 0 <= i < j < |zs| ensures zs[i].id != zs[j].id {
      if j < |xs| { assert zs[i] == xs[i] && zs[j] == xs[j]; }
      else if i < |xs| { assert xs[i].id in EntryIds(xs) && ys[j - |xs|].id in EntryIds(ys); }
      else { assert zs[i] == ys[i - |xs|] && zs[j] == ys[j - |xs|]; }
    }
  }

  lemma {:induction false} GoneJoined(gs: seq<Gone>, ms: seq<Move>)
    ensures GoneIds(EmittedGone(gs + DeprecatedAll(ms))) == GoneIds(gs) + MoveIds(ms)
    ensures forall g | g in EmittedGone(gs + DeprecatedAll(ms)) :: g.hasStatus
  {
    var hs, ds := gs + DeprecatedAll(ms), DeprecatedAll(ms);
    var es := EmittedGone(hs);
    assert forall i | 0 <= i < |ms| :: ds[i] in ds && ms[i] in ms && ds[i].id == ms[i].id;
    assert GoneIds(ds) == MoveIds(ms);
    assert forall i | 0 <= i < |hs| :: es[i] in es && hs[i] in hs && es[i].id == hs[i].id;
    assert GoneIds(es) == GoneIds(hs);
    assert forall h :: h in hs <==> h in gs || h in ds;
  }

  lemma {:induction false} PromoteNamesQuarantined(quarantine: seq<Entry>, ms: seq<Move>)
    requires forall m | m in ms :: PromoteValid(quarantine, m)
    ensures MoveIds(ms) <= EntryIds(quarantine)
  {
    forall m | m in ms ensures m.id in EntryIds(quarantine) {
      assert PromoteValid(quarantine, m);
      ByIdFinds(quarantine, m.id);
    }
  }

  lemma {:induction false} WithoutEntryIds(es: seq<Entry>, ids: set<string>)
    ensures EntryIds(Without(es, ids)) == EntryIds(es) - ids
  {
    WithoutIds(es, ids);
    hide Without;
  }

  lemma {:induction false} JoinedIds(xs: seq<Entry>, ys: seq<Entry>)
    ensures EntryIds(xs + ys) == EntryIds(xs) + EntryIds(ys)
  {
    assert forall e :: e in xs + ys <==> e in xs || e in ys;
  }

  /** Where the ids are after a valid delta was applied. */
  lemma AppliedIds(s: Sets, d: Delta)
    requires DeltaErrors(s, d) == []
    ensures var t := AppliedSets(s, d);
      && MoveIds(d.promote) <= EntryIds(s.quarantine) && MoveIds(d.deprecate) <= EntryIds(s.active)
      && EntryIds(t.active) == EntryIds(s.active) - MoveIds(d.deprecate) + MoveIds(d.promote)
      && EntryIds(t.quarantine) == EntryIds(s.quarantine) - MoveIds(d.promote)
      && GoneIds(t.deprecated) == GoneIds(s.deprecated) + MoveIds(d.deprecate)
  {
    DeltaValidIff(s, d);
    PromoteNamesQuarantined(s.quarantine, d.promote);
    PromotedIds(s.quarantine, d.promote);
    hide DeltaErrors, DistinctMoves, PromoteValid, Without, PromotedAll, EmittedGone, EmittedAll, EmittedActive,
      Promoted, EntryIds, GoneIds, MoveIds;
    var kept, moved := Without(s.active, MoveIds(d.deprecate)), PromotedAll(s.quarantine, d.promote);
    WithoutEntryIds(s.active, MoveIds(d.deprecate));
    WithoutEntryIds(s.quarantine, MoveIds(d.promote));
    GoneJoined(s.deprecated, d.deprecate);
    EmittedIds(kept + moved);
    EmittedIds(Without(s.quarantine, MoveIds(d.promote)));
    JoinedIds(kept, moved);
  }

  lemma {:induction false} IdsOk(ids: set<string>, baseline: set<string>, es: seq<Entry>)
    requires EntryIds(es) <= ids && forall x | x in ids :: IsRuleId(x) && x in baseline
    requires forall e | e in es :: e.hasStatus
    ensures forall e | e in es :: TagOk(Tag(e.id, e.hasStatus), baseline)
  {
    hide IsRuleId;
    forall e | e in es ensures TagOk(Tag(e.id, e.hasStatus), baseline) { assert e.id in EntryIds(es); }
  }

  lemma AllIds(baseline: set<string>, s: Sets)
    requires Partitioned(baseline, s)
    ensures forall x | x in EntryIds(s.active) + EntryIds(s.quarantine) + GoneIds(s.deprecated) ::
      IsRuleId(x) && x in baseline
  {
    PartitionedMeans(baseline, s);
    hide Partitioned, IsRuleId;
  }

  /** Applying any valid delta keeps each id of the baseline in exactly one working set: the
      audit after the write passes, and nothing is rolled back. */
  lemma ApplyKeepsPartition(baseline: set<string>, s: Sets, d: Delta)
    requires Partitioned(baseline, s) && DeltaErrors(s, d) == []
    ensures Partitioned(baseline, AppliedSets(s, d))
  {
    var t := AppliedSets(s, d);
    AppliedIds(s, d);
    AllIds(baseline, s);
    PartitionedMeans(baseline, s);
    GoneJoined(s.deprecated, d.deprecate);
    assert forall e | e in t.active :: e.hasStatus;
    assert forall e | e in t.quarantine :: e.hasStatus;
    hide AppliedSets, Partitioned, DeltaErrors, IsRuleId;
    var all := EntryIds(s.active) + EntryIds(s.quarantine) + GoneIds(s.deprecated);
    IdsOk(all, baseline, t.active);
    IdsOk(all, baseline, t.quarantine);
    forall g | g in t.deprecated
      ensures TagOk(Tag(g.id, g.hasStatus), baseline) { assert g.id in GoneIds(t.deprecated); }
    hide EntryIds, GoneIds, TagOk;
    PartitionedMeans(baseline, t);
  }

  function Measure(s: Sets): nat { 2 * |s.quarantine| + |s.active| }

  lemma {:induction false} EmittedCard(es: seq<Entry>)
    ensures |EmittedAll(es)| == |es| && |EmittedActive(es)| == |es|
  {
  }

  lemma AppliedDupFree(s: Sets, d: Delta)
    requires DupFree(s.active) && DupFree(s.quarantine) && DeltaErrors(s, d) == []
    requires EntryIds(s.active) !! EntryIds(s.quarantine)
    ensures var t := AppliedSets(s, d);
      && DupFree(t.active) && DupFree(t.quarantine)
      && |t.active| == |s.active| - |d.deprecate| + |d.promote| && |t.quarantine| == |s.quarantine| - |d.promote|
  {
    DeltaValidIff(s, d);
    AppliedIds(s, d);
    hide DeltaErrors;
    var kept, moved := Without(s.active, MoveIds(d.deprecate)), PromotedAll(s.quarantine, d.promote);
    WithoutIds(s.active, MoveIds(d.deprecate));
    WithoutIds(s.quarantine, MoveIds(d.promote));
    WithoutCard(s.active, d.deprecate);
    WithoutCard(s.quarantine, d.promote);
    PromotedIds(s.quarantine, d.promote);
    PromotedEach(s.quarantine, d.promote);
    WithoutEntryIds(s.active, MoveIds(d.deprecate));
    hide Without, PromotedAll, ById, PromoteValid, DupFree, DistinctMoves, EntryIds, GoneIds, MoveIds, EmittedAll,
      EmittedActive;
    assert EntryIds(kept) !! EntryIds(moved);
    JoinedDupFree(kept, moved);
    EmittedIds(kept + moved);
    EmittedIds(Without(s.quarantine, MoveIds(d.promote)));
    EmittedCard(kept + moved);
    EmittedCard(Without(s.quarantine, MoveIds(d.promote)));
  }

  /** Applying a valid delta keeps the sets free of duplicates and lowers the measure by exactly
      the number of moves. */
  lemma ApplyLowersMeasure(baseline: set<string>, s: Sets, d: Delta)
    requires WellKept(baseline, s) && DeltaErrors(s, d) == []
    ensures WellKept(baseline, AppliedSets(s, d))
    ensures Measure(AppliedSets(s, d)) + |d.promote| + |d.deprecate| == Measure(s)
  {
    ApplyKeepsPartition(baseline, s, d);
    PartitionedMeans(baseline, s);
    hide Partitioned, DeltaErrors, TagOk, AppliedSets, EntryIds, GoneIds, DupFree;
    AppliedDupFree(s, d);
  }

  // ---- proposing again ----

  lemma {:induction false} NoPromotions(quarantine: seq<Entry>, r: Rolling)
    requires forall e | e in quarantine :: !Promotable(e, r)
    ensures Promotions(quarantine, r) == []
  {
    hide Promotable;
    if quarantine != [] {
      assert quarantine[0] in quarantine && forall e | e in quarantine[1..] :: e in quarantine;
      NoPromotions(quarantine[1..], r);
    }
  }

  lemma {:induction false} NoDeprecations(active: seq<Entry>)
    requires forall e | e in active :: !NeverHit(e) && !Imprecise(e)
    ensures Deprecations(active) == []
  {
    hide NeverHit, Imprecise;
    if active != [] {
      assert active[0] in active && forall e | e in active[1..] :: e in active;
      NoDeprecations(active[1..]);
    }
  }

  /** A rule that is promoted is not at once proposed for deprecation. */
  lemma PromotedIsNotDeprecated(q: Entry, r: Rolling)
    requires Promotable(q, r)
    ensures !NeverHit(Promoted(q)) && !Imprecise(Promoted(q))
  {
  }

  /** Proposing and applying is settled after one round: with the same trend nothing more is
      proposed, in particular no deprecation of a rule just promoted. */
  lemma ProposeAfterApplyIsEmpty(baseline: set<string>, s: Sets, r: Rolling)
    requires WellKept(baseline, s)
    ensures Proposals(AppliedSets(s, Proposals(s, r)), r) == Delta([], [])
  {
    var d := Proposals(s, r);
    var t := AppliedSets(s, d);
    ProposalsAreValid(baseline, s, r);
    DeltaValidIff(s, d);
    PromotionsIff(s.quarantine, r);
    DeprecationsIff(s.active);
    WithoutIds(s.active, MoveIds(d.deprecate));
    WithoutIds(s.quarantine, MoveIds(d.promote));
    PromotedIds(s.quarantine, d.promote);
    hide DeltaErrors, Partitioned, Promotions, Deprecations, Without, PromotedAll;
    RestQuarantine(s.quarantine, d, r, t.quarantine);
    NoPromotions(t.quarantine, r);
    ActiveRest(s, d, r, t.active);
    NoDeprecations(t.active);
  }

  lemma RestQuarantine(quarantine: seq<Entry>, d: Delta, r: Rolling, after: seq<Entry>)
    requires forall id :: id in MoveIds(d.promote) <==> exists e | e in quarantine :: e.id == id && Promotable(e, r)
    requires after == EmittedAll(Without(quarantine, MoveIds(d.promote)))
    ensures forall e | e in after :: !Promotable(e, r)
  {
    var rest := Without(quarantine, MoveIds(d.promote));
    WithoutIds(quarantine, MoveIds(d.promote));
    hide Without, Gates;
    forall e | e in after ensures !Promotable(e, r) {
      var i :| 0 <= i < |after| && after[i] == e;
      assert rest[i] in rest && rest[i] in quarantine && rest[i].id !in MoveIds(d.promote);
      assert !Promotable(rest[i], r);
    }
  }

  lemma ActiveRest(s: Sets, d: Delta, r: Rolling, after: seq<Entry>)
    requires DupFree(s.quarantine) && forall m | m in d.promote :: PromoteValid(s.quarantine, m)
    requires forall id :: id in MoveIds(d.promote) <==> exists e | e in s.quarantine :: e.id == id && Promotable(e, r)
    requires forall id ::
      id in MoveIds(d.deprecate) <==> exists e | e in s.active :: e.id == id && (NeverHit(e) || Imprecise(e))
    requires after == EmittedActive(Without(s.active, MoveIds(d.deprecate)) + PromotedAll(s.quarantine, d.promote))
    ensures forall e | e in after :: !NeverHit(e) && !Imprecise(e)
  {
    var kept, moved := Without(s.active, MoveIds(d.deprecate)), PromotedAll(s.quarantine, d.promote);
    WithoutIds(s.active, MoveIds(d.deprecate));
    PromotedEach(s.quarantine, d.promote);
    hide Without, PromotedAll;
    forall i | 0 <= i < |kept| ensures !NeverHit(kept[i]) && !Imprecise(kept[i]) {
      var x := kept[i];
      assert x in kept && x in s.active && x.id !in MoveIds(d.deprecate);
    }
    forall i | 0 <= i < |moved| ensures !NeverHit(moved[i]) && !Imprecise(moved[i]) {
      MovedIsFine(s.quarantine, d, r, d.promote[i]);
    }
    hide ById, Promotable, EmittedActive;
    EmittedAsBefore(kept + moved);
  }

  lemma MovedIsFine(quarantine: seq<Entry>, d: Delta, r: Rolling, m: Move)
    requires DupFree(quarantine) && m in d.promote
    requires forall id :: id in MoveIds(d.promote) <==> exists e | e in quarantine :: e.id == id && Promotable(e, r)
    ensures ById(quarantine, m.id).Some?
    ensures var x := Promoted(ById(quarantine, m.id).value); !NeverHit(x) && !Imprecise(x)
  {
    assert m.id in MoveIds(d.promote);
    var e :| e in quarantine && e.id == m.id && Promotable(e, r);
    ByIdFinds(quarantine, m.id);
    hide ById;
    PromotedIsNotDeprecated(e, r);
  }

  /** Writing and reading back makes no rule look unused or imprecise. */
  lemma {:induction false} EmittedAsBefore(es: seq<Entry>)
    requires forall i | 0 <= i < |es| :: !NeverHit(es[i]) && !Imprecise(es[i])
    ensures forall e | e in EmittedActive(es) :: !NeverHit(e) && !Imprecise(e)
  {
    var fs := EmittedActive(es);
    forall e | e in fs ensures !NeverHit(e) && !Imprecise(e) {
      var i :| 0 <= i < |fs| && fs[i] == e;
      assert e == Emitted(es[i]).(transcript := false);
    }
  }

  // ---- counting ----

  lemma {:induction false} CountedIds(es: seq<Entry>, session: map<string, Stat>)
    ensures var cs := CountedAll(es, session);
      |cs| == |es| && EntryIds(cs) == EntryIds(es) && (DupFree(es) ==> DupFree(cs))
    ensures forall i | 0 <= i < |es| ::
      CountedAll(es, session)[i].id == es[i].id && CountedAll(es, session)[i].transcript == es[i].transcript
  {
    var cs := CountedAll(es, session);
    assert forall i | 0 <= i < |es| ::
      cs[i] in cs && es[i] in es && cs[i].id == es[i].id && cs[i].transcript == es[i].transcript;
    hide CountedAll;
    forall x ensures x in EntryIds(cs) <==> x in EntryIds(es) {}
  }

  /** Counting a session moves no rule: its audit passes and is never rolled back. */
  lemma CountKeepsSets(baseline: set<string>, s: Sets, session: map<string, Stat>)
    requires WellKept(baseline, s)
    ensures var t := CountedSets(s, session);
      WellKept(baseline, t) && |t.active| == |s.active| && |t.quarantine| == |s.quarantine|
      && EntryIds(t.active) == EntryIds(s.active) && EntryIds(t.quarantine) == EntryIds(s.quarantine)
  {
    var t := CountedSets(s, session);
    AllIds(baseline, s);
    PartitionedMeans(baseline, s);
    CountedIds(s.active, session);
    CountedIds(s.quarantine, session);
    EmittedIds(CountedAll(s.active, session));
    EmittedIds(CountedAll(s.quarantine, session));
    assert forall e | e in t.active :: e.hasStatus;
    assert forall e | e in t.quarantine :: e.hasStatus;
    assert |t.active| == |s.active| && |t.quarantine| == |s.quarantine|;
    hide CountedAll, EmittedAll, EmittedActive, Partitioned, IsRuleId;
    var all := EntryIds(s.active) + EntryIds(s.quarantine) + GoneIds(s.deprecated);
    IdsOk(all, baseline, t.active);
    IdsOk(all, baseline, t.quarantine);
    PartitionedMeans(baseline, t);
  }

  lemma {:induction false} SameFirst(es: seq<Entry>, fs: seq<Entry>, id: string)
    requires |es| == |fs| && forall i | 0 <= i < |es| :: fs[i].id == es[i].id && fs[i].transcript == es[i].transcript
    ensures ById(es, id).Some? <==> ById(fs, id).Some?
    ensures ById(es, id).Some? ==> ById(fs, id).value.transcript == ById(es, id).value.transcript
  {
    if es != [] && es[0].id != id { SameFirst(es[1..], fs[1..], id); }
  }

  /** A delta that waits stays valid when a session is counted before it is applied. */
  lemma CountKeepsDelta(s: Sets, d: Delta, session: map<string, Stat>)
    requires DeltaErrors(s, d) == []
    ensures DeltaErrors(CountedSets(s, session), d) == []
  {
    var t := CountedSets(s, session);
    DeltaValidIff(s, d);
    DeltaValidIff(t, d);
    CountedIds(s.active, session);
    CountedIds(s.quarantine, session);
    EmittedIds(CountedAll(s.active, session));
    assert forall i | 0 <= i < |s.quarantine| ::
      t.quarantine[i].id == s.quarantine[i].id && t.quarantine[i].transcript == s.quarantine[i].transcript;
    assert EntryIds(t.active) == EntryIds(s.active) && |t.quarantine| == |s.quarantine|;
    hide DeltaErrors, CountedSets;
    forall m | m in d.promote ensures PromoteValid(t.quarantine, m) {
      assert PromoteValid(s.quarantine, m);
      SameFirst(s.quarantine, t.quarantine, m.id);
    }
  }

  /** A derived precision lies within 0..1 and is at most 0.00005 off the ratio. */
  lemma PrecisionIsARatio(tp: real, fp: real)
    requires tp >= 0.0 && fp >= 0.0
    ensures DerivePrecision(tp, fp).None? <==> tp == 0.0 && fp == 0.0
    ensures tp + fp > 0.0 ==>
      var p, q := DerivePrecision(tp, fp).value, tp / (tp + fp); 0.0 <= p <= 1.0 && -0.00005 <= p - q <= 0.00005
  {
    if tp + fp > 0.0 {
      var q := tp / (tp + fp);
      Ratio(tp, fp);
      var n := (q * 10000.0 + 0.5).Floor;
      assert 0 <= n <= 10000;
      assert Round4(q) == (n as real) / 10000.0;
    }
  }

  lemma Ratio(t: real, f: real)
    requires t >= 0.0 && f >= 0.0 && t + f > 0.0
    ensures 0.0 <= t / (t + f) <= 1.0
  {
    assert t / (t + f) * (t + f) == t;
  }

  // ---- every interleaving of the commands ----

  datatype RuleOp = DoPropose(rolling: Rolling) | DoApply | DoCount(session: map<string, Stat>)

  function RuleStep(r: Repo, op: RuleOp): Repo {
    match op
    case DoPropose(rolling) => Proposed(r, rolling)
    case DoApply => Applied(r).0
    case DoCount(session) => Counted(r, session)
  }

  function RuleRun(r: Repo, ops: seq<RuleOp>): Repo
    decreases |ops|
  {
    if ops == [] then r else RuleRun(RuleStep(r, ops[0]), ops[1..])
  }

  function BaselineIds(f: Files): set<string> {
    if Baseline in f && f[Baseline].BaselineRules? then SeqSet(f[Baseline].ids) else {}
  }

  /** Clean files without duplicates, and a waiting delta, if any, that the validation accepts. */
  ghost predicate Good(f: Files) {
    && Clean(f) && WellKept(BaselineIds(f), SetsOf(f))
    && (DeltaJson in f ==> f[DeltaJson].ProposedDelta? && DeltaErrors(SetsOf(f), f[DeltaJson].delta) == []
                           && (f[DeltaJson].delta.promote != [] || f[DeltaJson].delta.deprecate != []))
  }

  lemma WithSetsClean(f: Files, s: Sets)
    requires Clean(f) && Partitioned(BaselineIds(f), s)
    ensures Clean(WithSets(f, s)) && SetsOf(WithSets(f, s)) == s && BaselineIds(WithSets(f, s)) == BaselineIds(f)
  {
    hide Partitioned;
  }

  lemma ProposedGood(r: Repo, rolling: Rolling)
    requires Good(r.files)
    ensures var p := Proposed(r, rolling);
      Good(p.files) && SetsOf(p.files) == SetsOf(r.files) && p.changelog == r.changelog
  {
    var p := Proposed(r, rolling);
    ProposalsAreValid(BaselineIds(r.files), SetsOf(r.files), rolling);
    hide Partitioned, DeltaErrors, Promotions, Deprecations, DupFree;
    assert forall n | n != DeltaJson :: (n in p.files <==> n in r.files) && (n in p.files ==> p.files[n] == r.files[n]);
    assert DeltaJson in p.files ==> p.files[DeltaJson] == ProposedDelta(Proposals(SetsOf(r.files), rolling))
                                    && (p.files[DeltaJson].delta.promote != []
                                      || p.files[DeltaJson].delta.deprecate != []);
    assert p.changelog == r.changelog;
    hide Proposed;
    assert Clean(p.files) && SetsOf(p.files) == SetsOf(r.files) && BaselineIds(p.files) == BaselineIds(r.files);
  }

  /** In a good repository applying either finds no delta or goes through; it is never refused
      and never rolled back, and every move is logged. */
  lemma AppliedGood(r: Repo)
    requires Good(r.files)
    ensures var (p, v) := Applied(r);
      && (v == if DeltaJson in r.files then Done else NoDelta)
      && Good(p.files) && Measure(SetsOf(p.files)) + |p.changelog| == Measure(SetsOf(r.files)) + |r.changelog|
  {
    if DeltaJson in r.files {
      var d, s := r.files[DeltaJson].delta, SetsOf(r.files);
      ApplyLowersMeasure(BaselineIds(r.files), s, d);
      WithSetsClean(r.files, AppliedSets(s, d));
      hide AppliedSets, DeltaErrors, Partitioned, DupFree, WithSets;
      var f := WithSets(r.files, AppliedSets(s, d));
      assert Clean(f - {DeltaJson}) && SetsOf(f - {DeltaJson}) == SetsOf(f)
        && BaselineIds(f - {DeltaJson}) == BaselineIds(f);
    }
  }

  lemma CountedGood(r: Repo, session: map<string, Stat>)
    requires Good(r.files)
    ensures var p := Counted(r, session);
      Good(p.files) && Measure(SetsOf(p.files)) == Measure(SetsOf(r.files)) && p.changelog == r.changelog
      && SetsOf(p.files) == CountedSets(SetsOf(r.files), session)
  {
    var s := SetsOf(r.files);
    var t := CountedSets(s, session);
    CountKeepsSets(BaselineIds(r.files), s, session);
    WithSetsClean(r.files, t);
    if DeltaJson in r.files { CountKeepsDelta(s, r.files[DeltaJson].delta, session); }
    assert r.files[DeprecatedYaml := DeprecatedRules(t.deprecated)] == r.files;
    assert Counted(r, session).files == WithSets(r.files, t) by {
      hide Partitioned, CountedAll, EmittedAll, EmittedActive, DupFree, DeltaErrors;
    }
    hide Counted, CountedSets, Partitioned, DupFree, DeltaErrors;
    assert Counted(r, session).changelog == r.changelog by { CountedLog(r, session); }
  }

  lemma CountedLog(r: Repo, session: map<string, Stat>)
    ensures Counted(r, session).changelog == r.changelog
  {
    hide Clean, CountedAll, EmittedAll, EmittedActive;
  }

  /** Over every interleaving of proposing, applying and counting the files stay clean, no
      command is refused or rolled back, and the measure of the sets plus the number of logged
      moves is constant: a rule set allows only finitely many promotions and deprecations. */
  lemma {:induction false} MovesAreFinite(r: Repo, ops: seq<RuleOp>)
    requires Good(r.files)
    ensures var p := RuleRun(r, ops);
      && Good(p.files) && Applied(p).1 in {Done, NoDelta}
      && Measure(SetsOf(p.files)) + |p.changelog| == Measure(SetsOf(r.files)) + |r.changelog|
      && |p.changelog| <= |r.changelog| + Measure(SetsOf(r.files))
    decreases |ops|
  {
    AppliedGood(r);
    hide Good, Applied, Proposed, Counted, Measure;
    if ops != [] {
      match ops[0] {
        case DoPropose(rolling) => ProposedGood(r, rolling);
        case DoApply =>
        case DoCount(session) => CountedGood(r, session);
      }
      GoodSets(RuleStep(r, ops[0]).files);
      MovesAreFinite(RuleStep(r, ops[0]), ops[1..]);
    }
  }

  lemma GoodSets(f: Files)
    requires Good(f)
    ensures Readable(f)
  {
  }

  // ---- duplicates ----

  const LOOSE := Entry("R-001", true, true, Some(5.0), Some(1.0), Some(9.0), Some(1.0), Some(0.9))
  const TWICE := Sets([], [LOOSE, LOOSE.(transcript := false)], [])

  /** The audit does not look for an id twice in one set, and then a proposed delta can be
      refused. */
  lemma DuplicatesEscapeTheAudit()
    ensures Partitioned({"R-001"}, TWICE)
    ensures DeltaErrors(TWICE, Proposals(TWICE, Rolling(Some(-5.0), None))) != []
  {
    var qs := TWICE.quarantine;
    assert qs[0] in qs;
    PartitionedMeans({"R-001"}, TWICE);
    assert forall e | e in qs :: e == LOOSE || e == LOOSE.(transcript := false);
    assert EntryIds(qs) == {"R-001"};
    assert "R-001"[..2] == "R-";
    assert IsRuleId("R-001");
    assert GoneIds([]) == {} && EntryIds([]) == {};
    var d := Proposals(TWICE, Rolling(Some(-5.0), None));
    var r := Rolling(Some(-5.0), None);
    assert qs[1..] == [LOOSE.(transcript := false)] && qs[1..][1..] == [];
    assert !Promotable(qs[0], r) && Promotable(qs[1], r);
    assert Promotions(qs[1..], r) == [Move("R-001", Seasoned)] + Promotions(qs[1..][1..], r);
    assert Promotions(qs, r) == Promotions(qs[1..], r);
    assert d.promote[0] == Move("R-001", Seasoned);
    assert !PromoteValid(qs, d.promote[0]);
    DeltaValidIff(TWICE, d);
  }
}

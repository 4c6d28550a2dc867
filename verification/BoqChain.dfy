/** The chain of BoQ versions of an object, over every run. */
module BoqChain {
  import opened Common
  import opened Store
  import opened PeriodSpec
  import opened BoqSpec
  import opened Runs
  import opened Lifecycle

  /** The latest version of the object before index n. */
  function Latest(vs: seq<Version>, site: int, n: nat): (r: Option<nat>)
    requires n <= |vs|
    ensures r.Some? ==> r.value < n && vs[r.value].site == site && forall i | r.value < i < n :: vs[i].site != site
    ensures r.None? ==> forall i | 0 <= i < n :: vs[i].site != site
  {
    if n == 0 then None else if vs[n - 1].site == site then Some(n - 1) else Latest(vs, site, n - 1)
  }

  /** The first item id of version i: ids are handed out in one sequence. */
  function Start(vs: seq<Version>, i: nat): int
    requires i <= |vs|
  {
    if i == 0 then 1 else Start(vs, i - 1) + |vs[i - 1].items|
  }

  ghost predicate Block(items: seq<Item>, first: int) { forall a | 0 <= a < |items| :: items[a].id == first + a }

  /** Every item is active and weighs its share of the total contract value; the shares make one. */
  ghost predicate WellWeighed(items: seq<Item>) {
    && ActiveValue(items) > 0.0 && WeightSum(items) == 1.0
    && forall x | x in items ::
      x.active && x.plan > 0.0 && x.weight == Some(x.contract / ActiveValue(items)) && 0.0 < x.weight.value <= 1.0
  }

  /** A first version: every item starts its own lineage. */
  ghost predicate IsRoot(v: Version) {
    v.number == FIRST_NUMBER && forall x | x in v.items :: x.lineage == x.id && x.predecessor.None?
  }

  predicate SuccessorOf(x: Item, y: Item) {
    y.predecessor == Some(x.id) && y.lineage == x.lineage && y.workCode == x.workCode && y.contract == x.contract
    && y.critical == x.critical && y.active == x.active
  }

  /** The next version: item by item the successor of the version before, with the same plan
      except for the item named. */
  ghost predicate Succeeds(v: Version, w: Version, item: int, newPlan: real) {
    && w.number == v.number + 1 && w.site == v.site && |w.items| == |v.items|
    && forall a | 0 <= a < |v.items| ::
         SuccessorOf(v.items[a], w.items[a]) && w.items[a].plan == if v.items[a].id == item then newPlan
           else v.items[a].plan
  }

  ghost predicate Follows(v: Version, w: Version) { exists item, newPlan :: Succeeds(v, w, item, newPlan) }

  ghost predicate LinkOk(vs: seq<Version>, i: nat)
    requires i < |vs|
  {
    && Block(vs[i].items, Start(vs, i)) && WellWeighed(vs[i].items)
    && match Latest(vs, vs[i].site, i)
       case None => IsRoot(vs[i])
       case Some(p) => Follows(vs[p], vs[i])
  }

  /** Exactly the latest version of each object is active. */
  ghost predicate LatestActive(vs: seq<Version>) {
    forall i | 0 <= i < |vs| :: vs[i].isActive <==> Latest(vs, vs[i].site, |vs|) == Some(i)
  }

  ghost predicate Chain(vs: seq<Version>, nextItem: int) {
    && nextItem == Start(vs, |vs|) && LatestActive(vs)
    && forall i: nat | i < |vs| :: LinkOk(vs, i)
  }

  // ---- weights ----

  function AllWeighed(items: seq<Item>, total: real): seq<Item> {
    seq(|items|, i requires 0 <= i < |items| => Weighed(items[i], total))
  }

  lemma {:induction false} WeightsAddUp(items: seq<Item>, total: real)
    requires total != 0.0 && forall x | x in items :: x.active
    ensures WeightSum(AllWeighed(items, total)) == ActiveValue(items) / total
    ensures ActiveValue(AllWeighed(items, total)) == ActiveValue(items)
  {
    if items != [] {
      var rest := AllWeighed(items[1..], total);
      assert items[0] in items && forall x | x in items[1..] :: x in items;
      WeightsAddUp(items[1..], total);
      assert AllWeighed(items, total) == [Weighed(items[0], total)] + rest;
      AddRatios(items[0].contract, ActiveValue(items[1..]), total);
      hide ActiveValue, AllWeighed;
    }
  }

  lemma AddRatios(a: real, b: real, t: real)
    requires t != 0.0
    ensures a / t + b / t == (a + b) / t
  {
  }

  lemma Whole(t: real)
    requires t != 0.0
    ensures t / t == 1.0
  {
  }

  lemma {:induction false} NothingWeighed(items: seq<Item>)
    requires forall x | x in items :: x.weight.None?
    ensures WeightSum(items) == 0.0
  {
    if items != [] {
      assert items[0] in items && forall x | x in items[1..] :: x in items;
      NothingWeighed(items[1..]);
    }
  }

  lemma {:induction false} ValueNotNegative(items: seq<Item>)
    requires forall x | x in items :: x.contract >= 0.0
    ensures ActiveValue(items) >= 0.0
  {
    if items != [] {
      assert items[0] in items && forall x | x in items[1..] :: x in items;
      ValueNotNegative(items[1..]);
    }
  }

  lemma {:induction false} NothingToWeigh(raw: seq<Item>)
    requires forall x | x in raw :: x.weight.None?
    requires ActiveValue(raw) == 0.0
    ensures !WeightsValid(WeighAll(raw))
  {
    var items := WeighAll(raw);
    assert forall a | 0 <= a < |raw| :: items[a] == Weighed(raw[a], ActiveValue(raw)) && raw[a] in raw;
    hide ActiveValue;
    assert forall x | x in items :: x.weight.None?;
    NothingWeighed(items);
  }

  lemma {:induction false} EachWeighed(raw: seq<Item>, total: real)
    requires total > 0.0 && forall x | x in raw :: x.active
    requires ItemsAllowed(AllWeighed(raw, total))
    ensures forall x | x in AllWeighed(raw, total) ::
      x.active && x.plan > 0.0 && x.weight == Some(x.contract / total) && 0.0 < x.weight.value <= 1.0
  {
    var items := AllWeighed(raw, total);
    assert forall a | 0 <= a < |raw| :: items[a] == Weighed(raw[a], total) && raw[a] in raw;
    assert forall x | x in items :: x.plan > 0.0 && (x.weight.Some? ==> 0.0 < x.weight.value <= 1.0);
    hide AllWeighed, ItemsAllowed;
  }

  lemma {:induction false} AllowedValues(raw: seq<Item>, total: real)
    requires ItemsAllowed(AllWeighed(raw, total))
    ensures forall x | x in raw :: x.contract >= 0.0
  {
    var items := AllWeighed(raw, total);
    assert forall a | 0 <= a < |raw| :: items[a] in items && items[a].contract == raw[a].contract;
  }

  /** A version that passes the store's checks and the weight check weighs exactly one: the
      tolerance of 0.001 is never used up. */
  lemma {:induction false} AcceptedWeights(raw: seq<Item>)
    requires forall x | x in raw :: x.active && x.weight.None?
    requires ItemsAllowed(WeighAll(raw)) && WeightsValid(WeighAll(raw))
    ensures WellWeighed(WeighAll(raw))
  {
    var items, total := WeighAll(raw), ActiveValue(raw);
    assert items == AllWeighed(raw, total);
    hide WeighAll, AllWeighed, ItemsAllowed, ActiveValue, WeightSum;
    AllowedValues(raw, total);
    ValueNotNegative(raw);
    if total == 0.0 { NothingToWeigh(raw); }
    else {
      WeightsAddUp(raw, total);
      Whole(total);
      EachWeighed(raw, total);
      assert WeightSum(items) == 1.0 && ActiveValue(items) == total;
    }
  }

  // ---- appending a version ----

  lemma {:induction false} SamePrefix(vs: seq<Version>, ws: seq<Version>, n: nat)
    requires n <= |vs| && n <= |ws|
    requires forall i | 0 <= i < n :: ws[i].site == vs[i].site && ws[i].items == vs[i].items
    ensures Start(vs, n) == Start(ws, n)
    ensures forall site :: Latest(vs, site, n) == Latest(ws, site, n)
  {
    if n > 0 { SamePrefix(vs, ws, n - 1); }
  }

  /** The table after a version was added and the former active one, if any, switched off. */
  function Appended(vs: seq<Version>, prev: Option<nat>, v: Version): seq<Version>
    requires prev.Some? ==> prev.value < |vs|
  {
    (if prev.Some? then vs[prev.value := vs[prev.value].(isActive := false)] else vs) + [v]
  }

  lemma {:induction false} AppendActiveAt(vs: seq<Version>, v: Version, i: nat)
    requires LatestActive(vs) && v.isActive && i <= |vs|
    ensures var ws := Appended(vs, Latest(vs, v.site, |vs|), v);
      ws[i].isActive <==> Latest(ws, ws[i].site, |ws|) == Some(i)
  {
    var prev := Latest(vs, v.site, |vs|);
    var ws := Appended(vs, prev, v);
    SamePrefix(vs, ws, |vs|);
    assert ws[|vs|] == v && |ws| == |vs| + 1;
    assert Latest(ws, v.site, |ws|) == Some(|vs|);
    if i < |vs| {
      assert ws[i].site == vs[i].site;
      if vs[i].site == v.site { assert vs[i].isActive <==> prev == Some(i); }
      else { assert Latest(ws, vs[i].site, |ws|) == Latest(vs, vs[i].site, |vs|); }
    }
  }

  lemma {:induction false} AppendActive(vs: seq<Version>, v: Version)
    requires LatestActive(vs) && v.isActive
    ensures LatestActive(Appended(vs, Latest(vs, v.site, |vs|), v))
  {
    var ws := Appended(vs, Latest(vs, v.site, |vs|), v);
    forall i | 0 <= i < |ws| ensures ws[i].isActive <==> Latest(ws, ws[i].site, |ws|) == Some(i) {
      AppendActiveAt(vs, v, i);
    }
  }

  lemma {:induction false} AppendLink(vs: seq<Version>, v: Version, i: nat)
    requires i < |vs| && LinkOk(vs, i)
    ensures LinkOk(Appended(vs, Latest(vs, v.site, |vs|), v), i)
  {
    var ws := Appended(vs, Latest(vs, v.site, |vs|), v);
    SamePrefix(vs, ws, i);
    var p := Latest(vs, vs[i].site, i);
    if p.Some? {
      var item, plan :| Succeeds(vs[p.value], vs[i], item, plan);
      assert Succeeds(ws[p.value], ws[i], item, plan);
    }
  }

  lemma {:induction false} NewLink(vs: seq<Version>, v: Version)
    requires Block(v.items, Start(vs, |vs|)) && WellWeighed(v.items)
    requires match Latest(vs, v.site, |vs|)
             case None => IsRoot(v)
             case Some(p) => Follows(vs[p], v)
    ensures LinkOk(Appended(vs, Latest(vs, v.site, |vs|), v), |vs|)
  {
    var prev := Latest(vs, v.site, |vs|);
    var ws := Appended(vs, prev, v);
    SamePrefix(vs, ws, |vs|);
    assert ws[|vs|] == v;
    hide WellWeighed, Block, Start, Latest;
    if prev.Some? {
      var item, plan :| Succeeds(vs[prev.value], v, item, plan);
      assert Succeeds(ws[prev.value], v, item, plan);
    }
  }

  lemma {:induction false} AppendStart(vs: seq<Version>, v: Version)
    ensures var ws := Appended(vs, Latest(vs, v.site, |vs|), v); Start(ws, |ws|) == Start(vs, |vs|) + |v.items|
  {
    var ws := Appended(vs, Latest(vs, v.site, |vs|), v);
    SamePrefix(vs, ws, |vs|);
    assert |ws| == |vs| + 1 && ws[|vs|] == v;
    hide Latest;
  }

  lemma {:induction false} AppendChain(vs: seq<Version>, nextItem: int, v: Version)
    requires Chain(vs, nextItem) && v.isActive
    requires Block(v.items, nextItem) && WellWeighed(v.items)
    requires match Latest(vs, v.site, |vs|)
             case None => IsRoot(v)
             case Some(p) => Follows(vs[p], v)
    ensures Chain(Appended(vs, Latest(vs, v.site, |vs|), v), nextItem + |v.items|)
  {
    AppendActive(vs, v);
    NewLink(vs, v);
    AppendStart(vs, v);
    hide LinkOk, LatestActive, Block, WellWeighed, Start, Latest, Appended, IsRoot, Follows;
    AllLinks(vs, v);
  }

  lemma {:induction false} AllLinks(vs: seq<Version>, v: Version)
    requires forall i: nat | i < |vs| :: LinkOk(vs, i)
    requires |Appended(vs, Latest(vs, v.site, |vs|), v)| > |vs|
      && LinkOk(Appended(vs, Latest(vs, v.site, |vs|), v), |vs|)
    ensures forall i: nat | i < |Appended(vs, Latest(vs, v.site, |vs|), v)| ::
      LinkOk(Appended(vs, Latest(vs, v.site, |vs|), v), i)
  {
    var ws := Appended(vs, Latest(vs, v.site, |vs|), v);
    assert |ws| == |vs| + 1;
    hide LinkOk, Latest;
    forall i: nat | i < |ws| ensures LinkOk(ws, i) {
      if i < |vs| { AppendLink(vs, v, i); }
    }
  }

  lemma {:induction false} ActiveIsLatest(vs: seq<Version>, site: int)
    requires LatestActive(vs)
    ensures ActiveVersion(vs, site) == Latest(vs, site, |vs|)
  {
    hide ActiveVersion;
    var a, l := ActiveVersion(vs, site), Latest(vs, site, |vs|);
    if l.Some? { assert vs[l.value].isActive; }
  }

  // ---- steps ----

  lemma CreateChain(db: Db, site: int, xs: seq<NewItem>)
    requires Chain(db.versions, db.nextItem)
    ensures var e := CreateInitial(db, site, xs).Or(db); Chain(e.versions, e.nextItem)
  {
    var r := CreateInitial(db, site, xs);
    ActiveIsLatest(db.versions, site);
    if r.Ok? {
      var raw := InitialItems(xs, db.nextItem);
      assert forall x | x in raw :: x.active && x.weight.None?;
      AcceptedWeights(raw);
      hide WellWeighed, LinkOk, LatestActive, ItemsAllowed, WeightsValid, NumberTaken, ActiveVersion;
      var v := Version(site, FIRST_NUMBER, true, WeighAll(raw));
      assert r.value.versions == Appended(db.versions, None, v);
      assert forall a | 0 <= a < |v.items| ::
        v.items[a].id == raw[a].id && v.items[a].lineage == raw[a].lineage
          && v.items[a].predecessor == raw[a].predecessor;
      AppendChain(db.versions, db.nextItem, v);
    }
  }

  lemma CloneSucceeds(v: Version, w: Version, nextItem: int, item: int, newPlan: real)
    requires w.number == v.number + 1 && w.site == v.site
    requires w.items == WeighAll(CloneItems(v.items, nextItem, item, newPlan))
    ensures Succeeds(v, w, item, newPlan) && Block(w.items, nextItem)
  {
    hide ActiveValue;
    var raw := CloneItems(v.items, nextItem, item, newPlan);
    assert forall a | 0 <= a < |v.items| :: raw[a] == CloneItem(v.items[a], nextItem + a, item, newPlan);
  }

  /** What an approval needs and leaves behind, in terms of the active version. */
  lemma ApproveResult(db: Db, id: nat) returns (v: nat, w: Version)
    requires ApproveRequest(db, id).Ok?
    ensures id < |db.requests| && ActiveVersion(db.versions, db.requests[id].site) == Some(v) && v < |db.versions|
    ensures var q, e := db.requests[id], ApproveRequest(db, id).value;
      && w == Version(q.site, db.versions[v].number + 1, true,
        WeighAll(CloneItems(db.versions[v].items, db.nextItem, q.item, q.newPlan)))
      && e.versions == Appended(db.versions, Some(v), w) && e.nextItem == db.nextItem + |db.versions[v].items|
      && e.requests == db.requests[id := q.(status := RequestApproved)]
      && db.versions[v].site == q.site && ItemsAllowed(w.items) && WeightsValid(w.items)
  {
    var q := db.requests[id];
    v := ActiveVersion(db.versions, q.site).value;
    hide ItemsAllowed, WeightsValid, NumberTaken, ActiveVersion, HasOpenPeriod, WeighAll, CloneItems;
    w := Version(q.site, db.versions[v].number + 1, true,
      WeighAll(CloneItems(db.versions[v].items, db.nextItem, q.item, q.newPlan)));
  }

  lemma {:induction false} ClonesUnweighed(vs: seq<Version>, nextItem: int, v: nat, item: int, newPlan: real)
    requires Chain(vs, nextItem) && v < |vs|
    ensures forall x | x in CloneItems(vs[v].items, nextItem, item, newPlan) :: x.active && x.weight.None?
  {
    assert LinkOk(vs, v);
    assert forall x | x in vs[v].items :: x.active;
    var raw := CloneItems(vs[v].items, nextItem, item, newPlan);
    assert forall a | 0 <= a < |raw| :: raw[a].active == vs[v].items[a].active && raw[a].weight.None?;
    hide CloneItems, LinkOk, Chain;
  }

  /** Approving a request appends exactly the successor of the active version. */
  lemma ApproveSucceeds(db: Db, id: nat) returns (v: nat, w: Version)
    requires Chain(db.versions, db.nextItem) && ApproveRequest(db, id).Ok?
    ensures id < |db.requests| && v < |db.versions|
    ensures var q, e := db.requests[id], ApproveRequest(db, id).value;
      && Latest(db.versions, q.site, |db.versions|) == Some(v)
      && e.versions == Appended(db.versions, Some(v), w)
      && e.nextItem == db.nextItem + |db.versions[v].items|
      && e.requests == db.requests[id := q.(status := RequestApproved)]
      && Succeeds(db.versions[v], w, q.item, q.newPlan)
      && Block(w.items, db.nextItem) && WellWeighed(w.items) && w.site == q.site && w.isActive
  {
    v, w := ApproveResult(db, id);
    hide ApproveRequest;
    var q := db.requests[id];
    ActiveIsLatest(db.versions, q.site);
    var raw := CloneItems(db.versions[v].items, db.nextItem, q.item, q.newPlan);
    ClonesUnweighed(db.versions, db.nextItem, v, q.item, q.newPlan);
    hide Chain, ActiveVersion, ItemsAllowed, WeightsValid, WeighAll, CloneItems, Block, Succeeds, Appended,
      WellWeighed, LinkOk, LatestActive;
    AcceptedWeights(raw);
    CloneSucceeds(db.versions[v], w, db.nextItem, q.item, q.newPlan);
  }

  lemma ApproveChain(db: Db, id: nat)
    requires Chain(db.versions, db.nextItem)
    ensures var e := ApproveRequest(db, id).Or(db); Chain(e.versions, e.nextItem)
  {
    if ApproveRequest(db, id).Ok? {
      var v, w := ApproveSucceeds(db, id);
      hide ApproveRequest, WellWeighed, LinkOk, LatestActive, Block;
      assert Follows(db.versions[v], w);
      AppendChain(db.versions, db.nextItem, w);
    }
  }

  lemma ChainKept(db: Db, op: Op, now: Time)
    requires Chain(db.versions, db.nextItem) && !op.DoCreateBoq? && !op.DoApproveBaseline?
    ensures var e := Apply(db, op, now); Chain(e.versions, e.nextItem)
  {
    Footprint(db, op, now);
    hide Apply, Chain;
  }

  lemma ChainStep(db: Db, op: Op, now: Time)
    requires Chain(db.versions, db.nextItem)
    ensures var e := Apply(db, op, now); Chain(e.versions, e.nextItem)
  {
    hide Chain;
    match op
    case DoCreateBoq(site, xs) => CreateChain(db, site, xs); hide CreateInitial;
    case DoApproveBaseline(id) => ApproveChain(db, id); hide ApproveRequest;
    case _ => ChainKept(db, op, now); hide Apply;
  }

  lemma {:induction false} ChainRun(db: Db, steps: seq<Step>)
    requires Chain(db.versions, db.nextItem)
    ensures var e := Run(db, steps); Chain(e.versions, e.nextItem)
    decreases |steps|
  {
    hide Apply, Chain;
    if steps != [] {
      ChainStep(db, steps[0].op, steps[0].now);
      ChainRun(Apply(db, steps[0].op, steps[0].now), steps[1..]);
    }
  }

  lemma ReachableChain(sites: map<int, Site>, steps: seq<Step>)
    ensures var e := Run(EmptyDb(sites), steps); Chain(e.versions, e.nextItem)
  {
    ChainRun(EmptyDb(sites), steps);
  }

  // ---- what the chain means ----

  lemma {:induction false} StartGrows(vs: seq<Version>, i: nat, j: nat)
    requires i <= j <= |vs|
    ensures Start(vs, i) <= Start(vs, j) && (i < j ==> Start(vs, i) + |vs[i].items| <= Start(vs, j))
    decreases j - i
  {
    if i < j { StartGrows(vs, i, j - 1); }
  }

  /** An item id names one item of one version. */
  lemma {:induction false} IdNamesOneItem(vs: seq<Version>, nextItem: int, i: nat, a: nat, j: nat, b: nat)
    requires Chain(vs, nextItem) && i < |vs| && j < |vs| && a < |vs[i].items| && b < |vs[j].items|
    requires vs[i].items[a].id == vs[j].items[b].id
    ensures i == j && a == b
  {
    assert LinkOk(vs, i) && LinkOk(vs, j);
    if i < j { StartGrows(vs, i, j); }
    if j < i { StartGrows(vs, j, i); }
  }

  lemma {:induction false} IdsBelowNext(vs: seq<Version>, nextItem: int, i: nat, x: Item)
    requires Chain(vs, nextItem) && i < |vs| && x in vs[i].items
    ensures 0 < x.id < nextItem
  {
    assert LinkOk(vs, i);
    StartGrows(vs, i, |vs|);
    StartGrows(vs, 0, i);
  }

  /** Version numbers of an object strictly increase, and only its latest version is active. */
  lemma {:induction false} NumbersIncrease(vs: seq<Version>, nextItem: int, i: nat, j: nat)
    requires Chain(vs, nextItem) && i < j < |vs| && vs[i].site == vs[j].site
    ensures vs[i].number < vs[j].number && !vs[i].isActive
    decreases j
  {
    assert LinkOk(vs, j);
    var p := Latest(vs, vs[j].site, j).value;
    assert vs[j].number == vs[p].number + 1;
    if i < p { NumbersIncrease(vs, nextItem, i, p); }
  }

  /** In every reachable state an object with versions has exactly one active version, the one
      with the greatest number. */
  lemma OneActiveVersion(sites: map<int, Site>, steps: seq<Step>, i: nat)
    requires i < |Run(EmptyDb(sites), steps).versions|
    ensures var vs := Run(EmptyDb(sites), steps).versions;
      && (vs[i].isActive <==> forall j | 0 <= j < |vs| && vs[j].site == vs[i].site :: vs[j].number <= vs[i].number)
      && (vs[i].isActive ==> forall j | 0 <= j < |vs| && vs[j].site == vs[i].site && vs[j].isActive :: j == i)
  {
    ReachableChain(sites, steps);
    var e := Run(EmptyDb(sites), steps);
    var vs := e.versions;
    hide Run;
    forall j: nat, k: nat | j < k < |vs| && vs[j].site == vs[k].site
      ensures vs[j].number < vs[k].number && !vs[j].isActive {
      NumbersIncrease(vs, e.nextItem, j, k);
    }
    var l := Latest(vs, vs[i].site, |vs|);
    assert l.Some? && l.value >= i && vs[l.value].site == vs[i].site;
    assert vs[i].isActive <==> l == Some(i);
    if l.value > i { assert vs[i].number < vs[l.value].number; }
  }

  /** Every item has exactly one successor, and every successor exactly one item. */
  ghost predicate OneToOne(xs: seq<Item>, ys: seq<Item>) {
    && (forall x | x in xs :: exists y | y in ys :: SuccessorOf(x, y))
    && (forall y | y in ys :: exists x | x in xs :: SuccessorOf(x, y))
    && (forall x, x', y | x in xs && x' in xs && y in ys && SuccessorOf(x, y) && SuccessorOf(x', y) :: x == x')
    && (forall x, y, y' | x in xs && y in ys && y' in ys && SuccessorOf(x, y) && SuccessorOf(x, y') :: y == y')
  }

  predicate Replanned(x: Item, y: Item) { SuccessorOf(x, y) && y.plan != x.plan }

  ghost predicate OnePlanDiffers(xs: seq<Item>, ys: seq<Item>) {
    forall x, x', y, y' | x in xs && x' in xs && y in ys && y' in ys && Replanned(x, y) && Replanned(x', y') :: x == x'
  }

  /** The predecessor links of a version run one to one onto the items of the version before it,
      keep what identifies an item, and at most one item has another plan. */
  lemma PredecessorsAreABijection(sites: map<int, Site>, steps: seq<Step>, n: nat, i: nat, j: nat)
    requires n <= |steps|
    requires var vs := Before(EmptyDb(sites), steps, n).versions; j < |vs| && Latest(vs, vs[j].site, j) == Some(i)
    ensures var vs := Before(EmptyDb(sites), steps, n).versions;
      OneToOne(vs[i].items, vs[j].items) && OnePlanDiffers(vs[i].items, vs[j].items)
  {
    ReachableChain(sites, steps[..n]);
    var e := Before(EmptyDb(sites), steps, n);
    hide Run;
    assert LinkOk(e.versions, i) && LinkOk(e.versions, j);
    var item, plan :| Succeeds(e.versions[i], e.versions[j], item, plan);
    SuccessorsMatch(e.versions[i], e.versions[j], Start(e.versions, i), Start(e.versions, j), item, plan);
  }

  lemma {:induction false} SuccessorIndex(v: Version, w: Version, first: int, item: int, plan: real, x: Item,
      y: Item) returns (a: nat)
    requires Succeeds(v, w, item, plan) && Block(v.items, first)
    requires x in v.items && y in w.items && SuccessorOf(x, y)
    ensures a < |v.items| == |w.items| && x == v.items[a] && y == w.items[a]
  {
    a :| a < |v.items| && v.items[a] == x;
    var b: nat :| b < |w.items| && w.items[b] == y;
    assert SuccessorOf(v.items[b], w.items[b]);
    assert v.items[a].id == v.items[b].id;
  }

  lemma {:induction false} SuccessorsExist(v: Version, w: Version, item: int, plan: real)
    requires Succeeds(v, w, item, plan)
    ensures forall x | x in v.items :: exists y | y in w.items :: SuccessorOf(x, y)
    ensures forall y | y in w.items :: exists x | x in v.items :: SuccessorOf(x, y)
  {
    hide SuccessorOf;
    forall x | x in v.items ensures exists y | y in w.items :: SuccessorOf(x, y) {
      var a :| 0 <= a < |v.items| && v.items[a] == x;
      assert w.items[a] in w.items && SuccessorOf(x, w.items[a]);
    }
    forall y | y in w.items ensures exists x | x in v.items :: SuccessorOf(x, y) {
      var a :| 0 <= a < |w.items| && w.items[a] == y;
      assert v.items[a] in v.items && SuccessorOf(v.items[a], y);
    }
  }

  /** Two pairs of an item and its successor that share one of the two are the same pair. */
  lemma {:induction false} SamePair(v: Version, w: Version, first: int, next: int, item: int, plan: real, x: Item,
      y: Item, x': Item, y': Item)
    requires Succeeds(v, w, item, plan) && Block(v.items, first) && Block(w.items, next)
    requires x in v.items && y in w.items && SuccessorOf(x, y)
    requires x' in v.items && y' in w.items && SuccessorOf(x', y')
    ensures x == x' <==> y == y'
    ensures x.plan != y.plan && x'.plan != y'.plan ==> x == x'
  {
    var a := SuccessorIndex(v, w, first, item, plan, x, y);
    var b := SuccessorIndex(v, w, first, item, plan, x', y');
    assert w.items[a].id == next + a && w.items[b].id == next + b;
    assert v.items[a].id == first + a && v.items[b].id == first + b;
  }

  lemma {:induction false} SuccessorsMatch(v: Version, w: Version, first: int, next: int, item: int, plan: real)
    requires Succeeds(v, w, item, plan) && Block(v.items, first) && Block(w.items, next)
    ensures OneToOne(v.items, w.items) && OnePlanDiffers(v.items, w.items)
  {
    SuccessorsExist(v, w, item, plan);
    hide Succeeds, Block, SuccessorOf;
    forall x, x', y | x in v.items && x' in v.items && y in w.items && SuccessorOf(x, y) && SuccessorOf(x', y)
      ensures x == x' {
      SamePair(v, w, first, next, item, plan, x, y, x', y);
    }
    forall x, y, y' | x in v.items && y in w.items && y' in w.items && SuccessorOf(x, y) && SuccessorOf(x, y')
      ensures y == y' {
      SamePair(v, w, first, next, item, plan, x, y, x, y');
    }
    forall x, x', y, y' | x in v.items && x' in v.items && y in w.items && y' in w.items && Replanned(x, y)
      && Replanned(x', y')
      ensures x == x'
    {
      SamePair(v, w, first, next, item, plan, x, y, x', y');
    }
  }

  // ---- requests ----

  /** The new version has another plan than the one it replaces exactly when the active version
      still holds the requested item, with another plan. */
  lemma ApprovalChangesPlanIff(db: Db, id: nat) returns (v: nat, w: Version)
    requires Chain(db.versions, db.nextItem) && ApproveRequest(db, id).Ok?
    ensures id < |db.requests| && v < |db.versions| && ActiveVersion(db.versions, db.requests[id].site) == Some(v)
    ensures ApproveRequest(db, id).value.versions[|db.versions|] == w && |w.items| == |db.versions[v].items|
    ensures (exists a | 0 <= a < |w.items| :: w.items[a].plan != db.versions[v].items[a].plan)
      <==> exists x | x in db.versions[v].items :: x.id == db.requests[id].item && x.plan != db.requests[id].newPlan
  {
    v, w := ApproveSucceeds(db, id);
    ActiveIsLatest(db.versions, db.requests[id].site);
    hide ApproveRequest, Chain, WellWeighed, Block, ActiveVersion, Latest;
  }

  /** When two requests for an object wait together, approving the first makes the second name
      an item of an older version: its approval changes no plan. */
  lemma SecondApprovalIsLost(db: Db, first: nat, second: nat) returns (w: Version, z: Version)
    requires Chain(db.versions, db.nextItem) && ApproveRequest(db, first).Ok?
    requires second < |db.requests| && second != first && db.requests[second].site == db.requests[first].site
    requires db.requests[second].item < db.nextItem
    requires ApproveRequest(ApproveRequest(db, first).value, second).Ok?
    ensures var e := ApproveRequest(db, first).value;
      && |e.versions| == |db.versions| + 1 && e.versions[|db.versions|] == w
      && ApproveRequest(e, second).value.versions[|e.versions|] == z
    ensures |z.items| == |w.items| && forall a | 0 <= a < |z.items| :: z.items[a].plan == w.items[a].plan
  {
    var e := ApproveRequest(db, first).value;
    var v, v';
    v, w := ApproveSucceeds(db, first);
    ApproveChain(db, first);
    assert |e.versions| == |db.versions| + 1 && e.versions[|db.versions|] == w;
    assert Latest(e.versions, w.site, |e.versions|) == Some(|db.versions|);
    hide ApproveRequest, Chain, WellWeighed, Latest;
    v', z := ApproveSucceeds(e, second);
  }

  ghost predicate RequestsKnown(db: Db) { forall q | q in db.requests :: q.item < db.nextItem }

  lemma RequestKnown(db: Db, site: int, item: int, plan: real)
    requires Chain(db.versions, db.nextItem) && RequestsKnown(db)
    ensures RequestsKnown(CreateRequest(db, site, item, plan).Or(db))
  {
    if CreateRequest(db, site, item, plan).Ok? {
      var v := ActiveVersion(db.versions, site).value;
      var x :| x in db.versions[v].items && x.id == item;
      IdsBelowNext(db.versions, db.nextItem, v, x);
    }
  }

  lemma ApproveKnown(db: Db, id: nat)
    requires Chain(db.versions, db.nextItem) && RequestsKnown(db)
    ensures RequestsKnown(ApproveRequest(db, id).Or(db))
  {
    if ApproveRequest(db, id).Ok? {
      var v, w := ApproveSucceeds(db, id);
      hide ApproveRequest;
    }
  }

  lemma CreateKnown(db: Db, site: int, xs: seq<NewItem>)
    requires RequestsKnown(db)
    ensures RequestsKnown(CreateInitial(db, site, xs).Or(db))
  {
    hide ItemsAllowed, WeightsValid, NumberTaken, ActiveVersion, WeighAll, InitialItems;
  }

  lemma OtherKnown(db: Db, op: Op, now: Time)
    requires !IsBoqOp(op) && RequestsKnown(db)
    ensures RequestsKnown(Apply(db, op, now))
  {
    Footprint(db, op, now);
    hide Apply;
  }

  lemma RequestsStep(db: Db, op: Op, now: Time)
    requires Chain(db.versions, db.nextItem) && RequestsKnown(db)
    ensures RequestsKnown(Apply(db, op, now))
  {
    hide Chain, RequestsKnown;
    match op
    case DoCreateBoq(site, xs) => CreateKnown(db, site, xs); hide CreateInitial;
    case DoRequestBaseline(site, item, plan) => RequestKnown(db, site, item, plan); hide CreateRequest;
    case DoApproveBaseline(id) => ApproveKnown(db, id); hide ApproveRequest;
    case _ => OtherKnown(db, op, now); hide Apply;
  }

  lemma {:induction false} RequestsRun(db: Db, steps: seq<Step>)
    requires Chain(db.versions, db.nextItem) && RequestsKnown(db)
    ensures RequestsKnown(Run(db, steps))
    decreases |steps|
  {
    hide Apply, Chain, RequestsKnown;
    if steps != [] {
      ChainStep(db, steps[0].op, steps[0].now);
      RequestsStep(db, steps[0].op, steps[0].now);
      RequestsRun(Apply(db, steps[0].op, steps[0].now), steps[1..]);
    }
  }

  /** In every reachable state: of two requests waiting for the same object, the one approved
      second is marked as approved and changes no plan. */
  lemma OnlyFirstOfTwoRequestsCounts(sites: map<int, Site>, steps: seq<Step>, n: nat, first: nat, second: nat)
      returns (w: Version, z: Version)
    requires n <= |steps|
    requires var db := Before(EmptyDb(sites), steps, n);
      && ApproveRequest(db, first).Ok? && second < |db.requests| && second != first
      && db.requests[second].site == db.requests[first].site
      && ApproveRequest(ApproveRequest(db, first).value, second).Ok?
    ensures var db := Before(EmptyDb(sites), steps, n);
      var e := ApproveRequest(db, first).value;
      && |e.versions| == |db.versions| + 1 && e.versions[|db.versions|] == w
      && ApproveRequest(e, second).value.versions[|e.versions|] == z
    ensures |z.items| == |w.items| && forall a | 0 <= a < |z.items| :: z.items[a].plan == w.items[a].plan
  {
    ReachableChain(sites, steps[..n]);
    RequestsRun(EmptyDb(sites), steps[..n]);
    var db := Before(EmptyDb(sites), steps, n);
    hide Run, Chain, ApproveRequest;
    w, z := SecondApprovalIsLost(db, first, second);
  }
}

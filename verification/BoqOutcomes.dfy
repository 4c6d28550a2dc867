/** What the operations on BoQ versions accept and write, in terms of requests and rows alone. */
module BoqOutcomes {
  import opened Common
  import opened Store
  import opened BoqSpec
  import opened BoqChain

  // ---- createInitial ----

  function Total(xs: seq<NewItem>): real { if xs == [] then 0.0 else xs[0].contract + Total(xs[1..]) }

  /** What the store demands of the items: plans above zero, values not negative, work codes all
      different, and no worthless item beside one of value, since each weight is above zero. */
  predicate Acceptable(xs: seq<NewItem>) {
    && (forall x | x in xs :: x.plan > 0.0 && x.contract >= 0.0)
    && (Total(xs) > 0.0 ==> forall x | x in xs :: x.contract > 0.0)
    && (forall i, j | 0 <= i < j < |xs| :: xs[i].workCode != xs[j].workCode)
  }

  lemma {:induction false} InitialTotal(xs: seq<NewItem>, next: int)
    ensures ActiveValue(InitialItems(xs, next)) == Total(xs)
    decreases |xs|
  {
    if xs != [] {
      assert InitialItems(xs, next)[1..] == InitialItems(xs[1..], next + 1);
      InitialTotal(xs[1..], next + 1);
    }
  }

  lemma {:induction false} TotalBounds(xs: seq<NewItem>)
    requires forall x | x in xs :: x.contract >= 0.0
    ensures Total(xs) >= 0.0 && forall x | x in xs :: x.contract <= Total(xs)
    decreases |xs|
  {
    if xs != [] {
      assert forall x | x in xs[1..] :: x in xs;
      TotalBounds(xs[1..]);
      assert xs == [xs[0]] + xs[1..];
    }
  }

  /** The row stored for an item: a new id that is its own lineage, plan, value and critical flag as
      asked for, and as weight the item's share of the total value. */
  function StoredItem(x: NewItem, id: int, total: real): Item {
    Item(id, id, x.workCode, x.plan, x.contract, if total == 0.0 then None
      else Some(x.contract / total), x.critical, true, None)
  }

  lemma {:induction false} StoredItems(xs: seq<NewItem>, next: int)
    ensures var items := WeighAll(InitialItems(xs, next));
      |items| == |xs| && forall i | 0 <= i < |xs| :: items[i] == StoredItem(xs[i], next + i, Total(xs))
  {
    InitialTotal(xs, next);
    hide ActiveValue;
  }

  /** What the store checks on one row. */
  predicate RowAllowed(x: Item) {
    x.plan > 0.0 && x.contract >= 0.0 && (x.weight.Some? ==> 0.0 < x.weight.value <= 1.0)
  }

  predicate CodesDiffer(items: seq<Item>) { forall i, j | 0 <= i < j < |items| ::
      items[i].workCode != items[j].workCode }

  lemma {:induction false} AllowedByRow(items: seq<Item>)
    ensures ItemsAllowed(items) <==> CodesDiffer(items) && forall i | 0 <= i < |items| :: RowAllowed(items[i])
  {
    assert forall x | x in items :: exists i | 0 <= i < |items| :: items[i] == x;
    assert forall i | 0 <= i < |items| :: items[i] in items;
  }

  lemma StoredAllowedIff(x: NewItem, id: int, t: real)
    requires x.contract >= 0.0 ==> x.contract <= t
    ensures RowAllowed(StoredItem(x, id, t)) <==> x.plan > 0.0 && x.contract >= 0.0 && (t > 0.0 ==> x.contract > 0.0)
  {
    if t > 0.0 && x.contract >= 0.0 { Share(x.contract, t); }
  }

  lemma Share(a: real, t: real)
    requires 0.0 <= a <= t && t > 0.0
    ensures 0.0 <= a / t <= 1.0 && (a > 0.0 <==> a / t > 0.0)
  {
  }

  lemma {:induction false} AllowedIff(xs: seq<NewItem>, next: int)
    ensures ItemsAllowed(WeighAll(InitialItems(xs, next))) <==> Acceptable(xs)
  {
    var items, t := WeighAll(InitialItems(xs, next)), Total(xs);
    StoredItems(xs, next);
    AllowedByRow(items);
    hide WeighAll, InitialItems, ActiveValue, ItemsAllowed;
    assert CodesDiffer(items) <==> forall i, j | 0 <= i < j < |xs| :: xs[i].workCode != xs[j].workCode by {
      assert forall i | 0 <= i < |xs| :: items[i].workCode == xs[i].workCode;
    }
    hide CodesDiffer;
    if i :| 0 <= i < |xs| && xs[i].contract < 0.0 {
      assert xs[i] in xs && !Acceptable(xs);
      assert !RowAllowed(items[i]);
    } else {
      assert forall x | x in xs :: x.contract >= 0.0;
      TotalBounds(xs);
      hide Total;
      forall i | 0 <= i < |xs|
        ensures RowAllowed(items[i])
          <==> xs[i].plan > 0.0 && xs[i].contract >= 0.0 && (t > 0.0 ==> xs[i].contract > 0.0)
      {
        assert xs[i] in xs;
        StoredAllowedIff(xs[i], next + i, t);
      }
      hide StoredItem, RowAllowed;
    }
  }

  lemma {:induction false} ValidIff(xs: seq<NewItem>, next: int)
    requires Acceptable(xs)
    ensures WeightsValid(WeighAll(InitialItems(xs, next))) <==> Total(xs) > 0.0
  {
    var raw := InitialItems(xs, next);
    TotalBounds(xs);
    InitialTotal(xs, next);
    assert forall x | x in raw :: x.active && x.weight.None?;
    if Total(xs) == 0.0 { NothingToWeigh(raw); }
    else {
      WeightsAddUp(raw, Total(xs));
      Whole(Total(xs));
      assert WeighAll(raw) == AllWeighed(raw, Total(xs));
    }
    hide InitialItems, WeighAll, AllWeighed, ActiveValue, WeightSum, Total;
  }

  /** The refusals of createInitial, in their order: among items that the store accepts, only those
      without any value fail the check of the weights. */
  lemma InitialRefuses(db: Db, site: int, xs: seq<NewItem>)
    ensures CreateInitial(db, site, xs).Error() ==
      Needs(site in db.sites, ObjectNotFound,
      Needs(forall v | v in db.versions && v.site == site :: !v.isActive, BoqActiveVersionExists,
      Needs((forall v | v in db.versions && v.site == site :: v.number != 10) && Acceptable(xs), ConstraintViolation,
      Needs(Total(xs) > 0.0, BoqWeightInvalid, None))))
  {
    var a := ActiveVersion(db.versions, site);
    assert a.None? <==> forall v | v in db.versions && v.site == site :: !v.isActive by { hide ActiveVersion; }
    AllowedIff(xs, db.nextItem);
    if Acceptable(xs) { ValidIff(xs, db.nextItem); }
    assert NumberTaken(db.versions, site, 10) <==> !forall v | v in db.versions && v.site == site :: v.number != 10;
    hide Acceptable, ItemsAllowed, WeightsValid, WeighAll, InitialItems, NumberTaken, ActiveVersion, Total;
  }

  /** The first version is number 1.0, active, and holds the items as they were asked for, each with
      its share of the total value. */
  lemma InitialWrites(db: Db, site: int, xs: seq<NewItem>)
    requires CreateInitial(db, site, xs).Ok?
    ensures Total(xs) > 0.0
    ensures var e, v := CreateInitial(db, site, xs).value, |db.versions|;
      && |e.versions| == v + 1 && |e.versions[v].items| == |xs|
      && e == db.(versions := db.versions + [Version(site, 10, true, e.versions[v].items)],
        nextItem := db.nextItem + |xs|)
      && forall i | 0 <= i < |xs| ::
           e.versions[v].items[i] == Item(db.nextItem + i, db.nextItem + i, xs[i].workCode, xs[i].plan, xs[i].contract,
                                          Some(xs[i].contract / Total(xs)), xs[i].critical, true, None)
  {
    InitialRefuses(db, site, xs);
    StoredItems(xs, db.nextItem);
    hide Acceptable, ItemsAllowed, WeightsValid, WeighAll, InitialItems, NumberTaken, ActiveVersion, Total;
  }

  // ---- createRequest ----

  /** Version v of the object is its only active one. */
  predicate OnlyActive(versions: seq<Version>, site: int, v: nat) {
    && v < |versions| && versions[v].site == site && versions[v].isActive
    && forall i | 0 <= i < |versions| && i != v :: !(versions[i].site == site && versions[i].isActive)
  }

  lemma OnlyActiveIs(versions: seq<Version>, site: int, v: nat)
    requires OnlyActive(versions, site, v)
    ensures ActiveVersion(versions, site) == Some(v)
  {
    hide ActiveVersion;
  }

  /** A request is refused unless the active version lists the item; otherwise it waits. */
  lemma RequestOutcome(db: Db, site: int, item: int, plan: real, v: nat)
    requires OnlyActive(db.versions, site, v)
    ensures var r := CreateRequest(db, site, item, plan);
      if site !in db.sites then r == Fail(ObjectNotFound)
      else if forall x | x in db.versions[v].items :: x.id != item then r == Fail(BoqItemNotInActiveVersion)
      else r == Ok(db.(requests := db.requests + [Request(site, item, plan, RequestPending)]))
  {
    OnlyActiveIs(db.versions, site, v);
    hide ActiveVersion, OnlyActive;
  }

  lemma RequestNeedsActive(db: Db, site: int, item: int, plan: real)
    requires forall v | v in db.versions && v.site == site :: !v.isActive
    ensures CreateRequest(db, site, item, plan) ==
      Fail(if site in db.sites then BoqItemNotInActiveVersion else ObjectNotFound)
  {
    hide ActiveVersion;
  }

  // ---- approveRequest ----

  lemma {:induction false} CloneWeights(items: seq<Item>, next: int, item: int, plan: real)
    requires WellWeighed(items)
    ensures var raw := CloneItems(items, next, item, plan);
      && WeightsValid(WeighAll(raw)) && |WeighAll(raw)| == |items|
      && forall i | 0 <= i < |items| ::
        WeighAll(raw)[i] == CloneItem(items[i], next + i, item, plan).(weight := items[i].weight)
  {
    var raw := CloneItems(items, next, item, plan);
    CloneValue(items, next, item, plan);
    assert forall i | 0 <= i < |items| :: items[i] in items && raw[i] == CloneItem(items[i], next + i, item, plan);
    assert forall x | x in raw :: x.active;
    WeightsAddUp(raw, ActiveValue(items));
    Whole(ActiveValue(items));
    assert WeighAll(raw) == AllWeighed(raw, ActiveValue(items));
    hide ActiveValue, WeightSum, CloneItems;
  }

  lemma {:induction false} CloneValue(items: seq<Item>, next: int, item: int, plan: real)
    ensures ActiveValue(CloneItems(items, next, item, plan)) == ActiveValue(items)
    decreases |items|
  {
    if items != [] {
      assert CloneItems(items, next, item, plan)[1..] == CloneItems(items[1..], next + 1, item, plan);
      CloneValue(items[1..], next + 1, item, plan);
    }
  }

  lemma {:induction false} ClonesAllowedIff(items: seq<Item>, next: int, item: int, plan: real)
    requires WellWeighed(items)
    ensures ItemsAllowed(WeighAll(CloneItems(items, next, item, plan))) <==>
      CodesDiffer(items) && ((exists x | x in items :: x.id == item) ==> plan > 0.0)
  {
    var ws, t := WeighAll(CloneItems(items, next, item, plan)), ActiveValue(items);
    CloneWeights(items, next, item, plan);
    AllowedByRow(ws);
    hide ItemsAllowed, CloneItems, WeighAll, WeightsValid;
    assert CodesDiffer(ws) <==> CodesDiffer(items) by {
      assert forall i | 0 <= i < |items| :: ws[i].workCode == items[i].workCode;
    }
    hide CodesDiffer;
    forall i | 0 <= i < |items| ensures RowAllowed(ws[i]) <==> (items[i].id == item ==> plan > 0.0) {
      var x := items[i];
      assert x in items && x.plan > 0.0 && x.weight == Some(x.contract / t) && 0.0 < x.weight.value <= 1.0;
      hide WellWeighed;
      Positive(x.contract, t);
      assert ws[i] == CloneItem(x, next + i, item, plan).(weight := x.weight);
    }
    hide WellWeighed, RowAllowed, ActiveValue, WeightSum;
    assert (exists x | x in items :: x.id == item) <==> exists i | 0 <= i < |items| :: items[i].id == item;
  }

  lemma Positive(a: real, t: real)
    requires t > 0.0 && a / t > 0.0
    ensures a > 0.0
  {
  }

  /** The next number is free: the active version of the object has the greatest one. */
  lemma NextNumberIsFree(versions: seq<Version>, next: int, site: int, v: nat)
    requires Chain(versions, next) && OnlyActive(versions, site, v)
    ensures !NumberTaken(versions, site, versions[v].number + 1)
  {
    forall i | 0 <= i < |versions| && versions[i].site == site ensures versions[i].number <= versions[v].number {
      if i < v { NumbersIncrease(versions, next, i, v); }
      if v < i { NumbersIncrease(versions, next, v, i); }
    }
    hide Chain;
  }

  /** The refusals of approveRequest, in their order, in every reachable state of the versions: the
      new version always gets a free number and valid weights, so that what remains is the plan of
      the request, and only when the item is still listed. */
  lemma ApprovalRefuses(db: Db, id: nat, v: nat)
    requires Chain(db.versions, db.nextItem)
    requires id < |db.requests| ==> OnlyActive(db.versions, db.requests[id].site, v)
    ensures ApproveRequest(db, id).Error() ==
      if id >= |db.requests| then Some(BaselineRequestNotFound)
      else
        var q, items := db.requests[id], db.versions[v].items;
        Needs(q.status == RequestPending, BaselineRequestAlreadyReviewed,
        Needs(q.site in db.sites, ObjectNotFound,
        Needs(forall k | k in db.periods && k.site == q.site ::
          db.periods[k].status != Open, PeriodOpenCannotUpdateBaseline,
        Needs(CodesDiffer(items) && ((exists x | x in items :: x.id == q.item) ==> q.newPlan > 0.0),
          ConstraintViolation,
          None))))
  {
    if id < |db.requests| {
      var q := db.requests[id];
      OnlyActiveIs(db.versions, q.site, v);
      NextNumberIsFree(db.versions, db.nextItem, q.site, v);
      assert LinkOk(db.versions, v);
      ClonesAllowedIff(db.versions[v].items, db.nextItem, q.item, q.newPlan);
      CloneWeights(db.versions[v].items, db.nextItem, q.item, q.newPlan);
    }
    hide Chain, LinkOk, OnlyActive, ActiveVersion, NumberTaken, WellWeighed, ItemsAllowed, WeightsValid, WeighAll,
      CloneItems,
      CodesDiffer;
  }

  /** An approval touches versions and requests, and only the active mark of the version before. */
  lemma ApprovalWrites(db: Db, id: nat, v: nat)
    requires ApproveRequest(db, id).Ok? && id < |db.requests| && OnlyActive(db.versions, db.requests[id].site, v)
    ensures var e, n := ApproveRequest(db, id).value, |db.versions|;
      && |e.versions| == n + 1 && e.versions[v] == db.versions[v].(isActive := false)
      && (forall i | 0 <= i < n && i != v :: e.versions[i] == db.versions[i])
      && e.versions[n].site == db.versions[v].site && e.versions[n].isActive
        && e.versions[n].number == db.versions[v].number + 1
      && e == db.(versions := e.versions, nextItem := e.nextItem,
                  requests := db.requests[id := db.requests[id].(status := RequestApproved)])
  {
    OnlyActiveIs(db.versions, db.requests[id].site, v);
    hide ActiveVersion, NumberTaken, ItemsAllowed, WeightsValid, WeighAll, CloneItems, HasOpenPeriod;
  }
}

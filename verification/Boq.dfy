/** Creation of the first BoQ version and approval of baseline updates. */
module BoqSpec {
  import opened Common
  import opened Store
  import opened PeriodSpec

  datatype NewItem = NewItem(workCode: string, plan: real, contract: real, critical: bool)

  // ---- weights, as the store's trigger sets them ----

  function ActiveValue(items: seq<Item>): real {
    if items == [] then 0.0 else (if items[0].active then items[0].contract else 0.0) + ActiveValue(items[1..])
  }

  function Weighed(x: Item, total: real): Item {
    if x.active && total != 0.0 then x.(weight := Some(x.contract / total)) else x
  }

  function WeighAll(items: seq<Item>): seq<Item> {
    var total := ActiveValue(items);
    seq(|items|, i requires 0 <= i < |items| => Weighed(items[i], total))
  }

  function WeightSum(items: seq<Item>): real {
    if items == [] then 0.0
    else (if items[0].active && items[0].weight.Some? then items[0].weight.value else 0.0) + WeightSum(items[1..])
  }

  predicate WeightsValid(items: seq<Item>) {
    var gap := WeightSum(items) - 1.0;
    -0.001 <= gap <= 0.001
  }

  /** What the store checks on the items of a version. */
  predicate ItemsAllowed(items: seq<Item>) {
    && (forall x | x in items :: x.plan > 0.0 && x.contract >= 0.0 && (x.weight.Some? ==> 0.0 < x.weight.value <= 1.0))
    && (forall i, j | 0 <= i < j < |items| :: items[i].workCode != items[j].workCode)
  }

  predicate NumberTaken(versions: seq<Version>, site: int, number: nat) {
    exists v | v in versions :: v.site == site && v.number == number
  }

  // ---- createInitial ----

  /** The rows of a first version; each starts its own lineage. */
  function InitialItems(xs: seq<NewItem>, nextItem: int): seq<Item> {
    seq(|xs|, i requires 0 <= i < |xs| =>
      Item(nextItem + i, nextItem + i, xs[i].workCode, xs[i].plan, xs[i].contract, None, xs[i].critical, true, None))
  }

  const FIRST_NUMBER: nat := 10

  function CreateInitial(db: Db, site: int, xs: seq<NewItem>): Result<Db> {
    if site !in db.sites then Fail(ObjectNotFound)
    else if ActiveVersion(db.versions, site).Some? then Fail(BoqActiveVersionExists)
    else
      var items := WeighAll(InitialItems(xs, db.nextItem));
      if NumberTaken(db.versions, site, FIRST_NUMBER) || !ItemsAllowed(items) then Fail(ConstraintViolation)
      else if !WeightsValid(items) then Fail(BoqWeightInvalid)
      else Ok(db.(versions := db.versions + [Version(site, FIRST_NUMBER, true, items)], nextItem := db.nextItem + |xs|))
  }

  // ---- createRequest and approveRequest ----

  function CreateRequest(db: Db, site: int, item: int, newPlan: real): Result<Db> {
    if site !in db.sites then Fail(ObjectNotFound)
    else
      var v := ActiveVersion(db.versions, site);
      if v.None? || !HasItem(db.versions[v.value].items, item) then Fail(BoqItemNotInActiveVersion)
      else Ok(db.(requests := db.requests + [Request(site, item, newPlan, RequestPending)]))
  }

  function CloneItem(x: Item, id: int, item: int, newPlan: real): Item {
    Item(id, x.lineage, x.workCode, if x.id == item then newPlan
      else x.plan, x.contract, None, x.critical, x.active, Some(x.id))
  }

  function CloneItems(items: seq<Item>, nextItem: int, item: int, newPlan: real): seq<Item> {
    seq(|items|, i requires 0 <= i < |items| => CloneItem(items[i], nextItem + i, item, newPlan))
  }

  function ApproveRequest(db: Db, id: nat): Result<Db> {
    if id >= |db.requests| then Fail(BaselineRequestNotFound)
    else
      var q := db.requests[id];
      if q.status != RequestPending then Fail(BaselineRequestAlreadyReviewed)
      else if q.site !in db.sites then Fail(ObjectNotFound)
      else if HasOpenPeriod(db.periods, q.site) then Fail(PeriodOpenCannotUpdateBaseline)
      else
        var v := ActiveVersion(db.versions, q.site);
        if v.None? then Fail(RowNotFound)
        else
          var active := db.versions[v.value];
          var items := WeighAll(CloneItems(active.items, db.nextItem, q.item, q.newPlan));
          if NumberTaken(db.versions, q.site, active.number + 1) || !ItemsAllowed(items) then Fail(ConstraintViolation)
          else if !WeightsValid(items) then Fail(BoqWeightInvalid)
          else Ok(db.(
            versions := db.versions[v.value := active.(isActive := false)] + [Version(q.site, active.number + 1,
              true, items)],
            nextItem := db.nextItem + |active.items|,
            requests := db.requests[id := q.(status := RequestApproved)]))
  }
}

/** The BoQ and baseline services, proved against BoqSpec. */
module BoqServices {
  import opened Common
  import opened Store
  import opened PeriodSpec
  import opened BoqSpec

  class BoqService {
    const db: Database

    constructor (db: Database)
      ensures this.db == db
    {
      this.db := db;
    }

    method CreateInitial(site: int, xs: seq<NewItem>) returns (e: Option<Error>)
      modifies db
      ensures var r := BoqSpec.CreateInitial(old(db.View()), site, xs);
        e == r.Error() && db.View() == r.Or(old(db.View()))
    {
      if site !in db.sites { return Some(ObjectNotFound); }
      var existing := ActiveVersion(db.versions, site);
      if existing.Some? { return Some(BoqActiveVersionExists); }
      var items := WeighAll(InitialItems(xs, db.nextItem));
      if NumberTaken(db.versions, site, FIRST_NUMBER) || !ItemsAllowed(items) { return Some(ConstraintViolation); }
      var sum := SumWeights(items);
      if sum - 1.0 > 0.001 || 1.0 - sum > 0.001 { return Some(BoqWeightInvalid); }
      db.versions := db.versions + [Version(site, FIRST_NUMBER, true, items)];
      db.nextItem := db.nextItem + |xs|;
      return None;
    }
  }

  method SumWeights(items: seq<Item>) returns (sum: real)
    ensures sum == WeightSum(items)
  {
    sum := 0.0;
    for i := 0 to |items|
      invariant sum + WeightSum(items[i..]) == WeightSum(items)
    {
      assert items[i..][0] == items[i] && items[i..][1..] == items[i + 1..];
      if items[i].active && items[i].weight.Some? { sum := sum + items[i].weight.value; }
    }
  }

  class BaselineService {
    const db: Database

    constructor (db: Database)
      ensures this.db == db
    {
      this.db := db;
    }

    method CreateRequest(site: int, item: int, newPlan: real) returns (e: Option<Error>)
      modifies db
      ensures var r := BoqSpec.CreateRequest(old(db.View()), site, item, newPlan);
        e == r.Error() && db.View() == r.Or(old(db.View()))
    {
      if site !in db.sites { return Some(ObjectNotFound); }
      var v := ActiveVersion(db.versions, site);
      if v.None? || !HasItem(db.versions[v.value].items, item) { return Some(BoqItemNotInActiveVersion); }
      db.requests := db.requests + [Request(site, item, newPlan, RequestPending)];
      return None;
    }

    method ApproveRequest(id: nat) returns (e: Option<Error>)
      modifies db
      ensures var r := BoqSpec.ApproveRequest(old(db.View()), id);
        e == r.Error() && db.View() == r.Or(old(db.View()))
    {
      if id >= |db.requests| { return Some(BaselineRequestNotFound); }
      var q := db.requests[id];
      if q.status != RequestPending { return Some(BaselineRequestAlreadyReviewed); }
      if q.site !in db.sites { return Some(ObjectNotFound); }
      if HasOpenPeriod(db.periods, q.site) { return Some(PeriodOpenCannotUpdateBaseline); }
      var v := ActiveVersion(db.versions, q.site);
      if v.None? { return Some(RowNotFound); }
      var active := db.versions[v.value];
      var items := WeighAll(CloneItems(active.items, db.nextItem, q.item, q.newPlan));
      if NumberTaken(db.versions, q.site, active.number + 1)
        || !ItemsAllowed(items) { return Some(ConstraintViolation); }
      var sum := SumWeights(items);
      if sum - 1.0 > 0.001 || 1.0 - sum > 0.001 { return Some(BoqWeightInvalid); }
      db.versions := db.versions + [Version(q.site, active.number + 1, true, items)];
      db.nextItem := db.nextItem + |active.items|;
      db.versions := db.versions[v.value := active.(isActive := false)];
      db.requests := db.requests[id := q.(status := RequestApproved)];
      return None;
    }
  }
}

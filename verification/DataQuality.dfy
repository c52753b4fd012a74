/**
 * The data quality report, and relabelling the orders that it withholds from the scheduler
 * (backend/app/engines/data_quality/engine.py, backend/app/engines/pipeline.py).
 */
module DataQuality {
  import Decimal
  import opened Prelude
  import opened Sorting

  type Id = string

  datatype Item = Item(orderId: Id, operationId: Option<Id>, reason: string, text: string, readiness: Option<int>)

  const DATA_QUALITY: string := "data_quality"
  const NO_PRIORITY: string := "no_priority"

  /** The list's order: order id, then operation id with a missing one first. */
  predicate ItemLeq(a: Item, b: Item) {
    StrLess(a.orderId, b.orderId)
    || (a.orderId == b.orderId && StrLeq(a.operationId.GetOr(""), b.operationId.GetOr("")))
  }

  lemma ItemOrder()
    ensures Preorder(ItemLeq)
  {
    StrLeqOrder();
  }

  /** What the reports and priorities say about a withheld order: its message and readiness. */
  type Details = map<Id, (string, Option<int>)>

  function Relabelled(o: Id, d: Details): Item {
    if o in d then Item(o, None, DATA_QUALITY, d[o].0, d[o].1) else Item(o, None, DATA_QUALITY, "", None)
  }

  predicate Dropped(i: Item, excluded: set<Id>) {
    i.orderId in excluded && i.reason == NO_PRIORITY
  }

  function Kept(items: seq<Item>, excluded: set<Id>): seq<Item> {
    if items == [] then []
    else
      var front := Kept(items[..|items| - 1], excluded);
      if Dropped(items[|items| - 1], excluded) then front else front + [items[|items| - 1]]
  }

  function Orders(items: seq<Item>): set<Id> {
    set i | i in items :: i.orderId
  }

  /** One item for every listed order that is not reported yet. */
  function Fresh(orders: seq<Id>, reported: set<Id>, d: Details): seq<Item> {
    if orders == [] then []
    else
      var front, o := Fresh(orders[..|orders| - 1], reported, d), orders[|orders| - 1];
      if o in reported then front else front + [Relabelled(o, d)]
  }

  function Distinct(ids: seq<Id>): seq<Id> {
    if ids == [] then []
    else
      var front := Distinct(ids[..|ids| - 1]);
      if ids[|ids| - 1] in front then front else front + [ids[|ids| - 1]]
  }

  function SortedSet(ids: seq<Id>): seq<Id> {
    Sort(StrLeq, Distinct(ids))
  }

  function Withheld(items: seq<Item>, ids: seq<Id>, d: Details): seq<Item> {
    var excluded := set o | o in ids;
    var kept := Kept(items, excluded);
    Sort(ItemLeq, kept + Fresh(SortedSet(ids), Orders(kept), d))
  }

  class Schedule {
    var unscheduled: seq<Item>

    constructor (items: seq<Item>)
      ensures unscheduled == items
    {
      unscheduled := items;
    }

    method WithholdBlocked(ids: seq<Id>, d: Details)
      modifies this
      ensures unscheduled == Withheld(old(unscheduled), ids, d)
    {
      var excluded := set o | o in ids;
      var kept := [];
      for i := 0 to |unscheduled|
        invariant unscheduled == old(unscheduled)
        invariant kept == Kept(unscheduled[..i], excluded)
      {
        assert unscheduled[..i + 1][..i] == unscheduled[..i];
        if !(unscheduled[i].orderId in excluded && unscheduled[i].reason == NO_PRIORITY) {
          kept := kept + [unscheduled[i]];
        }
      }
      assert unscheduled[..|unscheduled|] == unscheduled;
      var reported := Orders(kept);
      var orders := SortedSet(ids);
      ghost var base := kept;
      for i := 0 to |orders|
        invariant unscheduled == old(unscheduled)
        invariant kept == base + Fresh(orders[..i], reported, d)
      {
        assert orders[..i + 1][..i] == orders[..i];
        if orders[i] !in reported {
          kept := kept + [Relabelled(orders[i], d)];
        }
      }
      assert orders[..|orders|] == orders;
      unscheduled := Sort(ItemLeq, kept);
    }
  }

  // --------------------------------------------------------------- properties

  lemma {:induction false} KeptMembers(items: seq<Item>, excluded: set<Id>)
    ensures forall i :: multiset(Kept(items, excluded))[i] == (if Dropped(i, excluded) then 0 else multiset(items)[i])
    ensures forall i :: i in Kept(items, excluded) <==> i in items && !Dropped(i, excluded)
  {
    if items != [] {
      KeptMembers(items[..|items| - 1], excluded);
      assert items == items[..|items| - 1] + [items[|items| - 1]];
    }
  }

  lemma {:induction false} FreshMembers(orders: seq<Id>, reported: set<Id>, d: Details)
    ensures forall i :: i in Fresh(orders, reported, d) <==>
              i.orderId in orders && i.orderId !in reported && i == Relabelled(i.orderId, d)
  {
    if orders != [] {
      FreshMembers(orders[..|orders| - 1], reported, d);
      assert orders == orders[..|orders| - 1] + [orders[|orders| - 1]];
    }
  }

  lemma {:induction false} DistinctMembers(ids: seq<Id>)
    ensures forall o :: o in Distinct(ids) <==> o in ids
    ensures forall i, j :: 0 <= i < j < |Distinct(ids)| ==> Distinct(ids)[i] != Distinct(ids)[j]
  {
    if ids != [] {
      DistinctMembers(ids[..|ids| - 1]);
      assert ids == ids[..|ids| - 1] + [ids[|ids| - 1]];
    }
  }

  lemma SortedSetMembers(ids: seq<Id>)
    ensures forall o :: o in SortedSet(ids) <==> o in ids
  {
    DistinctMembers(ids);
    SortMembers(StrLeq, Distinct(ids));
  }

  /** Which items the result holds: the kept ones and one for each withheld order nothing else reports. */
  lemma WithheldMembers(items: seq<Item>, ids: seq<Id>, d: Details, i: Item)
    ensures i in Withheld(items, ids, d) <==>
              var excluded := set o | o in ids;
              || (i in items && !Dropped(i, excluded))
              || (i.orderId in excluded && i == Relabelled(i.orderId, d)
                  && forall j :: j in items && j.orderId == i.orderId ==> j.reason == NO_PRIORITY)
  {
    var excluded := set o | o in ids;
    var kept := Kept(items, excluded);
    SortMembers(ItemLeq, kept + Fresh(SortedSet(ids), Orders(kept), d));
    KeptMembers(items, excluded);
    SortedSetMembers(ids);
    FreshMembers(SortedSet(ids), Orders(kept), d);
    assert i in kept + Fresh(SortedSet(ids), Orders(kept), d)
      <==> i in kept || i in Fresh(SortedSet(ids), Orders(kept), d);
    if i.orderId in excluded {
      assert i.orderId in Orders(kept) <==> exists j :: j in kept && j.orderId == i.orderId;
    }
  }

  /**
   * The accounting: the unscheduled orders afterwards are the old ones and the withheld ones, so the set
   * is unchanged exactly when the scheduler had reported every withheld order already.
   */
  lemma EveryOrderAccounted(items: seq<Item>, ids: seq<Id>, d: Details)
    ensures Orders(Withheld(items, ids, d)) == Orders(items) + set o | o in ids
    ensures Orders(Withheld(items, ids, d)) == Orders(items) <==> forall o :: o in ids ==> o in Orders(items)
  {
    var r, excluded := Withheld(items, ids, d), set o | o in ids;
    forall o ensures o in Orders(r) <==> o in Orders(items) || o in excluded {
      if o in Orders(r) {
        var i :| i in r && i.orderId == o;
        WithheldMembers(items, ids, d, i);
      }
      if o in excluded {
        WithheldMembers(items, ids, d, Relabelled(o, d));
        if j :| j in items && j.orderId == o && j.reason != NO_PRIORITY {
          WithheldMembers(items, ids, d, j);
        }
      } else if o in Orders(items) {
        var i :| i in items && i.orderId == o;
        WithheldMembers(items, ids, d, i);
      }
    }
  }

  /** No withheld order keeps a `no_priority` item, and every other order keeps its items, each as often. */
  lemma OthersUntouched(items: seq<Item>, ids: seq<Id>, d: Details, i: Item)
    ensures i.orderId in ids && i.reason == NO_PRIORITY ==> i !in Withheld(items, ids, d)
    ensures i.orderId !in ids ==> multiset(Withheld(items, ids, d))[i] == multiset(items)[i]
  {
    WithheldMembers(items, ids, d, i);
    var excluded := set o | o in ids;
    var kept := Kept(items, excluded);
    var added := Fresh(SortedSet(ids), Orders(kept), d);
    SortMembers(ItemLeq, kept + added);
    KeptMembers(items, excluded);
    SortedSetMembers(ids);
    FreshMembers(SortedSet(ids), Orders(kept), d);
    assert multiset(kept + added) == multiset(kept) + multiset(added);
    if i.orderId !in ids {
      assert i !in added;
      assert multiset(added)[i] == 0;
    }
  }

  lemma {:induction false} NothingDropped(items: seq<Item>, excluded: set<Id>)
    requires forall i :: i in items ==> !Dropped(i, excluded)
    ensures Kept(items, excluded) == items
  {
    if items != [] {
      assert items[|items| - 1] in items && forall i :: i in items[..|items| - 1] ==> i in items;
      NothingDropped(items[..|items| - 1], excluded);
      assert items == items[..|items| - 1] + [items[|items| - 1]];
    }
  }

  lemma {:induction false} NothingAdded(orders: seq<Id>, reported: set<Id>, d: Details)
    requires forall o :: o in orders ==> o in reported
    ensures Fresh(orders, reported, d) == []
  {
    if orders != [] {
      NothingAdded(orders[..|orders| - 1], reported, d);
    }
  }

  /** By order, and the items of one order by operation, one without an operation first. */
  lemma ResultOrder(items: seq<Item>, ids: seq<Id>, d: Details)
    ensures var r := Withheld(items, ids, d);
      forall i, j :: 0 <= i < j < |r| ==>
        || StrLess(r[i].orderId, r[j].orderId)
        || (r[i].orderId == r[j].orderId && StrLeq(r[i].operationId.GetOr(""), r[j].operationId.GetOr("")))
  {
    WithholdingTwice(items, ids, d);
  }

  /** The result is sorted, and relabelling it again changes nothing. */
  lemma WithholdingTwice(items: seq<Item>, ids: seq<Id>, d: Details)
    ensures SortedBy(ItemLeq, Withheld(items, ids, d))
    ensures Withheld(Withheld(items, ids, d), ids, d) == Withheld(items, ids, d)
  {
    var r, excluded := Withheld(items, ids, d), set o | o in ids;
    var kept := Kept(items, excluded);
    ItemOrder();
    SortSorted(ItemLeq, kept + Fresh(SortedSet(ids), Orders(kept), d));
    forall i | i in r ensures !Dropped(i, excluded) {
      WithheldMembers(items, ids, d, i);
    }
    NothingDropped(r, excluded);
    EveryOrderAccounted(items, ids, d);
    SortedSetMembers(ids);
    NothingAdded(SortedSet(ids), Orders(r), d);
    assert r + [] == r;
    SortFixpoint(ItemLeq, r);
  }

  // ---------------------------------------------------- the scheduler's gate

  datatype OrderRow = OrderRow(id: Id, isOpen: bool, schedulable: bool)

  const STATUS: string := "status_not_schedulable"

  /** An open order that the scheduler may try to place. */
  predicate IsCandidate(o: OrderRow, priorities: set<Id>) {
    o.isOpen && o.schedulable && o.id in priorities
  }

  /** The items of `select_candidates` for open orders that are no candidates. */
  function Refused(orders: seq<OrderRow>, priorities: set<Id>): seq<Item> {
    if orders == [] then []
    else
      var front, o := Refused(orders[..|orders| - 1], priorities), orders[|orders| - 1];
      if !o.isOpen || IsCandidate(o, priorities) then front
      else if !o.schedulable then front + [Item(o.id, None, STATUS, "", None)]
      else front + [Item(o.id, None, NO_PRIORITY, "", None)]
  }

  lemma {:induction false} RefusedOrders(orders: seq<OrderRow>, priorities: set<Id>)
    ensures forall k :: k in Orders(Refused(orders, priorities)) <==>
              exists o :: o in orders && o.id == k && o.isOpen && !IsCandidate(o, priorities)
  {
    if orders != [] {
      var front, last := orders[..|orders| - 1], orders[|orders| - 1];
      RefusedOrders(front, priorities);
      assert orders == front + [last];
      forall k
        ensures k in Orders(Refused(orders, priorities)) <==>
                  || k in Orders(Refused(front, priorities))
                  || (last.id == k && last.isOpen && !IsCandidate(last, priorities))
      {
        var items := Refused(orders, priorities);
        if last.isOpen && !IsCandidate(last, priorities) {
          assert items[|items| - 1].orderId == last.id && items[|items| - 1] in items;
        }
        if i :| i in Refused(front, priorities) && i.orderId == k {
          assert i in items;
        }
      }
    }
  }

  /** Why an open order is refused: its status, else a missing priority. */
  lemma {:induction false} RefusedMembers(orders: seq<OrderRow>, priorities: set<Id>, i: Item)
    ensures i in Refused(orders, priorities) <==>
              exists o :: o in orders && o.isOpen
                && i == Item(o.id, None, if o.schedulable then "no_priority" else "status_not_schedulable", "", None)
                && (o.schedulable ==> o.id !in priorities)
  {
    if orders != [] {
      var front, last := orders[..|orders| - 1], orders[|orders| - 1];
      RefusedMembers(front, priorities, i);
      assert orders == front + [last];
    }
  }

  // ------------------------------------------------------------- the report

  /** An issue with the order it belongs to, if any. */
  datatype Issue = Issue(orderId: Option<Id>, blocking: bool, message: string)

  predicate Blocks(i: Issue, open: set<Id>) {
    i.blocking && i.orderId.Some? && i.orderId.value in open
  }

  /** The issues that block an open order, in the report's order. */
  function BlockingFor(issues: seq<Issue>, open: set<Id>, o: Id): seq<Issue> {
    if issues == [] then []
    else
      var front, last := BlockingFor(issues[..|issues| - 1], open, o), issues[|issues| - 1];
      if Blocks(last, open) && last.orderId.value == o then front + [last] else front
  }

  class Report {
    const issues: seq<Issue>
    const open: set<Id>
    var blockingOpen: map<Id, seq<Issue>>

    /** Open orders with a blocking issue, each with its blocking issues in order. */
    constructor (issues: seq<Issue>, open: set<Id>)
      ensures this.issues == issues && this.open == open && Valid()
    {
      this.issues, this.open := issues, open;
      new;
      var blocking: map<Id, seq<Issue>> := map[];
      for i := 0 to |issues|
        invariant this.issues == issues && this.open == open
        invariant forall o :: o in blocking <==> BlockingFor(issues[..i], open, o) != []
        invariant forall o :: o in blocking ==> blocking[o] == BlockingFor(issues[..i], open, o)
      {
        OneMoreIssue(issues, i, open);
        if issues[i].orderId.Some? {
          var o := issues[i].orderId.value;
          if issues[i].blocking && o in open {
            blocking := blocking[o := (if o in blocking then blocking[o] else []) + [issues[i]]];
          }
        }
      }
      assert issues[..|issues|] == issues;
      blockingOpen := blocking;
    }

    ghost predicate Valid()
      reads this
    {
      && (forall o :: o in blockingOpen <==> BlockingFor(issues, open, o) != [])
      && (forall o :: o in blockingOpen ==> blockingOpen[o] == BlockingFor(issues, open, o))
    }

    function BlockingIssuesFor(o: Id): seq<Issue>
      reads this
    {
      if o in blockingOpen then blockingOpen[o] else []
    }

    /** In order of the ids; whatever blocks an order, only open orders are listed. */
    method UnschedulableOrderIds() returns (ids: seq<Id>)
      requires Valid()
      ensures SortedBy(StrLeq, ids) && forall i, j :: 0 <= i < j < |ids| ==> ids[i] != ids[j]
      ensures forall o :: o in ids <==> BlockingFor(issues, open, o) != []
      ensures forall o :: o in ids ==> o in open
    {
      ids := [];
      var left := blockingOpen.Keys;
      while left != {}
        invariant left <= blockingOpen.Keys
        invariant forall o :: o in ids <==> o in blockingOpen && o !in left
        invariant forall i, j :: 0 <= i < j < |ids| ==> ids[i] != ids[j]
        decreases left
      {
        var o :| o in left;
        ids := ids + [o];
        left := left - {o};
      }
      ghost var listed := ids;
      ids := Sort(StrLeq, ids);
      StrLeqOrder();
      SortSorted(StrLeq, listed);
      SortMembers(StrLeq, listed);
      DistinctOnce(listed, blockingOpen.Keys);
      OnceDistinct(ids, blockingOpen.Keys);
      forall o | BlockingFor(issues, open, o) != [] ensures o in open {
        BlockingMembers(issues, open, o);
      }
    }
  }

  lemma OneMoreIssue(issues: seq<Issue>, i: nat, open: set<Id>)
    requires i < |issues|
    ensures forall o :: BlockingFor(issues[..i + 1], open, o)
                     == BlockingFor(issues[..i], open, o)
                        + if Blocks(issues[i], open) && issues[i].orderId.value == o then [issues[i]] else []
  {
    assert issues[..i + 1][..i] == issues[..i];
  }

  /** Exactly the blocking issues of an open order. */
  lemma {:induction false} BlockingMembers(issues: seq<Issue>, open: set<Id>, o: Id)
    ensures forall i :: i in BlockingFor(issues, open, o) <==> i in issues && Blocks(i, open) && i.orderId.value == o
    ensures BlockingFor(issues, open, o) != [] ==> o in open
  {
    if issues != [] {
      BlockingMembers(issues[..|issues| - 1], open, o);
      assert issues == issues[..|issues| - 1] + [issues[|issues| - 1]];
    }
  }

  const MAX_ISSUES_IN_REASON: nat := 3

  function Messages(issues: seq<Issue>): string {
    if issues == [] then ""
    else if |issues| == 1 then issues[0].message
    else issues[0].message + "; " + Messages(issues[1..])
  }

  function ReasonText(issues: seq<Issue>): string {
    var shown := if |issues| > MAX_ISSUES_IN_REASON then issues[..MAX_ISSUES_IN_REASON] else issues;
    "blocked by data quality (" + Decimal.Digits(|issues|) + " issue(s)): " + Messages(shown)
    + if |issues| > MAX_ISSUES_IN_REASON then " (+" + Decimal.Digits(|issues| - MAX_ISSUES_IN_REASON) + " more)" else ""
  }

  /** What every text begins with. */
  function Head(n: nat): string {
    "blocked by data quality (" + Decimal.Digits(n) + " issue(s)): "
  }

  lemma FewReasons(issues: seq<Issue>)
    requires 1 <= |issues| <= 2
    ensures |issues| == 1 ==> ReasonText(issues) == Head(1) + issues[0].message
    ensures |issues| == 2 ==> ReasonText(issues) == Head(2) + issues[0].message + "; " + issues[1].message
  {
    if |issues| == 1 {
      assert ReasonText(issues) == Head(1) + issues[0].message + "";
    } else {
      TwoMessages(issues);
      Flat(Head(2), issues[0].message, issues[1].message, "");
    }
  }

  lemma ManyReasons(issues: seq<Issue>)
    requires |issues| >= 3
    ensures ReasonText(issues) == Head(|issues|) + issues[0].message + "; " + issues[1].message
                                  + "; " + issues[2].message
                                  + if |issues| > 3 then " (+" + Decimal.Digits(|issues| - 3) + " more)" else ""
  {
    ThreeMessages(issues[..3]);
    assert |issues| == 3 ==> issues[..3] == issues;
    var tail := if |issues| > 3 then " (+" + Decimal.Digits(|issues| - 3) + " more)" else "";
    FlatThree(Head(|issues|), issues[0].message, issues[1].message, issues[2].message, tail);
  }

  /** What the text says: how many issues, the first three messages, and how many more there are. */
  lemma ReasonTextShows(issues: seq<Issue>)
    ensures |issues| == 1 ==> ReasonText(issues) == Head(1) + issues[0].message
    ensures |issues| == 2 ==> ReasonText(issues) == Head(2) + issues[0].message + "; " + issues[1].message
    ensures |issues| >= 3 ==>
              ReasonText(issues) == Head(|issues|) + issues[0].message + "; " + issues[1].message
                                    + "; " + issues[2].message
                                    + if |issues| > 3 then " (+" + Decimal.Digits(|issues| - 3) + " more)" else ""
    ensures forall n :: Head(n) == "blocked by data quality (" + Decimal.Digits(n) + " issue(s)): "
  {
    if 1 <= |issues| <= 2 {
      FewReasons(issues);
    } else if |issues| >= 3 {
      ManyReasons(issues);
    }
  }

  lemma Flat(h: string, a: string, b: string, tail: string)
    ensures h + (a + "; " + b) + tail == h + a + "; " + b + tail
  {
  }

  lemma FlatThree(h: string, a: string, b: string, c: string, tail: string)
    ensures h + (a + "; " + (b + "; " + c)) + tail == h + a + "; " + b + "; " + c + tail
  {
    Flat(h + a + "; ", b, c, tail);
    assert h + (a + "; " + (b + "; " + c)) == h + a + "; " + (b + "; " + c);
  }

  lemma ThreeMessages(issues: seq<Issue>)
    requires |issues| == 3
    ensures Messages(issues) == issues[0].message + "; " + (issues[1].message + "; " + issues[2].message)
  {
    TwoMessages(issues[1..]);
  }

  lemma TwoMessages(issues: seq<Issue>)
    requires |issues| == 2
    ensures Messages(issues) == issues[0].message + "; " + issues[1].message
  {
    assert Messages(issues[1..]) == issues[1].message;
  }

  // ------------------------------------------------------- behind the gate

  ghost predicate OpenIds(orders: seq<OrderRow>, open: set<Id>) {
    forall k :: k in open <==> exists o :: o in orders && o.id == k && o.isOpen
  }

  /**
   * Behind the gate, which hides the priorities of the withheld orders from the scheduler: when these are
   * open orders, as the report lists them, the scheduler reports every one of them.
   */
  lemma WithheldAreReported(orders: seq<OrderRow>, rest: set<Id>, ids: seq<Id>, later: seq<Item>, items: seq<Item>)
    requires forall k :: k in ids ==> k !in rest && exists o :: o in orders && o.id == k && o.isOpen
    requires forall i :: i in items <==> i in Refused(orders, rest) || i in later
    ensures forall k :: k in ids ==> k in Orders(items)
  {
    RefusedOrders(orders, rest);
    forall k | k in ids ensures k in Orders(items) {
      var o :| o in orders && o.id == k && o.isOpen;
      assert k in Orders(Refused(orders, rest));
      var i :| i in Refused(orders, rest) && i.orderId == k;
      assert i in items;
    }
  }

  /** The scheduler's list: what it refuses, and what it says later on. */
  function Reported(orders: seq<OrderRow>, rest: set<Id>, later: seq<Item>): seq<Item> {
    Sort(ItemLeq, Refused(orders, rest) + later)
  }

  /** So relabelling what the report lists never changes the set of unscheduled orders. */
  lemma GateKeepsOrders(orders: seq<OrderRow>, open: set<Id>, rest: set<Id>, ids: seq<Id>, d: Details, later: seq<Item>)
    requires OpenIds(orders, open) && forall k :: k in ids ==> k in open && k !in rest
    ensures var items := Reported(orders, rest, later); Orders(Withheld(items, ids, d)) == Orders(items)
  {
    var items := Reported(orders, rest, later);
    SortMembers(ItemLeq, Refused(orders, rest) + later);
    WithheldAreReported(orders, rest, ids, later, items);
    EveryOrderAccounted(items, ids, d);
  }

  /**
   * `SchedulerAdapter.schedule` with the report of the same snapshot: hide the withheld priorities,
   * schedule, relabel. Whatever the issues are, the set of unscheduled orders stays what it was.
   */
  method ScheduleBehindGate(orders: seq<OrderRow>, priorities: map<Id, Option<int>>, report: Report, later: seq<Item>)
    returns (ids: seq<Id>, schedulable: set<Id>, unscheduled: seq<Item>)
    requires report.Valid() && OpenIds(orders, report.open)
    ensures forall o :: o in ids <==> BlockingFor(report.issues, report.open, o) != []
    ensures schedulable == priorities.Keys - set o | o in ids
    ensures unscheduled == if ids == [] then Reported(orders, schedulable, later)
                           else Withheld(Reported(orders, schedulable, later), ids, DetailsFor(report, ids, priorities))
    ensures Orders(unscheduled) == Orders(Reported(orders, schedulable, later))
    ensures forall i :: i in unscheduled <==> BehindGate(i, orders, priorities, report.issues, report.open, later)
  {
    ids := report.UnschedulableOrderIds();
    schedulable := priorities.Keys;
    if ids != [] {
      schedulable := priorities.Keys - set o | o in ids;
    }
    var schedule := new Schedule(Reported(orders, schedulable, later));
    if ids != [] {
      schedule.WithholdBlocked(ids, DetailsFor(report, ids, priorities));
      GateKeepsOrders(orders, report.open, schedulable, ids, DetailsFor(report, ids, priorities), later);
    }
    unscheduled := schedule.unscheduled;
    assert schedulable == priorities.Keys - set o | o in ids;
    forall i ensures i in unscheduled <==> BehindGate(i, orders, priorities, report.issues, report.open, later) {
      GateItems(i, orders, priorities, report, ids, later);
    }
  }

  /**
   * Exactly which items are reported. A blocked order keeps what is said about its status and what the scheduler
   * says later on; it gets one new item, with its issues, exactly when nothing else is left to say about it. The
   * other open orders are refused for their status or for a missing priority, or reported later on.
   */
  ghost predicate BehindGate(i: Item, orders: seq<OrderRow>, priorities: map<Id, Option<int>>, issues: seq<Issue>,
                             open: set<Id>, later: seq<Item>)
  {
    var o := i.orderId;
    var blocking := BlockingFor(issues, open, o);
    var badStatus := exists row :: row in orders && row.id == o && row.isOpen && !row.schedulable;
    var unranked := exists row :: row in orders && row.id == o && row.isOpen && row.schedulable && o !in priorities;
    || (badStatus && i == Item(o, None, "status_not_schedulable", "", None))
    || (i in later && (blocking == [] || i.reason != "no_priority"))
    || (blocking == [] && unranked && i == Item(o, None, "no_priority", "", None))
    || (blocking != [] && !badStatus && (forall j :: j in later && j.orderId == o ==> j.reason == "no_priority")
        && i == Item(o, None, "data_quality", ReasonText(blocking), if o in priorities then priorities[o] else None))
  }

  /** What the scheduler reports when it does not see the priorities of the listed orders. */
  lemma ReportedItems(i: Item, orders: seq<OrderRow>, rest: set<Id>, later: seq<Item>)
    ensures i in Reported(orders, rest, later) <==>
              || i in later
              || exists row :: row in orders && row.isOpen && row.id == i.orderId
                   && i == Item(row.id, None, if row.schedulable then "no_priority" else "status_not_schedulable",
                                "", None)
                   && (row.schedulable ==> row.id !in rest)
  {
    SortMembers(ItemLeq, Refused(orders, rest) + later);
    RefusedMembers(orders, rest, i);
  }

  lemma GateItems(i: Item, orders: seq<OrderRow>, priorities: map<Id, Option<int>>, report: Report, ids: seq<Id>,
                  later: seq<Item>)
    requires report.Valid()
    requires forall o :: o in ids <==> BlockingFor(report.issues, report.open, o) != []
    ensures var items := Reported(orders, priorities.Keys - (set o | o in ids), later);
            i in (if ids == [] then items else Withheld(items, ids, DetailsFor(report, ids, priorities)))
            <==> BehindGate(i, orders, priorities, report.issues, report.open, later)
  {
    var rest := priorities.Keys - set o | o in ids;
    var items := Reported(orders, rest, later);
    ReportedItems(i, orders, rest, later);
    if i.orderId in ids {
      WithheldMembers(items, ids, DetailsFor(report, ids, priorities), i);
      OnlyPriorityItems(i.orderId, orders, rest, later);
    } else if ids != [] {
      WithheldMembers(items, ids, DetailsFor(report, ids, priorities), i);
    }
  }

  lemma OnlyPriorityItems(o: Id, orders: seq<OrderRow>, rest: set<Id>, later: seq<Item>)
    ensures (forall j :: j in Reported(orders, rest, later) && j.orderId == o ==> j.reason == "no_priority")
       <==> (forall j :: j in later && j.orderId == o ==> j.reason == "no_priority")
            && !exists row :: row in orders && row.id == o && row.isOpen && !row.schedulable
  {
    forall j | j in Reported(orders, rest, later) || j in later
      ensures j in Reported(orders, rest, later)
    {
      ReportedItems(j, orders, rest, later);
    }
    if row :| row in orders && row.id == o && row.isOpen && !row.schedulable {
      ReportedItems(Item(o, None, "status_not_schedulable", "", None), orders, rest, later);
    }
    forall j | j in Reported(orders, rest, later) && j.orderId == o && j !in later && j.reason != "no_priority"
      ensures exists row :: row in orders && row.id == o && row.isOpen && !row.schedulable
    {
      ReportedItems(j, orders, rest, later);
    }
  }

  /** What the new item of a withheld order says. */
  function DetailsFor(report: Report, ids: seq<Id>, priorities: map<Id, Option<int>>): Details
    reads report
  {
    map o | o in ids ::
      (ReasonText(report.BlockingIssuesFor(o)), if o in priorities then priorities[o] else None)
  }
}

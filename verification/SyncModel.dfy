/**
 * What a synchronisation run reads and writes, and what one run does to the store
 * (backend/app/integration/sync_service.py, backend/app/db/repositories/orders.py).
 */
module SyncModel {
  import opened Prelude

  type Id = string
  type Time = int

  datatype SyncMode = FULL | INCREMENTAL

  datatype RunStatus = RUNNING | COMPLETED_RUN | FAILED_RUN

  datatype RunRecord = RunRecord(mode: SyncMode, status: RunStatus, startedAt: Time)

  /** The watermark row: the latest start among the completed runs. */
  function LatestCompleted(runs: seq<RunRecord>): (w: Option<Time>)
    ensures w.Some? ==> exists r :: r in runs && r.status.COMPLETED_RUN? && r.startedAt == w.value
    ensures forall r :: r in runs && r.status.COMPLETED_RUN? ==> w.Some? && r.startedAt <= w.value
  {
    if runs == [] then None
    else
      var rest, last := LatestCompleted(runs[..|runs| - 1]), runs[|runs| - 1];
      assert runs == runs[..|runs| - 1] + [last];
      if last.status.COMPLETED_RUN? && (rest.None? || rest.value < last.startedAt) then Some(last.startedAt) else rest
  }

  /** A full run has no `since`; an incremental one starts from the watermark, if there is one. */
  function SinceFor(runs: seq<RunRecord>, mode: SyncMode): Option<Time> {
    if mode.FULL? then None else LatestCompleted(runs)
  }

  datatype OrderStatus =
    | NEW | RELEASED | PLANNED | SCHEDULED | MATERIAL_WAITING | TOOLING_WAITING | IN_PRODUCTION
    | PARTIALLY_COMPLETED | QUALITY_INSPECTION | REWORK | COMPLETED | PACKED | SHIPPED | ON_HOLD | CANCELLED

  predicate ClosedStatus(s: OrderStatus) {
    s.COMPLETED? || s.PACKED? || s.SHIPPED? || s.CANCELLED?
  }

  datatype OperationStatus =
    | OP_PENDING | OP_READY | OP_SCHEDULED | OP_IN_PROGRESS | OP_COMPLETED | OP_ON_HOLD | OP_REWORK | OP_CANCELLED

  // `body` and `plan` stand for the remaining mapped fields, which every step copies unchanged.
  datatype OrderDoc = OrderDoc(status: OrderStatus, body: int)

  datatype OpDoc = OpDoc(
    orderId: Id, plan: int, quantity: int, status: OperationStatus, completed: int, machine: Option<Id>,
    actualStart: Option<Time>, actualEnd: Option<Time>, lastReport: Option<Time>)

  /** A stored order; `missingSince` is the attribute that closing a missing order adds. */
  datatype StoredOrder = StoredOrder(doc: OrderDoc, missingSince: Option<Time>)

  datatype Data = Data(orders: map<Id, StoredOrder>, operations: map<Id, OpDoc>)

  /** The foreign key from operations to orders. */
  ghost predicate Referential(d: Data) {
    forall k :: k in d.operations ==> d.operations[k].orderId in d.orders
  }

  // --------------------------------------------------------- progress reports

  datatype Report = Report(
    operationId: Id, reportedAt: Time, status: OperationStatus, completed: Option<int>, machine: Option<Id>,
    actualStart: Option<Time>, actualEnd: Option<Time>)

  function ApplyReport(op: OpDoc, r: Report): OpDoc {
    op.(status := r.status,
        completed := r.completed.GetOr(op.completed),
        machine := if r.machine.Some? then r.machine else op.machine,
        actualStart := if r.actualStart.Some? then r.actualStart else op.actualStart,
        actualEnd := if r.actualEnd.Some? then r.actualEnd else op.actualEnd,
        lastReport := Some(r.reportedAt))
  }

  function ApplyReports(op: OpDoc, rs: seq<Report>): OpDoc {
    if rs == [] then op else ApplyReport(ApplyReports(op, rs[..|rs| - 1]), rs[|rs| - 1])
  }

  /** The reports about one operation, in order. */
  function ReportsFor(rs: seq<Report>, k: Id): seq<Report> {
    if rs == [] then []
    else
      var rest := ReportsFor(rs[..|rs| - 1], k);
      if rs[|rs| - 1].operationId == k then rest + [rs[|rs| - 1]] else rest
  }

  lemma {:induction false} ReportsForMembers(rs: seq<Report>, k: Id)
    ensures forall r :: r in ReportsFor(rs, k) <==> r in rs && r.operationId == k
  {
    if rs != [] {
      ReportsForMembers(rs[..|rs| - 1], k);
      assert rs == rs[..|rs| - 1] + [rs[|rs| - 1]];
    }
  }

  /** What one more report changes. */
  lemma OneMoreReport(op: OpDoc, rs: seq<Report>, i: nat, k: Id)
    requires i < |rs|
    ensures var before, after := ReportsFor(rs[..i], k), ReportsFor(rs[..i + 1], k);
      if rs[i].operationId == k
      then ApplyReports(op, after) == ApplyReport(ApplyReports(op, before), rs[i])
      else after == before
  {
    assert rs[..i + 1][..i] == rs[..i];
    var before := ReportsFor(rs[..i], k);
    assert (before + [rs[i]])[..|before|] == before;
  }

  /**
   * The last word wins, field by field: after any list of reports the status and the report time are
   * the last report's, and an optional field has the value of the last report that carried one.
   */
  lemma {:induction false} LastWordWins(op: OpDoc, rs: seq<Report>, i: nat)
    requires i < |rs|
    ensures ApplyReports(op, rs).status == rs[|rs| - 1].status
    ensures ApplyReports(op, rs).lastReport == Some(rs[|rs| - 1].reportedAt)
    ensures (rs[i].machine.Some? && (forall j :: i < j < |rs| ==> rs[j].machine.None?)) ==>
              ApplyReports(op, rs).machine == rs[i].machine
    ensures (rs[i].completed.Some? && (forall j :: i < j < |rs| ==> rs[j].completed.None?)) ==>
              ApplyReports(op, rs).completed == rs[i].completed.value
    ensures (rs[i].actualStart.Some? && (forall j :: i < j < |rs| ==> rs[j].actualStart.None?)) ==>
              ApplyReports(op, rs).actualStart == rs[i].actualStart
    ensures (rs[i].actualEnd.Some? && (forall j :: i < j < |rs| ==> rs[j].actualEnd.None?)) ==>
              ApplyReports(op, rs).actualEnd == rs[i].actualEnd
    ensures ApplyReports(op, rs).orderId == op.orderId && ApplyReports(op, rs).plan == op.plan
    ensures ApplyReports(op, rs).quantity == op.quantity
  {
    if i < |rs| - 1 {
      LastWordWins(op, rs[..|rs| - 1], i);
    } else {
      ReportsKeepPlan(op, rs);
    }
  }

  lemma {:induction false} ReportsKeepPlan(op: OpDoc, rs: seq<Report>)
    ensures ApplyReports(op, rs).orderId == op.orderId && ApplyReports(op, rs).plan == op.plan
    ensures ApplyReports(op, rs).quantity == op.quantity
  {
    if rs != [] {
      ReportsKeepPlan(op, rs[..|rs| - 1]);
    }
  }

  // ------------------------------------------------------- one run's effect

  /** The records of one run that the normaliser accepted; the reports are grouped by operation. */
  datatype Fetched = Fetched(orders: map<Id, OrderDoc>, operations: map<Id, OpDoc>, reports: map<Id, seq<Report>>)

  function ReportsAbout(f: Fetched, k: Id): seq<Report> {
    if k in f.reports then f.reports[k] else []
  }

  /** Validation drops an operation whose order is neither in the batch nor stored. */
  predicate OrderKnown(d: Data, f: Fetched, o: Id) {
    o in f.orders || o in d.orders
  }

  function Kept(d: Data, f: Fetched): map<Id, OpDoc> {
    map k | k in f.operations && OrderKnown(d, f, f.operations[k].orderId) :: f.operations[k]
  }

  /** The batch with its own reports applied. */
  function Batched(d: Data, f: Fetched): map<Id, OpDoc> {
    map k | k in Kept(d, f) :: ApplyReports(f.operations[k], ReportsAbout(f, k))
  }

  /** A full run deletes the operations of fetched orders that are not in the batch. */
  predicate Replaced(d: Data, f: Fetched, mode: SyncMode, k: Id)
    requires k in d.operations
  {
    mode.FULL? && d.operations[k].orderId in f.orders
    && !(k in Kept(d, f) && f.operations[k].orderId in f.orders)
  }

  function WithOrders(d: Data, f: Fetched): map<Id, StoredOrder> {
    d.orders + (map o | o in f.orders :: StoredOrder(f.orders[o], None))
  }

  function WithBatch(d: Data, f: Fetched, mode: SyncMode): map<Id, OpDoc> {
    (map k | k in d.operations && !Replaced(d, f, mode, k) :: d.operations[k]) + Batched(d, f)
  }

  /** Reports about operations outside the batch go to their stored copies. */
  function WithDeferred(ops: map<Id, OpDoc>, kept: map<Id, OpDoc>, f: Fetched): map<Id, OpDoc> {
    map k | k in ops :: if k in kept then ops[k] else ApplyReports(ops[k], ReportsAbout(f, k))
  }

  /** An open stored order that the ERP no longer serves is closed, never deleted. */
  function CloseMissing(orders: map<Id, StoredOrder>, keep: set<Id>, at: Time): map<Id, StoredOrder> {
    map o | o in orders ::
      if o !in keep && !ClosedStatus(orders[o].doc.status)
      then StoredOrder(orders[o].doc.(status := CANCELLED), Some(at)) else orders[o]
  }

  /** Deleting orders deletes their operations with them (ON DELETE CASCADE). */
  function DeleteMissing(d: Data, keep: set<Id>): Data {
    Data(map o | o in d.orders && o in keep :: d.orders[o],
         map k | k in d.operations && (d.operations[k].orderId in keep || d.operations[k].orderId !in d.orders)
           :: d.operations[k])
  }

  function Reconciled(d: Data, fetched: set<Id>, mode: SyncMode, prune: bool, at: Time): Data {
    if mode.INCREMENTAL? then d
    else if prune then DeleteMissing(d, fetched)
    else if fetched == {} then d
    else d.(orders := CloseMissing(d.orders, fetched, at))
  }

  /** The store after a completed run. */
  function Merge(d: Data, f: Fetched, mode: SyncMode, prune: bool, at: Time): Data {
    Reconciled(Data(WithOrders(d, f), WithDeferred(WithBatch(d, f, mode), Kept(d, f), f)),
               f.orders.Keys, mode, prune, at)
  }

  lemma MergeReferential(d: Data, f: Fetched, mode: SyncMode, prune: bool, at: Time)
    requires Referential(d)
    ensures Referential(Merge(d, f, mode, prune, at))
  {
    var m := Data(WithOrders(d, f), WithDeferred(WithBatch(d, f, mode), Kept(d, f), f));
    forall k | k in m.operations ensures m.operations[k].orderId in m.orders {
      if k in Kept(d, f) {
        ReportsKeepPlan(f.operations[k], ReportsAbout(f, k));
      } else {
        ReportsKeepPlan(d.operations[k], ReportsAbout(f, k));
      }
    }
  }

  /**
   * Progress routing refines one chronological fold: whatever was routed in the batch and whatever was
   * deferred, every operation in the store ends up as its batch copy (else its stored copy) with all
   * its reports applied in order.
   */
  lemma RoutingRefinesFold(d: Data, f: Fetched, mode: SyncMode, prune: bool, at: Time, k: Id)
    requires k in Merge(d, f, mode, prune, at).operations
    ensures k in Kept(d, f) || k in d.operations
    ensures Merge(d, f, mode, prune, at).operations[k]
         == ApplyReports(if k in Kept(d, f) then f.operations[k] else d.operations[k], ReportsAbout(f, k))
  {
  }

  /**
   * What a full run leaves behind: every fetched order as fetched, every other stored one unchanged in the
   * four final statuses and cancelled, marked with the run's start, in each of the other eleven.
   */
  lemma FullRunClosesMissing(d: Data, f: Fetched, at: Time, o: Id)
    requires f.orders != map[]
    ensures var m := Merge(d, f, FULL, false, at);
      && (o in m.orders <==> o in d.orders || o in f.orders)
      && (o in f.orders ==> m.orders[o] == StoredOrder(f.orders[o], None))
      && (o in d.orders && o !in f.orders ==>
            match d.orders[o].doc.status
            case COMPLETED | PACKED | SHIPPED | CANCELLED => m.orders[o] == d.orders[o]
            case NEW | RELEASED | PLANNED | SCHEDULED | MATERIAL_WAITING | TOOLING_WAITING | IN_PRODUCTION
               | PARTIALLY_COMPLETED | QUALITY_INSPECTION | REWORK | ON_HOLD =>
              m.orders[o] == StoredOrder(OrderDoc(CANCELLED, d.orders[o].doc.body), Some(at)))
  {
    var o' :| o' in f.orders;
    assert f.orders.Keys != {};
  }
}

/**
 * The mock ERP: what it serves, and its changes as steps of the protocol
 * (backend/app/integration/mock_connector.py).
 */
module MockErp {
  import opened Prelude
  import opened SyncModel
  import P = SyncProtocol

  /** Operations worth a progress report. */
  predicate Reportable(op: OpDoc) {
    op.status.OP_IN_PROGRESS? || op.status.OP_COMPLETED? || op.status.OP_REWORK? || op.status.OP_ON_HOLD?
    || op.completed > 0
  }

  function ReportOf(k: Id, op: OpDoc, at: Time): Option<Report> {
    if Reportable(op)
    then Some(Report(k, at, op.status, Some(op.completed), op.machine, op.actualStart, op.actualEnd))
    else None
  }

  /** A row as the protocol sees it: the report is derived from the operation and carries its stamp. */
  function Row(k: Id, op: OpDoc, stamp: Time): P.ErpOp {
    P.ErpOp(op.orderId, Some(op), ReportOf(k, op, stamp), stamp)
  }

  /** A row that was never touched carries the date of the data set. */
  function StampIn(stamps: map<Id, Time>, k: Id, asOf: Time): Time {
    if k in stamps then stamps[k] else asOf
  }

  function OrderRows(orders: map<Id, OrderDoc>, stamps: map<Id, Time>, asOf: Time): map<Id, P.ErpOrder> {
    map o | o in orders :: P.ErpOrder(Some(orders[o]), StampIn(stamps, o, asOf))
  }

  function Rows(ops: map<Id, OpDoc>, stamps: map<Id, Time>, asOf: Time): map<Id, P.ErpOp> {
    map k | k in ops :: Row(k, ops[k], StampIn(stamps, k, asOf))
  }

  lemma OrderAdded(orders: map<Id, OrderDoc>, stamps: map<Id, Time>, asOf: Time, o: Id, doc: OrderDoc, now: Time)
    ensures OrderRows(orders[o := doc], stamps[o := now], asOf)
         == OrderRows(orders, stamps, asOf)[o := P.ErpOrder(Some(doc), now)]
  {
  }

  lemma RowTouched(ops: map<Id, OpDoc>, stamps: map<Id, Time>, asOf: Time, k: Id, op: OpDoc, now: Time)
    ensures Rows(ops[k := op], stamps[k := now], asOf) == Rows(ops, stamps, asOf)[k := Row(k, op, now)]
  {
  }

  /** The rows after putting these operations one by one. */
  function RowsPut(rows: map<Id, P.ErpOp>, ops: seq<(Id, OpDoc)>, now: Time): map<Id, P.ErpOp> {
    if ops == [] then rows
    else RowsPut(rows, ops[..|ops| - 1], now)[ops[|ops| - 1].0 := Row(ops[|ops| - 1].0, ops[|ops| - 1].1, now)]
  }

  /** The operation changes of the protocol that put these operations. */
  function PutSteps(ops: seq<(Id, OpDoc)>, now: Time): seq<P.Step> {
    if ops == [] then []
    else [P.ChangeOperation(ops[0].0, ops[0].1.orderId, Some(ops[0].1), ReportOf(ops[0].0, ops[0].1, now))]
         + PutSteps(ops[1..], now)
  }

  function AddSteps(o: Id, doc: OrderDoc, ops: seq<(Id, OpDoc)>, now: Time): seq<P.Step> {
    [P.ChangeOrder(o, Some(doc))] + PutSteps(ops, now)
  }

  lemma {:induction false} RowsPutHead(rows: map<Id, P.ErpOp>, ops: seq<(Id, OpDoc)>, now: Time)
    requires ops != []
    ensures RowsPut(rows, ops, now) == RowsPut(rows[ops[0].0 := Row(ops[0].0, ops[0].1, now)], ops[1..], now)
    decreases |ops|
  {
    if |ops| > 1 {
      RowsPutHead(rows, ops[..|ops| - 1], now);
      assert ops[1..][..|ops| - 2] == ops[..|ops| - 1][1..];
    } else {
      assert ops[1..] == [] && ops[..0] == [];
    }
  }

  lemma {:induction false} PutByProtocol(s: P.State, ops: seq<(Id, OpDoc)>)
    requires forall i :: 0 <= i < |ops| ==> ops[i].1.lastReport.None?
    ensures P.Allowed(s, PutSteps(ops, s.clock))
    ensures P.After(s, PutSteps(ops, s.clock)).erp == s.erp.(operations := RowsPut(s.erp.operations, ops, s.clock))
    decreases |ops|
  {
    if ops != [] {
      var steps := PutSteps(ops, s.clock);
      DerivedReportAgrees(ops[0].0, ops[0].1, s.clock);
      var t := P.Next(s, steps[0]);
      PutByProtocol(t, ops[1..]);
      assert steps[1..] == PutSteps(ops[1..], s.clock);
      RowsPutHead(s.erp.operations, ops, s.clock);
    }
  }

  lemma {:induction false} AddedByProtocol(s: P.State, o: Id, doc: OrderDoc, ops: seq<(Id, OpDoc)>)
    requires forall i :: 0 <= i < |ops| ==> ops[i].1.lastReport.None?
    ensures P.Allowed(s, AddSteps(o, doc, ops, s.clock))
    ensures P.After(s, AddSteps(o, doc, ops, s.clock)).erp
         == P.Erp(s.erp.orders[o := P.ErpOrder(Some(doc), s.clock)], RowsPut(s.erp.operations, ops, s.clock))
  {
    var steps := AddSteps(o, doc, ops, s.clock);
    PutByProtocol(P.Next(s, steps[0]), ops);
    assert steps[1..] == PutSteps(ops, s.clock);
  }

  /** The reports emitted once the operations in `seen` have been visited. */
  function Emitted(orders: set<Id>, rows: map<Id, P.ErpOp>, since: Option<Time>, seen: set<Id>): map<Id, seq<Report>> {
    map k | k in seen && k in rows && rows[k].orderId in orders && P.Due(rows[k].stamp, since) && rows[k].report.Some?
      :: [rows[k].report.value]
  }

  lemma EmitOne(orders: set<Id>, rows: map<Id, P.ErpOp>, since: Option<Time>, seen: set<Id>, k: Id)
    requires k in rows
    ensures Emitted(orders, rows, since, seen + {k})
         == if rows[k].orderId in orders && P.Due(rows[k].stamp, since) && rows[k].report.Some?
            then Emitted(orders, rows, since, seen)[k := [rows[k].report.value]]
            else Emitted(orders, rows, since, seen)
  {
  }

  lemma EmittedAll(e: P.Erp, since: Option<Time>)
    ensures Emitted(e.orders.Keys, e.operations, since, e.operations.Keys) == P.FetchedReports(e, since)
  {
  }

  /** The report of an operation says nothing its row does not say, as the protocol asks of an ERP. */
  lemma DerivedReportAgrees(k: Id, op: OpDoc, stamp: Time)
    requires op.lastReport.None?
    ensures P.Agrees(k, Some(op), ReportOf(k, op, stamp))
  {
    if Reportable(op) {
      assert P.Content(ApplyReport(op, ReportOf(k, op, stamp).value)) == op;
    }
  }

  /** What `report_progress` makes of an operation. */
  function Progressed(op: OpDoc, status: OperationStatus, completed: Option<int>, now: Time): OpDoc {
    op.(status := status,
        completed := if status.OP_COMPLETED? then op.quantity else completed.GetOr(op.completed),
        actualStart := if status.OP_IN_PROGRESS? && op.actualStart.None? then Some(now) else op.actualStart,
        actualEnd := if status.OP_COMPLETED? then Some(now) else op.actualEnd)
  }

  class MockConnector {
    var orders: map<Id, OrderDoc>
    var operations: map<Id, OpDoc>
    var orderStamps: map<Id, Time>
    var operationStamps: map<Id, Time>
    var failure: bool  // while it is set, every fetch raises
    const asOf: Time

    /** The rows of the protocol's ERP. */
    function View(): P.Erp
      reads this
    {
      P.Erp(OrderRows(orders, orderStamps, asOf), Rows(operations, operationStamps, asOf))
    }

    function OrderStamp(o: Id): Time
      reads this
    {
      StampIn(orderStamps, o, asOf)
    }

    function OperationStamp(k: Id): Time
      reads this
    {
      StampIn(operationStamps, k, asOf)
    }

    /** `last_progress_report_at` is the store's attribute, never the ERP's. */
    predicate Valid()
      reads this
    {
      forall k :: k in operations ==> operations[k].lastReport.None?
    }

    constructor (asOf: Time, orders: map<Id, OrderDoc>, operations: map<Id, OpDoc>,
                 orderStamps: map<Id, Time>, operationStamps: map<Id, Time>)
      requires forall k :: k in operations ==> operations[k].lastReport.None?
      ensures Valid() && !failure && P.RowsAgree(View())
      ensures this.asOf == asOf && this.orders == orders && this.operations == operations
    {
      this.asOf, this.orders, this.operations := asOf, orders, operations;
      this.orderStamps, this.operationStamps, failure := orderStamps, operationStamps, false;
      new;
      RowsAgree();
    }

    lemma RowsAgree()
      requires Valid()
      ensures P.RowsAgree(View())
    {
      forall k | k in operations
        ensures P.Agrees(k, Some(operations[k]), ReportOf(k, operations[k], OperationStamp(k)))
      {
        DerivedReportAgrees(k, operations[k], OperationStamp(k));
      }
    }

    /** Progress on one operation is one change of the protocol, stamped now. */
    method ReportProgress(k: Id, status: OperationStatus, completed: Option<int>, now: Time) returns (found: bool)
      requires Valid()
      modifies this`operations, this`operationStamps
      ensures Valid() && (found <==> k in old(operations))
      ensures !found ==> View() == old(View())
      ensures found ==>
                var op := Progressed(old(operations)[k], status, completed, now);
                && View() == old(View()).(operations := old(View()).operations[k := Row(k, op, now)])
                && P.Agrees(k, Some(op), ReportOf(k, op, now))
    {
      found := k in operations;
      if found {
        var op := operations[k].(status := status);
        if completed.Some? {
          op := op.(completed := completed.value);
        }
        if status.OP_IN_PROGRESS? && op.actualStart.None? {
          op := op.(actualStart := Some(now));
        }
        if status.OP_COMPLETED? {
          op := op.(actualEnd := Some(now), completed := op.quantity);
        }
        RowTouched(operations, operationStamps, asOf, k, op, now);
        DerivedReportAgrees(k, op, now);
        operations, operationStamps := operations[k := op], operationStamps[k := now];
      }
    }

    method PutOrder(o: Id, doc: OrderDoc, now: Time)
      modifies this`orders, this`orderStamps
      ensures View() == old(View()).(orders := old(View()).orders[o := P.ErpOrder(Some(doc), now)])
    {
      OrderAdded(orders, orderStamps, asOf, o, doc, now);
      orders, orderStamps := orders[o := doc], orderStamps[o := now];
    }

    method PutOperation(k: Id, op: OpDoc, now: Time)
      requires Valid() && op.lastReport.None?
      modifies this`operations, this`operationStamps
      ensures Valid()
      ensures View() == old(View()).(operations := old(View()).operations[k := Row(k, op, now)])
    {
      RowTouched(operations, operationStamps, asOf, k, op, now);
      operations, operationStamps := operations[k := op], operationStamps[k := now];
    }

    /**
     * A new order and its operations, one after the other, all stamped now: the same rows as after these
     * steps of the protocol, taken in one instant.
     */
    method AddOrder(o: Id, doc: OrderDoc, ops: seq<(Id, OpDoc)>, now: Time)
      requires Valid() && forall i :: 0 <= i < |ops| ==> ops[i].1.lastReport.None?
      modifies this`orders, this`operations, this`orderStamps, this`operationStamps
      ensures Valid()
      ensures View() == P.Erp(old(View()).orders[o := P.ErpOrder(Some(doc), now)],
                              RowsPut(old(View()).operations, ops, now))
      ensures forall s: P.State :: s.erp == old(View()) && s.clock == now ==>
                P.Allowed(s, AddSteps(o, doc, ops, now)) && P.After(s, AddSteps(o, doc, ops, now)).erp == View()
    {
      ghost var start := View();
      PutOrder(o, doc, now);
      for i := 0 to |ops|
        invariant Valid()
        invariant View()
               == P.Erp(start.orders[o := P.ErpOrder(Some(doc), now)], RowsPut(start.operations, ops[..i], now))
      {
        assert ops[..i + 1][..i] == ops[..i];
        PutOperation(ops[i].0, ops[i].1, now);
      }
      assert ops[..|ops|] == ops;
      forall s: P.State | s.erp == start && s.clock == now
        ensures P.Allowed(s, AddSteps(o, doc, ops, now)) && P.After(s, AddSteps(o, doc, ops, now)).erp == View()
      {
        AddedByProtocol(s, o, doc, ops);
      }
    }

    /** `_emit` over the orders: every row stamped after `since`, in whatever order the dictionary has. */
    method FetchOrders(since: Option<Time>) returns (r: Option<map<Id, OrderDoc>>)
      ensures r == if failure then None else Some(P.FetchedOrders(View(), since))
    {
      if failure {
        return None;
      }
      var records: map<Id, OrderDoc> := map[];
      var todo := orders.Keys;
      while todo != {}
        invariant todo <= orders.Keys
        invariant records == map o | o in orders.Keys - todo && P.Due(OrderStamp(o), since) :: orders[o]
      {
        var o :| o in todo;
        if since.None? || OrderStamp(o) > since.value {
          records := records[o := orders[o]];
        }
        todo := todo - {o};
      }
      assert records == P.FetchedOrders(View(), since);
      r := Some(records);
    }

    /** Operations whose order is not served are left out before the stamps are looked at. */
    method FetchOperations(since: Option<Time>) returns (r: Option<map<Id, OpDoc>>)
      ensures r == if failure then None else Some(P.FetchedOperations(View(), since))
    {
      if failure {
        return None;
      }
      var records: map<Id, OpDoc> := map[];
      var todo := operations.Keys;
      while todo != {}
        invariant todo <= operations.Keys
        invariant records == map k | k in operations.Keys - todo && operations[k].orderId in orders
                                   && P.Due(OperationStamp(k), since) :: operations[k]
      {
        var k :| k in todo;
        if operations[k].orderId in orders && (since.None? || OperationStamp(k) > since.value) {
          records := records[k := operations[k]];
        }
        todo := todo - {k};
      }
      assert records == P.FetchedOperations(View(), since);
      r := Some(records);
    }

    /** One report for every reportable operation of a served order, filtered by the operation's stamp. */
    method FetchProductionStatus(since: Option<Time>) returns (r: Option<map<Id, seq<Report>>>)
      ensures r == if failure then None else Some(P.FetchedReports(View(), since))
      ensures r.Some? ==> forall k :: k in r.value <==>
                && k in operations && operations[k].orderId in orders
                && (since.None? || since.value < OperationStamp(k))
                && (operations[k].status in {OP_IN_PROGRESS, OP_COMPLETED, OP_REWORK, OP_ON_HOLD}
                    || operations[k].completed > 0)
      ensures r.Some? ==> forall k :: k in r.value ==>
                r.value[k] == [Report(k, OperationStamp(k), operations[k].status, Some(operations[k].completed),
                                      operations[k].machine, operations[k].actualStart, operations[k].actualEnd)]
    {
      if failure {
        return None;
      }
      ghost var e := View();
      assert e.operations.Keys == operations.Keys && e.orders.Keys == orders.Keys;
      var records: map<Id, seq<Report>> := map[];
      var todo := operations.Keys;
      while todo != {}
        invariant todo <= operations.Keys
        invariant records == Emitted(orders.Keys, e.operations, since, operations.Keys - todo)
      {
        var k :| k in todo;
        EmitOne(orders.Keys, e.operations, since, operations.Keys - todo, k);
        assert operations.Keys - (todo - {k}) == operations.Keys - todo + {k};
        if Reportable(operations[k]) && operations[k].orderId in orders
           && (since.None? || OperationStamp(k) > since.value)
        {
          records := records[k := [ReportOf(k, operations[k], OperationStamp(k)).value]];
        }
        todo := todo - {k};
      }
      assert operations.Keys - todo == operations.Keys;
      EmittedAll(e, since);
      r := Some(records);
    }
  }
}

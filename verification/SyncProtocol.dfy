/**
 * Synchronisation as a protocol: an ERP that changes while runs fetch from it
 * (backend/app/integration/sync_service.py, backend/app/integration/mock_connector.py).
 */
module SyncProtocol {
  import opened Prelude
  import opened SyncModel

  /** An ERP row; `doc` is None when the normaliser skips the row. */
  datatype ErpOrder = ErpOrder(doc: Option<OrderDoc>, stamp: Time)

  /** An operation row with the progress report, if any, that the ERP derives from it. */
  datatype ErpOp = ErpOp(orderId: Id, doc: Option<OpDoc>, report: Option<Report>, stamp: Time)

  datatype Erp = Erp(orders: map<Id, ErpOrder>, operations: map<Id, ErpOp>)

  /** A run between its start and its end, with what it has fetched so far. */
  datatype Active = Active(
    mode: SyncMode, since: Option<Time>, startedAt: Time,
    orders: Option<map<Id, OrderDoc>>,
    operations: Option<map<Id, OpDoc>>,
    hidden: set<Id>,  // due operations whose order the ERP did not serve
    reports: Option<map<Id, seq<Report>>>)

  datatype State = State(
    clock: Time, erp: Erp, data: Data, runs: seq<RunRecord>, active: map<nat, Active>,
    prune: bool,
    stranded: set<Id>)  // operations that the run which was due to write them did not write

  datatype Step =
    | Tick(elapsed: nat)
    | ChangeOrder(order: Id, orderDoc: Option<OrderDoc>)
    | ChangeOperation(op: Id, orderId: Id, doc: Option<OpDoc>, report: Option<Report>)
    | RemoveOrder(order: Id)
    | RemoveOperation(op: Id)
    | Start(run: nat, mode: SyncMode)
    | FetchOrders(run: nat)
    | FetchOperations(run: nat)
    | FetchStatus(run: nat)
    | Complete(run: nat)
    | Fail(run: nat)

  // --------------------------------------------------------------- fetching

  /** The connector drops a row unless its stamp is strictly after `since`. */
  predicate Due(stamp: Time, since: Option<Time>) {
    since.None? || stamp > since.value
  }

  function FetchedOrders(e: Erp, since: Option<Time>): map<Id, OrderDoc> {
    map k | k in e.orders && Due(e.orders[k].stamp, since) && e.orders[k].doc.Some? :: e.orders[k].doc.value
  }

  predicate Visible(e: Erp, k: Id)
    requires k in e.operations
  {
    e.operations[k].orderId in e.orders
  }

  predicate DueOperation(e: Erp, since: Option<Time>, k: Id) {
    k in e.operations && Due(e.operations[k].stamp, since) && e.operations[k].doc.Some?
  }

  function FetchedOperations(e: Erp, since: Option<Time>): map<Id, OpDoc> {
    map k | k in e.operations && DueOperation(e, since, k) && Visible(e, k) :: e.operations[k].doc.value
  }

  function HiddenOperations(e: Erp, since: Option<Time>): set<Id> {
    set k | k in e.operations && DueOperation(e, since, k) && !Visible(e, k)
  }

  function FetchedReports(e: Erp, since: Option<Time>): map<Id, seq<Report>> {
    map k | k in e.operations && Due(e.operations[k].stamp, since) && Visible(e, k) && e.operations[k].report.Some?
      :: [e.operations[k].report.value]
  }

  // ------------------------------------------------------------ transitions

  function WatermarkOf(s: State): Option<Time> {
    LatestCompleted(s.runs)
  }

  /** A report agrees with the operation it was derived from. */
  predicate Agrees(k: Id, doc: Option<OpDoc>, report: Option<Report>) {
    && (doc.Some? ==> doc.value.lastReport.None?)
    && (report.Some? ==> report.value.operationId == k)
    && (doc.Some? && report.Some? ==> Content(ApplyReport(doc.value, report.value)) == doc.value)
  }

  /** A stored operation without the bookkeeping attribute that a report adds. */
  function Content(d: OpDoc): OpDoc {
    d.(lastReport := None)
  }

  predicate Enabled(s: State, step: Step) {
    match step
    case Tick(_) => true
    case ChangeOrder(_, _) => true
    case ChangeOperation(k, o, doc, report) => Agrees(k, doc, report) && (doc.Some? ==> doc.value.orderId == o)
    case RemoveOrder(k) => k in s.erp.orders
    case RemoveOperation(k) => k in s.erp.operations
    case Start(r, _) => r !in s.active
    case FetchOrders(r) => r in s.active && s.active[r].orders.None?
    case FetchOperations(r) => r in s.active && s.active[r].orders.Some? && s.active[r].operations.None?
    case FetchStatus(r) => r in s.active && s.active[r].operations.Some? && s.active[r].reports.None?
    case Complete(r) =>
      r in s.active && s.active[r].orders.Some? && s.active[r].operations.Some? && s.active[r].reports.Some?
    case Fail(r) => r in s.active
  }

  function Batch(a: Active): Fetched
    requires a.orders.Some? && a.operations.Some? && a.reports.Some?
  {
    Fetched(a.orders.value, a.operations.value, a.reports.value)
  }

  function Next(s: State, step: Step): State
    requires Enabled(s, step)
  {
    match step
    case Tick(elapsed) => s.(clock := s.clock + elapsed)
    case ChangeOrder(k, doc) =>
      s.(erp := s.erp.(orders := s.erp.orders[k := ErpOrder(doc, s.clock)]))
    case ChangeOperation(k, o, doc, report) =>
      s.(erp := s.erp.(operations := s.erp.operations[k := ErpOp(o, doc, report, s.clock)]),
         stranded := s.stranded - {k})
    case RemoveOrder(k) => s.(erp := s.erp.(orders := s.erp.orders - {k}))
    case RemoveOperation(k) => s.(erp := s.erp.(operations := s.erp.operations - {k}), stranded := s.stranded - {k})
    case Start(r, mode) =>
      s.(active := s.active[r := Active(mode, SinceFor(s.runs, mode), s.clock, None, None, {}, None)])
    case FetchOrders(r) =>
      var a := s.active[r];
      s.(active := s.active[r := a.(orders := Some(FetchedOrders(s.erp, a.since)))])
    case FetchOperations(r) =>
      var a := s.active[r];
      s.(active := s.active[r := a.(operations := Some(FetchedOperations(s.erp, a.since)),
                                    hidden := HiddenOperations(s.erp, a.since))])
    case FetchStatus(r) =>
      var a := s.active[r];
      s.(active := s.active[r := a.(reports := Some(FetchedReports(s.erp, a.since)))])
    case Complete(r) =>
      var a := s.active[r];
      var data := Merge(s.data, Batch(a), a.mode, s.prune, a.startedAt);
      s.(data := data,
         runs := s.runs + [RunRecord(a.mode, COMPLETED_RUN, a.startedAt)],
         active := s.active - {r},
         stranded := Stranded(s, a, data))
    case Fail(r) =>
      s.(runs := s.runs + [RunRecord(s.active[r].mode, FAILED_RUN, s.active[r].startedAt)], active := s.active - {r})
  }

  /** Did the run write this operation, so that it is in the store now? */
  predicate WrittenBy(d: Data, f: Fetched, data: Data, k: Id) {
    k in Kept(d, f) && k in data.operations
  }

  /** Due operations, unchanged since the run began, that it did not write. */
  function Stranded(s: State, a: Active, data: Data): set<Id>
    requires a.orders.Some? && a.operations.Some? && a.reports.Some?
  {
    (set k | k in s.stranded && !Handled(s, a, k))
    + (set k | k in a.operations.value.Keys + a.hidden && Handled(s, a, k) && !WrittenBy(s.data, Batch(a), data, k))
  }

  /** The run had the operation as the ERP has it now. */
  predicate Handled(s: State, a: Active, k: Id)
    requires a.operations.Some?
  {
    && (k in a.operations.value || k in a.hidden)
    && k in s.erp.operations && s.erp.operations[k].stamp <= a.startedAt
  }

  // ------------------------------------------------------------ hypotheses

  /** Every run so far, finished or not, began strictly before now. */
  predicate AfterEveryStart(s: State) {
    && (forall r :: r in s.active ==> s.active[r].startedAt < s.clock)
    && (forall i :: 0 <= i < |s.runs| ==> s.runs[i].startedAt < s.clock)
  }

  /** An ERP change is stamped strictly after the start of every run so far. */
  predicate Stamped(s: State, step: Step) {
    step.ChangeOrder? || step.ChangeOperation? ==> AfterEveryStart(s)
  }

  /** Runs may overlap, but none completes after one that began later. */
  predicate InStartOrder(s: State, step: Step) {
    step.Complete? && step.run in s.active ==> !Late(s, step.run)
  }

  /** A run that began before the watermark: one that began later has completed already. */
  predicate Late(s: State, r: nat)
    requires r in s.active
  {
    WatermarkOf(s).Some? && s.active[r].startedAt < WatermarkOf(s).value
  }

  predicate Orderly(s: State, step: Step) {
    Stamped(s, step) && InStartOrder(s, step)
  }

  predicate Allowed(s: State, steps: seq<Step>)
    decreases |steps|
  {
    steps == [] || (Enabled(s, steps[0]) && Allowed(Next(s, steps[0]), steps[1..]))
  }

  /** Every step of a run of the system satisfies `p` in the state in which it is taken. */
  predicate Always(s: State, steps: seq<Step>, p: (State, Step) -> bool)
    requires Allowed(s, steps)
    decreases |steps|
  {
    steps == [] || (p(s, steps[0]) && Always(Next(s, steps[0]), steps[1..], p))
  }

  function After(s: State, steps: seq<Step>): State
    requires Allowed(s, steps)
    decreases |steps|
  {
    if steps == [] then s else After(Next(s, steps[0]), steps[1..])
  }

  /** Any ERP and any store that keeps its foreign key, no run yet. */
  ghost predicate Initial(s: State) {
    && s.runs == [] && s.active == map[] && s.stranded == {} && Referential(s.data)
    && (forall k :: k in s.erp.operations ==>
          var op := s.erp.operations[k];
          Agrees(k, op.doc, op.report) && (op.doc.Some? ==> op.doc.value.orderId == op.orderId))
  }

  // -------------------------------------------------------------- invariant

  predicate OrderInSync(s: State, k: Id)
    requires k in s.erp.orders && s.erp.orders[k].doc.Some?
  {
    k in s.data.orders && s.data.orders[k] == StoredOrder(s.erp.orders[k].doc.value, None)
  }

  predicate OperationInSync(s: State, k: Id)
    requires k in s.erp.operations && s.erp.operations[k].doc.Some?
  {
    k in s.data.operations && Content(s.data.operations[k]) == s.erp.operations[k].doc.value
  }

  ghost predicate OrdersConverge(s: State) {
    forall k :: k in s.erp.orders && s.erp.orders[k].doc.Some? && !Due(s.erp.orders[k].stamp, WatermarkOf(s)) ==>
      OrderInSync(s, k)
  }

  ghost predicate OperationsConverge(s: State) {
    forall k :: (k in s.erp.operations && s.erp.operations[k].doc.Some? && k !in s.stranded
                 && !Due(s.erp.operations[k].stamp, WatermarkOf(s))) ==>
      OperationInSync(s, k)
  }

  ghost predicate RowsAgree(e: Erp) {
    forall k :: k in e.operations ==>
      var op := e.operations[k];
      Agrees(k, op.doc, op.report) && (op.doc.Some? ==> op.doc.value.orderId == op.orderId)
  }

  /** The slice holds exactly the due rows, among those unchanged since the run began. */
  ghost predicate OrdersSlice(e: Erp, a: Active) {
    a.orders.Some? ==>
      forall k :: k in e.orders && e.orders[k].stamp <= a.startedAt ==>
        && (k in a.orders.value <==> Due(e.orders[k].stamp, a.since) && e.orders[k].doc.Some?)
        && (k in a.orders.value ==> e.orders[k].doc == Some(a.orders.value[k]))
  }

  ghost predicate OperationsSlice(e: Erp, a: Active) {
    && (a.operations.None? ==> a.hidden == {})
    && (a.operations.Some? ==> a.operations.value.Keys !! a.hidden)
    && (a.operations.Some? ==>
          forall k :: k in e.operations && e.operations[k].stamp <= a.startedAt ==>
            && (k in a.operations.value || k in a.hidden <==> DueOperation(e, a.since, k))
            && (k in a.operations.value ==> e.operations[k].doc == Some(a.operations.value[k])))
  }

  ghost predicate ReportsSlice(e: Erp, a: Active) {
    a.reports.Some? ==>
      forall k :: k in e.operations && e.operations[k].stamp <= a.startedAt && k in a.reports.value ==>
        && Due(e.operations[k].stamp, a.since)
        && e.operations[k].report.Some? && a.reports.value[k] == [e.operations[k].report.value]
  }

  ghost predicate ActiveOk(s: State, r: nat)
    requires r in s.active
  {
    var a := s.active[r];
    && a.startedAt <= s.clock
    && (a.mode.FULL? ==> a.since.None?)
    && (a.since.Some? ==> WatermarkOf(s).Some? && a.since.value <= WatermarkOf(s).value)
    && OrdersSlice(s.erp, a) && OperationsSlice(s.erp, a) && ReportsSlice(s.erp, a)
  }

  ghost predicate Inv(s: State) {
    && RowsAgree(s.erp) && Referential(s.data)
    && OrdersConverge(s) && OperationsConverge(s)
    && (forall i :: 0 <= i < |s.runs| ==> s.runs[i].startedAt <= s.clock)
    && (forall r :: r in s.active ==> ActiveOk(s, r))
  }

  lemma LatestAppended(runs: seq<RunRecord>, r: RunRecord)
    ensures !r.status.COMPLETED_RUN? ==> LatestCompleted(runs + [r]) == LatestCompleted(runs)
    ensures (r.status.COMPLETED_RUN? && (LatestCompleted(runs).None? || LatestCompleted(runs).value <= r.startedAt)) ==>
              LatestCompleted(runs + [r]) == Some(r.startedAt)
  {
    assert (runs + [r])[..|runs|] == runs;
  }

  lemma InitialInv(s: State)
    requires Initial(s)
    ensures Inv(s)
  {
  }

  lemma ChangeKeepsInv(s: State, step: Step)
    requires Inv(s) && Enabled(s, step) && Orderly(s, step)
    requires step.ChangeOrder? || step.ChangeOperation?
    ensures Inv(Next(s, step))
  {
    var s' := Next(s, step);
    assert WatermarkOf(s') == WatermarkOf(s);
    if WatermarkOf(s).Some? {
      var i :| 0 <= i < |s.runs| && s.runs[i].startedAt == WatermarkOf(s).value;
      assert s.runs[i].startedAt < s.clock;
    }
    forall r | r in s'.active ensures ActiveOk(s', r) {
      assert ActiveOk(s, r);
    }
  }

  /** The ERP may take a row away at any time; a run that has it may still store it. */
  lemma RemovalKeepsInv(s: State, step: Step)
    requires Inv(s) && Enabled(s, step) && (step.RemoveOrder? || step.RemoveOperation?)
    ensures Inv(Next(s, step))
  {
    var s' := Next(s, step);
    forall r | r in s'.active ensures ActiveOk(s', r) {
      assert ActiveOk(s, r);
    }
  }

  lemma StartKeepsInv(s: State, step: Step)
    requires Inv(s) && Enabled(s, step) && Orderly(s, step) && step.Start?
    ensures Inv(Next(s, step))
  {
    if WatermarkOf(s).Some? {
      var i :| 0 <= i < |s.runs| && s.runs[i].startedAt == WatermarkOf(s).value;
    }
  }

  lemma FetchKeepsInv(s: State, step: Step)
    requires Inv(s) && Enabled(s, step)
    requires step.FetchOrders? || step.FetchOperations? || step.FetchStatus?
    ensures Inv(Next(s, step))
  {
    var s' := Next(s, step);
    forall r | r in s'.active ensures ActiveOk(s', r) {
      assert ActiveOk(s, r);
    }
  }

  lemma EndKeepsClocks(s: State, r: nat, rec: RunRecord)
    requires Inv(s) && r in s.active && rec.startedAt == s.active[r].startedAt
    ensures var s' := s.(runs := s.runs + [rec], active := s.active - {r});
      forall i :: 0 <= i < |s'.runs| ==> s'.runs[i].startedAt <= s'.clock
  {
    assert ActiveOk(s, r);
  }

  lemma FailKeepsInv(s: State, step: Step)
    requires Inv(s) && Enabled(s, step) && step.Fail?
    ensures Inv(Next(s, step))
  {
    var s', r := Next(s, step), RunRecord(s.active[step.run].mode, FAILED_RUN, s.active[step.run].startedAt);
    LatestAppended(s.runs, r);
    assert WatermarkOf(s') == WatermarkOf(s);
    EndKeepsClocks(s, step.run, r);
    forall q | q in s'.active ensures ActiveOk(s', q) {
      assert ActiveOk(s, q);
    }
  }

  /** An order that was not due keeps its copy; a due one gets the fetched document. */
  lemma CompletedOrder(s: State, r: nat, k: Id)
    requires Inv(s) && Enabled(s, Complete(r))
    requires k in s.erp.orders && s.erp.orders[k].doc.Some? && s.erp.orders[k].stamp <= s.active[r].startedAt
    ensures OrderInSync(Next(s, Complete(r)), k)
  {
    assert ActiveOk(s, r);
  }

  /** A due operation is written or becomes stranded; one that was not due keeps its copy. */
  lemma CompletedOperation(s: State, r: nat, k: Id)
    requires Inv(s) && Enabled(s, Complete(r))
    requires k in s.erp.operations && s.erp.operations[k].doc.Some?
    requires s.erp.operations[k].stamp <= s.active[r].startedAt
    requires k !in Next(s, Complete(r)).stranded
    ensures OperationInSync(Next(s, Complete(r)), k)
  {
    assert ActiveOk(s, r);
    var a, s' := s.active[r], Next(s, Complete(r));
    var f := Batch(a);
    if DueOperation(s.erp, a.since, k) {
      assert WrittenBy(s.data, f, s'.data, k);
      RoutingRefinesFold(s.data, f, a.mode, s.prune, a.startedAt, k);
      OneReport(s.erp.operations[k].doc.value, ReportsAbout(f, k), k, s.erp.operations[k].report);
    } else {
      assert OperationInSync(s, k);
      assert ReportsAbout(f, k) == [];
      assert k !in Kept(s.data, f);
      assert s'.data.operations[k] == s.data.operations[k];
    }
  }

  lemma OneReport(doc: OpDoc, rs: seq<Report>, k: Id, report: Option<Report>)
    requires Agrees(k, Some(doc), report)
    requires rs == [] || (report.Some? && rs == [report.value])
    ensures Content(ApplyReports(doc, rs)) == doc
  {
    if rs != [] {
      assert rs[..0] == [];
      assert ApplyReports(doc, rs[..0]) == doc;
    }
  }

  /** The new watermark, and the parts of the invariant that do not compare rows. */
  lemma TimelyRest(s: State, r: nat)
    requires Inv(s) && Enabled(s, Complete(r)) && !Late(s, r)
    ensures var s' := Next(s, Complete(r));
      && s'.erp == s.erp && WatermarkOf(s') == Some(s.active[r].startedAt)
      && Referential(s'.data)
      && (forall i :: 0 <= i < |s'.runs| ==> s'.runs[i].startedAt <= s'.clock)
      && (forall q :: q in s'.active ==> ActiveOk(s', q))
  {
    var a, s' := s.active[r], Next(s, Complete(r));
    TimelyWatermark(s, r);
    EndKeepsClocks(s, r, RunRecord(a.mode, COMPLETED_RUN, a.startedAt));
    MergeReferential(s.data, Batch(a), a.mode, s.prune, a.startedAt);
    forall q | q in s'.active ensures ActiveOk(s', q) {
      assert ActiveOk(s, q);
    }
  }

  lemma CompleteKeepsInv(s: State, step: Step)
    requires Inv(s) && Enabled(s, step) && step.Complete? && InStartOrder(s, step)
    ensures Inv(Next(s, step))
  {
    var r, s' := step.run, Next(s, step);
    TimelyRest(s, r);
    forall k | k in s'.erp.orders && s'.erp.orders[k].doc.Some? && !Due(s'.erp.orders[k].stamp, WatermarkOf(s'))
      ensures OrderInSync(s', k)
    {
      CompletedOrder(s, r, k);
    }
    forall k | k in s'.erp.operations && s'.erp.operations[k].doc.Some? && k !in s'.stranded
             && !Due(s'.erp.operations[k].stamp, WatermarkOf(s'))
      ensures OperationInSync(s', k)
    {
      CompletedOperation(s, r, k);
    }
  }

  lemma StepKeepsInv(s: State, step: Step)
    requires Inv(s) && Enabled(s, step) && Orderly(s, step)
    ensures Inv(Next(s, step))
  {
    match step
    case Tick(_) =>
      forall r | r in s.active ensures ActiveOk(Next(s, step), r) { assert ActiveOk(s, r); }
    case ChangeOrder(_, _) => ChangeKeepsInv(s, step);
    case ChangeOperation(_, _, _, _) => ChangeKeepsInv(s, step);
    case RemoveOrder(_) => RemovalKeepsInv(s, step);
    case RemoveOperation(_) => RemovalKeepsInv(s, step);
    case Start(_, _) => StartKeepsInv(s, step);
    case FetchOrders(_) => FetchKeepsInv(s, step);
    case FetchOperations(_) => FetchKeepsInv(s, step);
    case FetchStatus(_) => FetchKeepsInv(s, step);
    case Complete(_) => CompleteKeepsInv(s, step);
    case Fail(_) => FailKeepsInv(s, step);
  }

  /** A failed run changes neither the data nor the watermark. */
  lemma FailureChangesNothing(s: State, r: nat)
    requires Enabled(s, Fail(r))
    ensures var s' := Next(s, Fail(r));
      s'.data == s.data && WatermarkOf(s') == WatermarkOf(s) && s'.stranded == s.stranded
  {
    LatestAppended(s.runs, RunRecord(s.active[r].mode, FAILED_RUN, s.active[r].startedAt));
  }

  // --------------------------------------------- what strands an operation

  /**
   * Exactly when a completing run leaves a due, unchanged operation unwritten: the ERP did not serve its
   * order, or its order was neither in the batch nor stored, or a pruning run deleted the order.
   */
  lemma StrandedExactly(s: State, r: nat, k: Id)
    requires Inv(s) && Enabled(s, Complete(r))
    requires DueOperation(s.erp, s.active[r].since, k) && s.erp.operations[k].stamp <= s.active[r].startedAt
    ensures var a, o := s.active[r], s.erp.operations[k].orderId;
      k in Next(s, Complete(r)).stranded <==>
        || k in a.hidden
        || !OrderKnown(s.data, Batch(a), o)
        || (a.mode.FULL? && s.prune && o !in a.orders.value)
  {
    assert ActiveOk(s, r);
    var a, f := s.active[r], Batch(s.active[r]);
    var s' := Next(s, Complete(r));
    if k in a.operations.value {
      assert f.operations[k].orderId == s.erp.operations[k].orderId;
      if k in Kept(s.data, f) {
        ReportsKeepPlan(f.operations[k], ReportsAbout(f, k));
        KeptSurvives(s.data, f, a.mode, s.prune, a.startedAt, k);
      }
    }
  }

  lemma KeptSurvives(d: Data, f: Fetched, mode: SyncMode, prune: bool, at: Time, k: Id)
    requires k in Kept(d, f)
    ensures k in Merge(d, f, mode, prune, at).operations
       <==> !(mode.FULL? && prune && f.operations[k].orderId !in f.orders)
  {
    ReportsKeepPlan(f.operations[k], ReportsAbout(f, k));
  }

  /** Every operation's order is served by the ERP and accepted by the normaliser. */
  predicate Sound(e: Erp) {
    forall k :: k in e.operations ==>
      e.operations[k].orderId in e.orders && e.orders[e.operations[k].orderId].doc.Some?
  }

  predicate AlwaysSound(s: State, steps: seq<Step>)
    requires Allowed(s, steps)
    decreases |steps|
  {
    Sound(s.erp) && (steps == [] || AlwaysSound(Next(s, steps[0]), steps[1..]))
  }

  /** Every operation that is older than the run and was not served is newer by now. */
  ghost predicate NoneHidden(s: State) {
    forall r, k :: r in s.active && k in s.active[r].hidden && k in s.erp.operations ==>
      s.erp.operations[k].stamp > s.active[r].startedAt
  }

  /** Did the ERP have this operation, as it is now, when the run began? */
  predicate Older(s: State, r: nat, k: Id)
    requires r in s.active
  {
    k in s.erp.operations && s.erp.operations[k].stamp <= s.active[r].startedAt
  }

  /** Once a run has fetched the orders, the order of every older operation is at hand. */
  ghost predicate AtHand(s: State, r: nat)
    requires r in s.active
  {
    var a := s.active[r];
    a.orders.Some? ==> forall k :: Older(s, r, k) ==>
      s.erp.operations[k].orderId in a.orders.value || (a.since.Some? && s.erp.operations[k].orderId in s.data.orders)
  }

  /**
   * An order that the incremental run `r` finds in the store is in the batch of a full run that may complete
   * before.
   */
  ghost predicate Backed(s: State, r: nat, q: nat)
    requires r in s.active && q in s.active
  {
    var a, b := s.active[r], s.active[q];
    (a.orders.Some? && a.since.Some? && b.mode.FULL? && b.orders.Some? && a.since.value <= b.startedAt) ==>
      forall k :: Older(s, r, k) ==>
        s.erp.operations[k].orderId in a.orders.value || s.erp.operations[k].orderId in b.orders.value
  }

  ghost predicate OrdersAtHand(s: State) {
    && NoneHidden(s)
    && (forall r :: r in s.active ==> AtHand(s, r))
    && (forall r, q :: r in s.active && q in s.active ==> Backed(s, r, q))
  }

  lemma ServedOrNotDue(s: State, since: Option<Time>, k: Id)
    requires Sound(s.erp) && k in s.erp.operations
    ensures var o := s.erp.operations[k].orderId;
      o in FetchedOrders(s.erp, since) || (since.Some? && s.erp.orders[o].stamp <= since.value)
  {
  }

  lemma FetchBacks(s: State, f: nat, r: nat, q: nat)
    requires Inv(s) && Enabled(s, FetchOrders(f)) && Sound(s.erp) && r in s.active && q in s.active && Backed(s, r, q)
    ensures Backed(Next(s, FetchOrders(f)), r, q)
  {
    assert ActiveOk(s, r) && ActiveOk(s, q);
    var s' := Next(s, FetchOrders(f));
    var a, b := s'.active[r], s'.active[q];
    if a.orders.Some? && a.since.Some? && b.mode.FULL? && b.orders.Some? && a.since.value <= b.startedAt {
      forall k | Older(s', r, k)
        ensures s.erp.operations[k].orderId in a.orders.value || s.erp.operations[k].orderId in b.orders.value
      {
        assert Older(s, r, k);
        if f == q {
          ServedOrNotDue(s, None, k);
        } else if f == r {
          ServedOrNotDue(s, a.since, k);
        }
      }
    }
  }

  lemma SoundFetch(s: State, f: nat)
    requires Inv(s) && Enabled(s, FetchOrders(f)) && Sound(s.erp) && OrdersAtHand(s)
    ensures OrdersAtHand(Next(s, FetchOrders(f)))
  {
    var s' := Next(s, FetchOrders(f));
    assert ActiveOk(s, f);
    forall r | r in s'.active ensures AtHand(s', r) {
      assert AtHand(s, r);
      forall k | r == f && Older(s', r, k)
        ensures var o := s.erp.operations[k].orderId;
          o in s'.active[r].orders.value || (s'.active[r].since.Some? && o in s.data.orders)
      {
        ServedOrNotDue(s, s.active[f].since, k);
        var o := s.erp.operations[k].orderId;
        if s.active[f].since.Some? && s.erp.orders[o].stamp <= s.active[f].since.value {
          assert OrderInSync(s, o);
        }
      }
    }
    forall r, q | r in s'.active && q in s'.active ensures Backed(s', r, q) {
      FetchBacks(s, f, r, q);
    }
  }

  /** Only a pruning full run takes an order out of the store. */
  lemma OrdersKept(d: Data, f: Fetched, mode: SyncMode, prune: bool, at: Time, o: Id)
    requires o in d.orders && (mode.FULL? && prune ==> o in f.orders)
    ensures o in Merge(d, f, mode, prune, at).orders
  {
  }

  lemma SoundComplete(s: State, c: nat)
    requires Inv(s) && Enabled(s, Complete(c)) && InStartOrder(s, Complete(c)) && s.stranded == {} && OrdersAtHand(s)
    ensures Next(s, Complete(c)).stranded == {} && OrdersAtHand(Next(s, Complete(c)))
  {
    var s', a := Next(s, Complete(c)), s.active[c];
    assert ActiveOk(s, c) && AtHand(s, c);
    forall k | k in s.erp.operations && s.erp.operations[k].stamp <= a.startedAt
             && (k in a.operations.value || k in a.hidden)
      ensures k !in s'.stranded
    {
      assert Older(s, c, k);
      StrandedExactly(s, c, k);
    }
    forall r | r in s'.active ensures AtHand(s', r) {
      CompleteLeavesAtHand(s, c, r);
    }
    forall r, q | r in s'.active && q in s'.active ensures Backed(s', r, q) {
      assert Backed(s, r, q);
    }
  }

  lemma CompleteLeavesAtHand(s: State, c: nat, r: nat)
    requires Inv(s) && Enabled(s, Complete(c)) && InStartOrder(s, Complete(c)) && OrdersAtHand(s)
    requires r in s.active && r != c
    ensures AtHand(Next(s, Complete(c)), r)
  {
    var s', a, b := Next(s, Complete(c)), s.active[r], s.active[c];
    assert ActiveOk(s, r) && ActiveOk(s, c) && AtHand(s, r) && Backed(s, r, c);
    if a.orders.Some? {
      forall k | Older(s', r, k)
        ensures s.erp.operations[k].orderId in a.orders.value
             || (a.since.Some? && s.erp.operations[k].orderId in s'.data.orders)
      {
        assert Older(s, r, k);
        if s.erp.operations[k].orderId !in a.orders.value {
          OrdersKept(s.data, Batch(b), b.mode, s.prune, b.startedAt, s.erp.operations[k].orderId);
        }
      }
    }
  }

  /** The steps that neither fetch orders nor complete leave what a run holds, and the older operations, alone. */
  lemma OlderStays(s: State, step: Step, r: nat)
    requires Inv(s) && Enabled(s, step) && Stamped(s, step) && !step.FetchOrders? && !step.Complete?
    requires r in Next(s, step).active && (r in s.active || Next(s, step).active[r].orders.Some?)
    ensures r in s.active
    ensures var a, b := s.active[r], Next(s, step).active[r];
      a.orders == b.orders && a.since == b.since && a.mode == b.mode && a.startedAt == b.startedAt
    ensures forall k :: Older(Next(s, step), r, k) ==>
              Older(s, r, k) && Next(s, step).erp.operations[k] == s.erp.operations[k]
    ensures Next(s, step).data == s.data
  {
  }

  lemma SoundElsewhere(s: State, step: Step)
    requires Inv(s) && Enabled(s, step) && Stamped(s, step) && Sound(s.erp) && OrdersAtHand(s)
    requires !step.FetchOrders? && !step.Complete?
    ensures var s' := Next(s, step); forall r :: r in s'.active ==> AtHand(s', r)
    ensures var s' := Next(s, step); forall r, q :: r in s'.active && q in s'.active ==> Backed(s', r, q)
  {
    var s' := Next(s, step);
    forall r | r in s'.active && s'.active[r].orders.Some? ensures r in s.active && AtHand(s', r) {
      OlderStays(s, step, r);
      assert AtHand(s, r);
    }
    forall r, q | r in s'.active && q in s'.active && s'.active[r].orders.Some? && s'.active[q].orders.Some?
      ensures Backed(s', r, q)
    {
      OlderStays(s, step, r);
      OlderStays(s, step, q);
      assert Backed(s, r, q);
    }
  }

  /** What is hidden is newer; only a fetch of the operations hides some, and with a sound ERP it hides none. */
  lemma SoundHidesNothing(s: State, step: Step)
    requires Inv(s) && Enabled(s, step) && Stamped(s, step) && Sound(s.erp) && NoneHidden(s)
    requires !step.FetchOrders? && !step.Complete?
    ensures NoneHidden(Next(s, step))
  {
    forall r | r in s.active ensures s.active[r].startedAt <= s.clock {
      assert ActiveOk(s, r);
    }
  }

  lemma SoundStep(s: State, step: Step)
    requires Inv(s) && Enabled(s, step) && Orderly(s, step) && Sound(s.erp)
    requires s.stranded == {} && OrdersAtHand(s)
    ensures Next(s, step).stranded == {} && OrdersAtHand(Next(s, step))
  {
    match step
    case FetchOrders(f) => SoundFetch(s, f);
    case Complete(c) => SoundComplete(s, c);
    case _ =>
      SoundElsewhere(s, step);
      SoundHidesNothing(s, step);
  }

  lemma {:induction false} SoundRuns(s: State, steps: seq<Step>)
    requires Inv(s) && Allowed(s, steps) && Always(s, steps, Orderly) && AlwaysSound(s, steps)
    requires s.stranded == {} && OrdersAtHand(s)
    ensures After(s, steps).stranded == {}
    decreases |steps|
  {
    if steps != [] {
      StepKeepsInv(s, steps[0]);
      SoundStep(s, steps[0]);
      SoundRuns(Next(s, steps[0]), steps[1..]);
    }
  }

  /** In an ERP that always serves an acceptable order for every operation, nothing is ever stranded. */
  lemma SoundErpConverges(init: State, steps: seq<Step>)
    requires Initial(init) && Allowed(init, steps) && Always(init, steps, Orderly) && AlwaysSound(init, steps)
    ensures var s := After(init, steps);
      forall k :: k in s.erp.operations && s.erp.operations[k].doc.Some? && !OperationInSync(s, k) ==>
        k in FetchedOperations(s.erp, SinceFor(s.runs, INCREMENTAL))
  {
    OrderlyIsSafe(init, steps);
    Convergence(init, steps);
    InitialInv(init);
    SoundRuns(init, steps);
    SoundAtEnd(init, steps);
  }

  lemma {:induction false} SoundAtEnd(s: State, steps: seq<Step>)
    requires Allowed(s, steps) && AlwaysSound(s, steps)
    ensures Sound(After(s, steps).erp)
    decreases |steps|
  {
    if steps != [] {
      SoundAtEnd(Next(s, steps[0]), steps[1..]);
    }
  }

  // ------------------------------------------------ what comes back next time

  /** A change made while a run was under way is fetched next time exactly when its stamp is after the start. */
  lemma ReturnedExactlyWhenStampedAfterStart(s: State, r: nat, k: Id)
    requires Enabled(s, Complete(r)) && k in s.erp.orders && s.erp.orders[k].doc.Some? && !Late(s, r)
    ensures var s' := Next(s, Complete(r));
      k in FetchedOrders(s'.erp, SinceFor(s'.runs, INCREMENTAL)) <==> s.erp.orders[k].stamp > s.active[r].startedAt
  {
    TimelyWatermark(s, r);
    ErpStays(s, r);
  }

  lemma ErpStays(s: State, r: nat)
    requires Enabled(s, Complete(r))
    ensures Next(s, Complete(r)).erp == s.erp
  {
  }

  lemma TimelyWatermark(s: State, r: nat)
    requires Enabled(s, Complete(r)) && !Late(s, r)
    ensures SinceFor(Next(s, Complete(r)).runs, INCREMENTAL) == Some(s.active[r].startedAt)
  {
    LatestAppended(s.runs, RunRecord(s.active[r].mode, COMPLETED_RUN, s.active[r].startedAt));
  }

  // ------------------------------------------------ runs that complete late

  /** The order is out of step with the ERP, yet no incremental run will ever be given it. */
  predicate Lost(s: State, k: Id) {
    && k in s.erp.orders && s.erp.orders[k].doc.Some? && !OrderInSync(s, k)
    && k !in FetchedOrders(s.erp, SinceFor(s.runs, INCREMENTAL))
  }

  predicate LostOperation(s: State, k: Id) {
    && k in s.erp.operations && s.erp.operations[k].doc.Some? && !OperationInSync(s, k)
    && !DueOperation(s.erp, SinceFor(s.runs, INCREMENTAL), k)
  }

  /** What the run holds of an order is not what the ERP has now, or it lacks the order and will remove it. */
  predicate Displaces(s: State, r: nat, k: Id)
    requires Enabled(s, Complete(r)) && k in s.erp.orders && s.erp.orders[k].doc.Some?
  {
    var a, doc := s.active[r], s.erp.orders[k].doc.value;
    if k in a.orders.value then a.orders.value[k] != doc
    else a.mode.FULL? && (s.prune || (a.orders.value != map[] && !ClosedStatus(doc.status)))
  }

  /** The same for an operation; one that the run does not write still takes the reports the run has fetched. */
  predicate DisplacesOperation(s: State, r: nat, k: Id)
    requires Enabled(s, Complete(r)) && k in s.erp.operations && s.erp.operations[k].doc.Some?
  {
    var a, f, doc := s.active[r], Batch(s.active[r]), s.erp.operations[k].doc.value;
    var written := if k in Kept(s.data, f) then f.operations[k] else doc;
    || Content(ApplyReports(written, ReportsAbout(f, k))) != doc
    || (a.mode.FULL? && k !in Kept(s.data, f) && doc.orderId in f.orders)
    || (a.mode.FULL? && s.prune && written.orderId !in f.orders)
  }

  lemma LateKeepsWatermark(s: State, r: nat)
    requires Enabled(s, Complete(r)) && Late(s, r)
    ensures WatermarkOf(Next(s, Complete(r))) == WatermarkOf(s)
  {
    LatestStays(s.runs, RunRecord(s.active[r].mode, COMPLETED_RUN, s.active[r].startedAt));
  }

  /**
   * A run that completes late loses exactly the orders at or before the watermark that it displaces; all
   * of them changed after it began.
   */
  lemma LateRunLosesExactly(s: State, r: nat, k: Id)
    requires Inv(s) && Enabled(s, Complete(r)) && Late(s, r)
    requires k in s.erp.orders && s.erp.orders[k].doc.Some?
    ensures Lost(Next(s, Complete(r)), k) <==> !Due(s.erp.orders[k].stamp, WatermarkOf(s)) && Displaces(s, r, k)
    ensures Lost(Next(s, Complete(r)), k) ==> s.active[r].startedAt < s.erp.orders[k].stamp
  {
    LateKeepsWatermark(s, r);
    if !Due(s.erp.orders[k].stamp, WatermarkOf(s)) {
      assert OrderInSync(s, k);
      var a := s.active[r];
      MergedOrder(s.data, Batch(a), a.mode, s.prune, a.startedAt, k);
      UnchangedIsNotDisplaced(s, r, k);
    }
  }

  /** Whether an order is in the store after a run, and as what. */
  lemma MergedOrder(d: Data, f: Fetched, mode: SyncMode, prune: bool, at: Time, k: Id)
    requires k in d.orders
    ensures var m := Merge(d, f, mode, prune, at).orders;
      if k in f.orders then k in m && m[k] == StoredOrder(f.orders[k], None)
      else if mode.FULL? && prune then k !in m
      else if mode.FULL? && f.orders != map[] && !ClosedStatus(d.orders[k].doc.status)
      then k in m && m[k] == StoredOrder(d.orders[k].doc.(status := CANCELLED), Some(at))
      else k in m && m[k] == d.orders[k]
  {
    assert f.orders != map[] <==> f.orders.Keys != {};
  }

  /** A run displaces no order that is unchanged since it began. */
  lemma UnchangedIsNotDisplaced(s: State, r: nat, k: Id)
    requires Inv(s) && Enabled(s, Complete(r)) && k in s.erp.orders && s.erp.orders[k].doc.Some?
    ensures s.erp.orders[k].stamp <= s.active[r].startedAt ==> !Displaces(s, r, k)
  {
    assert ActiveOk(s, r);
  }

  lemma ReportsKeepContent(d: OpDoc, rs: seq<Report>)
    ensures Content(ApplyReports(d, rs)) == Content(ApplyReports(Content(d), rs))
  {
    if rs != [] {
      ReportsKeepContent(d, rs[..|rs| - 1]);
    }
  }

  /** The same for the operations that no earlier run left unwritten and whose orders are stored. */
  lemma LateRunLosesOperationsExactly(s: State, r: nat, k: Id)
    requires Inv(s) && Enabled(s, Complete(r)) && Late(s, r)
    requires k in s.erp.operations && s.erp.operations[k].doc.Some? && k !in s.stranded
    ensures LostOperation(Next(s, Complete(r)), k) <==>
              !Due(s.erp.operations[k].stamp, WatermarkOf(s)) && DisplacesOperation(s, r, k)
  {
    LateKeepsWatermark(s, r);
    assert ActiveOk(s, r);
    if !Due(s.erp.operations[k].stamp, WatermarkOf(s)) {
      assert OperationInSync(s, k);
      var a, f, doc := s.active[r], Batch(s.active[r]), s.erp.operations[k].doc.value;
      ReportsKeepContent(s.data.operations[k], ReportsAbout(f, k));
      MergedOperation(s.data, f, a.mode, s.prune, a.startedAt, k);
    }
  }

  /** No row that earlier runs had settled is displaced. */
  ghost predicate Harmless(s: State, r: nat)
    requires Enabled(s, Complete(r))
  {
    && (forall k :: k in s.erp.orders && s.erp.orders[k].doc.Some? && !Due(s.erp.orders[k].stamp, WatermarkOf(s)) ==>
          !Displaces(s, r, k))
    && (forall k :: (k in s.erp.operations && s.erp.operations[k].doc.Some?
                     && !Due(s.erp.operations[k].stamp, WatermarkOf(s))
                     && k !in s.stranded && k !in Next(s, Complete(r)).stranded) ==> !DisplacesOperation(s, r, k))
  }

  /** A completion in any order keeps the invariant exactly when it is in start order or displaces nothing. */
  lemma CompletionKeepsInvExactly(s: State, r: nat)
    requires Inv(s) && Enabled(s, Complete(r))
    ensures Inv(Next(s, Complete(r))) <==> !Late(s, r) || Harmless(s, r)
  {
    if Late(s, r) {
      LateKeepsWatermark(s, r);
      LateOrders(s, r);
      LateOperations(s, r);
      LateRest(s, r);
    } else {
      CompleteKeepsInv(s, Complete(r));
    }
  }

  lemma LateOrders(s: State, r: nat)
    requires Inv(s) && Enabled(s, Complete(r)) && Late(s, r)
    ensures OrdersConverge(Next(s, Complete(r))) <==>
      forall k :: k in s.erp.orders && s.erp.orders[k].doc.Some? && !Due(s.erp.orders[k].stamp, WatermarkOf(s)) ==>
        !Displaces(s, r, k)
  {
    LateKeepsWatermark(s, r);
    forall k | k in s.erp.orders && s.erp.orders[k].doc.Some? && !Due(s.erp.orders[k].stamp, WatermarkOf(s))
      ensures OrderInSync(Next(s, Complete(r)), k) <==> !Displaces(s, r, k)
    {
      LateRunLosesExactly(s, r, k);
    }
  }

  lemma LateOperation(s: State, r: nat, k: Id)
    requires Inv(s) && Enabled(s, Complete(r)) && Late(s, r)
    requires k in s.erp.operations && s.erp.operations[k].doc.Some? && !Due(s.erp.operations[k].stamp, WatermarkOf(s))
    requires k !in Next(s, Complete(r)).stranded
    ensures OperationInSync(Next(s, Complete(r)), k) <==> k in s.stranded || !DisplacesOperation(s, r, k)
  {
    if k in s.stranded {
      CompletedOperation(s, r, k);
    } else {
      LateKeepsWatermark(s, r);
      LateRunLosesOperationsExactly(s, r, k);
    }
  }

  lemma LateOperations(s: State, r: nat)
    requires Inv(s) && Enabled(s, Complete(r)) && Late(s, r)
    ensures OperationsConverge(Next(s, Complete(r))) <==>
      forall k :: (k in s.erp.operations && s.erp.operations[k].doc.Some?
                   && !Due(s.erp.operations[k].stamp, WatermarkOf(s))
                   && k !in s.stranded && k !in Next(s, Complete(r)).stranded) ==> !DisplacesOperation(s, r, k)
  {
    LateKeepsWatermark(s, r);
    forall k | k in s.erp.operations && s.erp.operations[k].doc.Some? && !Due(s.erp.operations[k].stamp, WatermarkOf(s))
             && k !in Next(s, Complete(r)).stranded
      ensures OperationInSync(Next(s, Complete(r)), k) <==> k in s.stranded || !DisplacesOperation(s, r, k)
    {
      LateOperation(s, r, k);
    }
  }

  /** The parts of the invariant that a completion keeps in any order. */
  lemma LateRest(s: State, r: nat)
    requires Inv(s) && Enabled(s, Complete(r)) && Late(s, r)
    ensures var s' := Next(s, Complete(r));
      && RowsAgree(s'.erp) && Referential(s'.data)
      && (forall i :: 0 <= i < |s'.runs| ==> s'.runs[i].startedAt <= s'.clock)
      && (forall q :: q in s'.active ==> ActiveOk(s', q))
  {
    var a := s.active[r];
    LateKeepsWatermark(s, r);
    EndKeepsClocks(s, r, RunRecord(a.mode, COMPLETED_RUN, a.startedAt));
    MergeReferential(s.data, Batch(a), a.mode, s.prune, a.startedAt);
    forall q | q in Next(s, Complete(r)).active ensures ActiveOk(Next(s, Complete(r)), q) {
      assert ActiveOk(s, q);
    }
  }

  /** Whether an operation is in the store after a run, and as what. */
  lemma MergedOperation(d: Data, f: Fetched, mode: SyncMode, prune: bool, at: Time, k: Id)
    requires Referential(d) && k in d.operations
    ensures var m, kept := Merge(d, f, mode, prune, at).operations, k in Kept(d, f);
      var written := if kept then f.operations[k] else d.operations[k];
      && (k in m <==> !(mode.FULL? && !kept && d.operations[k].orderId in f.orders)
                      && !(mode.FULL? && prune && written.orderId !in f.orders))
      && (k in m ==> m[k] == ApplyReports(written, ReportsAbout(f, k)))
  {
    if k in Kept(d, f) {
      ReportsKeepPlan(f.operations[k], ReportsAbout(f, k));
    } else {
      ReportsKeepPlan(d.operations[k], ReportsAbout(f, k));
    }
  }

  // ------------------------------------------------------------- theorems

  /** Changes are stamped after the starts so far, and a run completes in start order or displaces nothing. */
  ghost predicate Safe(s: State, step: Step) {
    Stamped(s, step) && (Enabled(s, step) && step.Complete? ==> !Late(s, step.run) || Harmless(s, step.run))
  }

  lemma {:induction false} OrderlyIsSafe(s: State, steps: seq<Step>)
    requires Allowed(s, steps) && Always(s, steps, Orderly)
    ensures Always(s, steps, Safe)
    decreases |steps|
  {
    if steps != [] {
      OrderlyIsSafe(Next(s, steps[0]), steps[1..]);
    }
  }

  lemma {:induction false} RunsKeepInv(s: State, steps: seq<Step>)
    requires Inv(s) && Allowed(s, steps) && Always(s, steps, Safe)
    ensures Inv(After(s, steps))
    decreases |steps|
  {
    if steps != [] {
      if steps[0].Complete? {
        CompletionKeepsInvExactly(s, steps[0].run);
      } else {
        StepKeepsInv(s, steps[0]);
      }
      RunsKeepInv(Next(s, steps[0]), steps[1..]);
    }
  }

  /**
   * Nothing is lost. In every reachable state, an accepted order whose stored copy differs from the
   * ERP's is stamped after the watermark, so an incremental run started now fetches it; the same for
   * every accepted operation that no run has left stranded.
   */
  lemma Convergence(init: State, steps: seq<Step>)
    requires Initial(init) && Allowed(init, steps) && Always(init, steps, Safe)
    ensures var s := After(init, steps); var since := SinceFor(s.runs, INCREMENTAL);
      && (forall k :: k in s.erp.orders && s.erp.orders[k].doc.Some? && !OrderInSync(s, k) ==>
            k in FetchedOrders(s.erp, since))
      && (forall k :: (k in s.erp.operations && s.erp.operations[k].doc.Some? && k !in s.stranded
                       && !OperationInSync(s, k)) ==>
            k in FetchedOperations(s.erp, since) || k in HiddenOperations(s.erp, since))
  {
    InitialInv(init);
    RunsKeepInv(init, steps);
  }

  /** When no stamp is after the watermark, the store is a copy of the accepted rows that no run has left unwritten. */
  lemma QuietErpIsCopied(init: State, steps: seq<Step>)
    requires Initial(init) && Allowed(init, steps) && Always(init, steps, Safe)
    ensures var s := After(init, steps);
      && (forall k :: k in s.erp.orders && s.erp.orders[k].doc.Some? && !Due(s.erp.orders[k].stamp, WatermarkOf(s)) ==>
            OrderInSync(s, k))
      && (forall k :: (k in s.erp.operations && s.erp.operations[k].doc.Some? && k !in s.stranded
                       && !Due(s.erp.operations[k].stamp, WatermarkOf(s))) ==> OperationInSync(s, k))
  {
    InitialInv(init);
    RunsKeepInv(init, steps);
  }

  // -------------------------------------------------- rows that the ERP drops

  /** No run that began after `since` has fetched the order, and the ERP does not have it. */
  ghost predicate Gone(s: State, k: Id, since: Time) {
    && k !in s.erp.orders && since <= s.clock
    && forall r :: r in s.active && s.active[r].startedAt > since && s.active[r].orders.Some? ==>
         k !in s.active[r].orders.value
  }

  predicate Restores(step: Step, k: Id) {
    step.ChangeOrder? && step.order == k
  }

  lemma {:induction false} StaysGone(s: State, steps: seq<Step>, k: Id, since: Time)
    requires Gone(s, k, since) && Allowed(s, steps) && forall step :: step in steps ==> !Restores(step, k)
    ensures Gone(After(s, steps), k, since)
    decreases |steps|
  {
    if steps != [] {
      assert steps[0] in steps;
      assert Gone(Next(s, steps[0]), k, since);
      StaysGone(Next(s, steps[0]), steps[1..], k, since);
    }
  }

  /** Still shown as work to do. */
  predicate IsOpen(d: Data, k: Id) {
    k in d.orders && !ClosedStatus(d.orders[k].doc.status)
  }

  /**
   * An order that the ERP removed and has not restored: a full run that began after the removal leaves it
   * open exactly when it was open, pruning is off and the run fetched no order at all.
   */
  lemma RemovedOrderStaysOpenExactly(s: State, k: Id, steps: seq<Step>, r: nat)
    requires Inv(s) && Enabled(s, RemoveOrder(k)) && Allowed(Next(s, RemoveOrder(k)), steps)
    requires forall step :: step in steps ==> !Restores(step, k)
    requires var t := After(Next(s, RemoveOrder(k)), steps);
      Enabled(t, Complete(r)) && t.active[r].mode.FULL? && t.active[r].startedAt > s.clock
    ensures var t := After(Next(s, RemoveOrder(k)), steps);
      IsOpen(Next(t, Complete(r)).data, k) <==> IsOpen(t.data, k) && !t.prune && t.active[r].orders.value == map[]
  {
    var s', t := Next(s, RemoveOrder(k)), After(Next(s, RemoveOrder(k)), steps);
    forall q | q in s'.active ensures s'.active[q].startedAt <= s.clock {
      assert ActiveOk(s, q);
    }
    StaysGone(s', steps, k, s.clock);
    var a := t.active[r];
    if k in t.data.orders {
      MergedOrder(t.data, Batch(a), a.mode, t.prune, a.startedAt, k);
    }
  }

  // ------------------------------------------------------ two losing runs

  const OLD_ORDER: OrderDoc := OrderDoc(NEW, 1)
  const CHANGED_ORDER: OrderDoc := OrderDoc(RELEASED, 2)

  /** An ERP whose only row is one order. */
  function Serving(doc: OrderDoc, stamp: Time): Erp {
    Erp(map["A" := ErpOrder(Some(doc), stamp)], map[])
  }

  function Stored(doc: OrderDoc): Data {
    Data(map["A" := StoredOrder(doc, None)], map[])
  }

  function System(clock: Time, erp: Erp, data: Data, runs: seq<RunRecord>, active: map<nat, Active>): State {
    State(clock, erp, data, runs, active, false, {})
  }

  function Fetching(startedAt: Time, doc: OrderDoc): Active {
    Active(FULL, None, startedAt, Some(map["A" := doc]), None, {}, None)
  }

  function Loaded(startedAt: Time, doc: OrderDoc): Active {
    Fetching(startedAt, doc).(operations := Some(map[]), reports := Some(map[]))
  }

  /** The steps are possible, each satisfies `p` when taken, and they end in `t`. */
  predicate Leads(s: State, steps: seq<Step>, t: State, p: (State, Step) -> bool) {
    Allowed(s, steps) && After(s, steps) == t && Always(s, steps, p)
  }

  lemma {:induction false} LeadsOn(s: State, xs: seq<Step>, t: State, ys: seq<Step>, u: State, p: (State, Step) -> bool)
    requires Leads(s, xs, t, p) && Leads(t, ys, u, p)
    ensures Leads(s, xs + ys, u, p)
    decreases |xs|
  {
    if xs == [] {
      assert xs + ys == ys;
    } else {
      LeadsOn(Next(s, xs[0]), xs[1..], t, ys, u, p);
      assert (xs + ys)[1..] == xs[1..] + ys;
    }
  }

  lemma LeadsByOne(s: State, step: Step, t: State, p: (State, Step) -> bool)
    requires Enabled(s, step) && Next(s, step) == t && p(s, step)
    ensures Leads(s, [step], t, p)
  {
    assert [step][1..] == [];
  }

  lemma FetchesOrders(s: State, r: nat, doc: OrderDoc, stamp: Time, p: (State, Step) -> bool)
    requires r in s.active && s.erp == Serving(doc, stamp) && p(s, FetchOrders(r))
    requires s.active[r] == Active(FULL, None, s.active[r].startedAt, None, None, {}, None)
    ensures Leads(s, [FetchOrders(r)], s.(active := s.active[r := Fetching(s.active[r].startedAt, doc)]), p)
  {
    assert FetchedOrders(s.erp, None) == map["A" := doc];
    LeadsByOne(s, FetchOrders(r), s.(active := s.active[r := Fetching(s.active[r].startedAt, doc)]), p);
  }

  /** The remaining fetches and the commit of a run that has fetched the one order. */
  lemma Finishes(s: State, r: nat, doc: OrderDoc, p: (State, Step) -> bool)
    requires r in s.active && s.erp.operations == map[] && s.active[r] == Fetching(s.active[r].startedAt, doc)
    requires s.stranded == {} && s.data.orders.Keys <= {"A"} && s.data.operations == map[] && !s.prune
    requires forall t: State, step: Step ::
               (t.runs == s.runs && r in t.active && t.active[r].startedAt == s.active[r].startedAt
                && (step == FetchOperations(r) || step == FetchStatus(r) || step == Complete(r))) ==> p(t, step)
    ensures Leads(s, [FetchOperations(r), FetchStatus(r), Complete(r)], s.(
              data := Stored(doc), runs := s.runs + [RunRecord(FULL, COMPLETED_RUN, s.active[r].startedAt)],
              active := s.active - {r}), p)
  {
    assert FetchedOperations(s.erp, None) == map[];
    assert HiddenOperations(s.erp, None) == {};
    assert FetchedReports(s.erp, None) == map[];
    var a := s.active[r];
    var s1 := s.(active := s.active[r := a.(operations := Some(map[]))]);
    var s2 := s.(active := s.active[r := Loaded(a.startedAt, doc)]);
    assert s2 == s1.(active := s1.active[r := Loaded(a.startedAt, doc)]);
    LeadsByOne(s, FetchOperations(r), s1, p);
    LeadsByOne(s1, FetchStatus(r), s2, p);
    CompletesLoaded(s2, r, doc, p);
    assert s2.active - {r} == s.active - {r};
    LeadsOn(s, [FetchOperations(r)], s1, [FetchStatus(r)], s2, p);
    LeadsOn(s, [FetchOperations(r)] + [FetchStatus(r)], s2, [Complete(r)], Next(s2, Complete(r)), p);
    assert [FetchOperations(r)] + [FetchStatus(r)] + [Complete(r)] == [FetchOperations(r), FetchStatus(r), Complete(r)];
  }

  lemma CompletesLoaded(s: State, r: nat, doc: OrderDoc, p: (State, Step) -> bool)
    requires r in s.active && s.active[r] == Loaded(s.active[r].startedAt, doc) && p(s, Complete(r))
    requires s.stranded == {} && s.data.orders.Keys <= {"A"} && s.data.operations == map[] && !s.prune
    ensures Enabled(s, Complete(r))
    ensures Next(s, Complete(r)) == s.(
              data := Stored(doc), runs := s.runs + [RunRecord(FULL, COMPLETED_RUN, s.active[r].startedAt)],
              active := s.active - {r})
    ensures Leads(s, [Complete(r)], Next(s, Complete(r)), p)
  {
    assert Merge(s.data, Batch(s.active[r]), FULL, false, s.active[r].startedAt) == Stored(doc);
    LeadsByOne(s, Complete(r), Next(s, Complete(r)), p);
  }

  const FRESH: State := System(10, Serving(OLD_ORDER, 5), Data(map[], map[]), [], map[])

  function Began(startedAt: Time): Active {
    Active(FULL, None, startedAt, None, None, {}, None)
  }

  const BEGIN_FIRST: seq<Step> := [Start(0, FULL)] + [FetchOrders(0)]
  const FIRST_FETCHING: State := FRESH.(active := map[0 := Fetching(10, OLD_ORDER)])

  lemma FirstBegins(p: (State, Step) -> bool)
    requires p(FRESH, Start(0, FULL)) && p(FRESH.(active := map[0 := Began(10)]), FetchOrders(0))
    ensures Leads(FRESH, BEGIN_FIRST, FIRST_FETCHING, p)
  {
    var s1 := FRESH.(active := map[0 := Began(10)]);
    LeadsByOne(FRESH, Start(0, FULL), s1, p);
    FetchesOrders(s1, 0, OLD_ORDER, 5, p);
    LeadsOn(FRESH, [Start(0, FULL)], s1, [FetchOrders(0)], FIRST_FETCHING, p);
  }

  /** A change in the very instant at which the run began, after its orders were fetched, is lost. */
  lemma TiedStampIsLost()
    ensures exists steps :: Initial(FRESH) && Allowed(FRESH, steps)
              && Always(FRESH, steps, InStartOrder) && Lost(After(FRESH, steps), "A")
  {
    FirstBegins(InStartOrder);
    TiedEnd(FIRST_FETCHING);
    LeadsOn(FRESH, BEGIN_FIRST, FIRST_FETCHING, TIED_CHANGE + FINISH_FIRST, TIED_END, InStartOrder);
    TiedEndIsLost();
  }

  const TIED_CHANGE: seq<Step> := [ChangeOrder("A", Some(CHANGED_ORDER))]

  lemma TiedEnd(s: State)
    requires s == System(10, Serving(OLD_ORDER, 5), Data(map[], map[]), [], map[0 := Fetching(10, OLD_ORDER)])
    ensures Leads(s, TIED_CHANGE + FINISH_FIRST, TIED_END, InStartOrder)
  {
    var t := s.(erp := Serving(CHANGED_ORDER, 10));
    LeadsByOne(s, TIED_CHANGE[0], t, InStartOrder);
    TiedFinish(t);
    LeadsOn(s, TIED_CHANGE, t, FINISH_FIRST, TIED_END, InStartOrder);
  }

  lemma TiedEndIsLost()
    ensures Lost(TIED_END, "A")
  {
    LatestAppended([], RunRecord(FULL, COMPLETED_RUN, 10));
    assert [] + [RunRecord(FULL, COMPLETED_RUN, 10)] == TIED_END.runs;
  }

  const FINISH_FIRST: seq<Step> := [FetchOperations(0), FetchStatus(0), Complete(0)]
  const TIED_END: State :=
    System(10, Serving(CHANGED_ORDER, 10), Stored(OLD_ORDER), [RunRecord(FULL, COMPLETED_RUN, 10)], map[])

  lemma TiedFinish(s: State)
    requires s == System(10, Serving(CHANGED_ORDER, 10), Data(map[], map[]), [], map[0 := Fetching(10, OLD_ORDER)])
    ensures Leads(s, FINISH_FIRST, TIED_END, InStartOrder)
  {
    Finishes(s, 0, OLD_ORDER, InStartOrder);
    assert s.active - {0} == map[];
  }

  /** Two runs under way at once: the one that began first finishes last and puts the old copy back. */
  lemma OverlappingRunsLose()
    ensures exists steps :: Initial(FRESH) && Allowed(FRESH, steps)
              && Always(FRESH, steps, Stamped) && Lost(After(FRESH, steps), "A")
  {
    FirstBegins(Stamped);
    var s5 := System(12, Serving(CHANGED_ORDER, 11), Data(map[], map[]), [], FIRST_FETCHING.active);
    ChangedBetween(FIRST_FETCHING, s5);
    LeadsOn(FRESH, BEGIN_FIRST, FIRST_FETCHING, CHANGE_BETWEEN, s5, Stamped);
    var s9 := OverlapEnd();
    BothRun(s5, s9);
    LeadsOn(FRESH, BEGIN_FIRST + CHANGE_BETWEEN, s5, [Start(1, FULL)] + BOTH_FINISH, s9, Stamped);
    OverlapEndIsLost();
  }

  function OverlapEnd(): State {
    System(12, Serving(CHANGED_ORDER, 11), Stored(OLD_ORDER),
           [RunRecord(FULL, COMPLETED_RUN, 12), RunRecord(FULL, COMPLETED_RUN, 10)], map[])
  }

  lemma OverlapWatermark(runs: seq<RunRecord>, second: RunRecord, first: RunRecord)
    requires runs == [] + [second] + [first]
    requires second.status.COMPLETED_RUN? && first.startedAt <= second.startedAt
    ensures LatestCompleted(runs) == Some(second.startedAt)
  {
    LatestAppended([], second);
    LatestStays([] + [second], first);
  }

  lemma StaleIsLost(s: State)
    requires s.erp == Serving(CHANGED_ORDER, 11) && s.data == Stored(OLD_ORDER)
    requires WatermarkOf(s) == Some(12)
    ensures Lost(s, "A")
  {
  }

  lemma OverlapEndIsLost()
    ensures Lost(OverlapEnd(), "A")
  {
    OverlapWatermark(OverlapEnd().runs, RunRecord(FULL, COMPLETED_RUN, 12), RunRecord(FULL, COMPLETED_RUN, 10));
    StaleIsLost(OverlapEnd());
  }

  lemma BothRun(s: State, t: State)
    requires s == System(12, Serving(CHANGED_ORDER, 11), Data(map[], map[]), [], FIRST_FETCHING.active)
    requires t == OverlapEnd()
    ensures Leads(s, [Start(1, FULL)] + BOTH_FINISH, t, Stamped)
  {
    var s6 := s.(active := map[0 := Fetching(10, OLD_ORDER), 1 := Began(12)]);
    LeadsByOne(s, Start(1, FULL), s6, Stamped);
    BothFinish(s6, t);
    LeadsOn(s, [Start(1, FULL)], s6, BOTH_FINISH, t, Stamped);
  }

  const CHANGE_BETWEEN: seq<Step> := [Tick(1)] + [ChangeOrder("A", Some(CHANGED_ORDER))] + [Tick(1)]

  const BOTH_FINISH: seq<Step> := [FetchOrders(1)] + [FetchOperations(1), FetchStatus(1), Complete(1)]
                                  + FINISH_FIRST

  lemma ChangedBetween(s: State, t: State)
    requires s == System(10, Serving(OLD_ORDER, 5), Data(map[], map[]), [], map[0 := Fetching(10, OLD_ORDER)])
    requires t == System(12, Serving(CHANGED_ORDER, 11), Data(map[], map[]), [], s.active)
    ensures Leads(s, CHANGE_BETWEEN, t, Stamped)
  {
    var s1 := s.(clock := 11);
    var s2 := s1.(erp := Serving(CHANGED_ORDER, 11));
    LeadsByOne(s, Tick(1), s1, Stamped);
    LeadsByOne(s1, ChangeOrder("A", Some(CHANGED_ORDER)), s2, Stamped);
    LeadsByOne(s2, Tick(1), t, Stamped);
    LeadsOn(s, [Tick(1)], s1, [ChangeOrder("A", Some(CHANGED_ORDER))], s2, Stamped);
    LeadsOn(s, [Tick(1)] + [ChangeOrder("A", Some(CHANGED_ORDER))], s2, [Tick(1)], t, Stamped);
  }

  lemma BothFinish(s: State, t: State)
    requires s == System(12, Serving(CHANGED_ORDER, 11), Data(map[], map[]), [],
                         map[0 := Fetching(10, OLD_ORDER), 1 := Began(12)])
    requires t == System(12, Serving(CHANGED_ORDER, 11), Stored(OLD_ORDER),
                         [RunRecord(FULL, COMPLETED_RUN, 12), RunRecord(FULL, COMPLETED_RUN, 10)], map[])
    ensures Leads(s, BOTH_FINISH, t, Stamped)
  {
    FetchesOrders(s, 1, CHANGED_ORDER, 11, Stamped);
    var s1 := s.(active := s.active[1 := Fetching(12, CHANGED_ORDER)]);
    Finishes(s1, 1, CHANGED_ORDER, Stamped);
    var s2 := s.(data := Stored(CHANGED_ORDER), runs := [RunRecord(FULL, COMPLETED_RUN, 12)],
                 active := map[0 := Fetching(10, OLD_ORDER)]);
    assert s1.active - {1} == s2.active;
    var first, second := [FetchOperations(1), FetchStatus(1), Complete(1)], FINISH_FIRST;
    LeadsOn(s, [FetchOrders(1)], s1, first, s2, Stamped);
    Finishes(s2, 0, OLD_ORDER, Stamped);
    assert s2.active - {0} == map[];
    LeadsOn(s, [FetchOrders(1)] + first, s2, second, t, Stamped);
  }

  lemma LatestStays(runs: seq<RunRecord>, r: RunRecord)
    requires LatestCompleted(runs).Some? && r.startedAt <= LatestCompleted(runs).value
    ensures LatestCompleted(runs + [r]) == LatestCompleted(runs)
  {
    assert (runs + [r])[..|runs|] == runs;
  }
}

/**
 * Whole records: orders, operations, machines and calendars printed by the mock ERP and normalised back
 * (backend/app/integration/mock_connector.py, field_maps.py, normalizer.py).
 */
module ErpRecords {
  import opened Prelude
  import E = ErpFormats
  import opened ErpColumns
  import opened ErpParsers
  import Floats
  import IsoTime
  import opened Normalizer

  type OrderStatus = i: nat | i < E.TableSize(E.ORDER_STATUS)
  type OperationStatus = i: nat | i < E.TableSize(E.OPERATION_STATUS)
  type MachineStatus = i: nat | i < E.TableSize(E.MACHINE_STATUS)
  type MaterialStatus = i: nat | i < E.TableSize(E.MATERIAL_STATUS)
  type QualityStatus = i: nat | i < E.TableSize(E.QUALITY_STATUS)
  type ShippingStatus = i: nat | i < E.TableSize(E.SHIPPING_STATUS)

  // Sets are listed in any order; an enum member is given by its place in the code table.
  datatype Order = Order(
    id: string, externalRef: Option<string>, line: Option<string>, customer: string, part: string,
    partName: Option<string>, partFamily: Option<string>,
    ordered: Option<E.Stamp>, received: Option<E.Stamp>, requested: Option<E.Stamp>, promised: Option<E.Stamp>,
    revised: Option<E.Stamp>,
    quantity: Floats.Float, completed: Floats.Float, cancelled: Floats.Float,
    status: OrderStatus, erpPriority: Option<int>, productionStatus: Option<string>,
    materialStatus: MaterialStatus, qualityStatus: QualityStatus, shippingStatus: ShippingStatus,
    value: Option<Floats.Float>, cost: Option<Floats.Float>,
    margin: Option<Floats.Float>, actualMargin: Option<Floats.Float>,
    process: Process, route: seq<Process>, group: Option<string>, machine: Option<string>, material: Option<string>,
    tooling: seq<string>, setup: Option<Floats.Float>, cycle: Option<Floats.Float>, total: Option<Floats.Float>,
    customerPriority: Option<int>, technicalPriority: Option<int>, commercialPriority: Option<int>,
    penalty: Option<Floats.Float>, slaHours: Option<Floats.Float>, instructions: Option<string>,
    drawingApproved: bool, onHold: bool, holdReason: Option<string>, dependsOn: seq<string>,
    finish: Option<string>, technology: Option<string>)

  datatype Operation = Operation(
    id: string, sequence: int, kind: Process, group: Option<string>, machine: Option<string>, eligible: seq<string>,
    setup: Option<Floats.Float>, cycle: Option<Floats.Float>, cycles: Cycles,
    quantity: Floats.Float, completed: Floats.Float, status: OperationStatus, prerequisite: Option<string>,
    material: Option<string>, materialPerUnit: Option<Floats.Float>, tools: seq<string>,
    operator: Option<string>, quality: Option<string>, family: Option<string>,
    estimatedStart: Option<E.Stamp>, estimatedEnd: Option<E.Stamp>,
    actualStart: Option<E.Stamp>, actualEnd: Option<E.Stamp>)

  /** The order an operation belongs to, as far as its row shows it. */
  datatype OrderLine = OrderLine(orderId: string, externalRef: Option<string>, line: Option<string>)

  datatype Machine = Machine(
    id: string, name: string, kind: string, process: Process, group: string, location: Option<string>,
    status: MachineStatus, calendar: Option<string>, efficiency: Floats.Float, utilization: Option<Floats.Float>,
    capacity: Option<Floats.Float>,
    maintenance: seq<E.TimeWindow>, planned: seq<E.TimeWindow>, unplanned: seq<E.TimeWindow>,
    materials: seq<string>, processes: seq<Process>, maxPart: Option<E.Size>, tools: seq<string>,
    material: Option<string>, family: Option<string>, availableFrom: Option<E.Stamp>, rank: int)

  datatype Calendar = Calendar(
    id: string, name: string, timezone: string, shifts: seq<E.WeekShift>, holidays: seq<IsoTime.Date>,
    overtime: seq<E.TimeWindow>, extraDays: seq<IsoTime.Date>)

  // ------------------------------------------------------------------ columns

  /** Who ordered what, and when. */
  function OrderHead(o: Order): seq<Column> {
    [Column("ORDER_NO", "external_order_ref", KeyText(o.externalRef, o.id)),
     Column("LINE_NO", "order_line_id", KeyText(o.line, "1")),
     Column("CUST_CODE", "customer_id", RequiredText(o.customer)),
     Column("PART_NO", "part_id", RequiredText(o.part)),
     Column("PART_DESC", "part_name", OptionalText(o.partName)),
     Column("PART_FAM", "part_family", OptionalText(o.partFamily)),
     Column("ORDER_DT", "order_date", Moment(o.ordered)),
     Column("RECV_DT", "received_date", Moment(o.received)),
     Column("REQ_DT", "requested_delivery_date", Moment(o.requested)),
     Column("PROM_DT", "promised_delivery_date", Moment(o.promised)),
     Column("REV_DT", "revised_delivery_date", Moment(o.revised)),
     Column("QTY", "quantity", Quantity(o.quantity)),
     Column("QTY_DONE", "completed_quantity", Quantity(o.completed)),
     Column("QTY_CANC", "cancelled_quantity", Quantity(o.cancelled)),
     Column("STATUS", "order_status", Code(Place(E.ORDER_STATUS, o.status), "new"))]
  }

  /** Statuses, money and how it is made. */
  function OrderMiddle(o: Order): seq<Column> {
    [Column("PRIO", "erp_priority", Rank(o.erpPriority)),
     Column("PROD_STATUS", "production_status", OptionalText(o.productionStatus)),
     Column("MAT_STATUS", "material_status", Code(Place(E.MATERIAL_STATUS, o.materialStatus), "unknown")),
     Column("QC_STATUS", "quality_status", Code(Place(E.QUALITY_STATUS, o.qualityStatus), "none")),
     Column("SHIP_STATUS", "shipping_status", Code(Place(E.SHIPPING_STATUS, o.shippingStatus), "not_shipped")),
     Column("ORDER_VAL", "order_value", Number(o.value)),
     Column("EST_COST", "estimated_cost", Number(o.cost)),
     Column("EST_MARGIN", "estimated_margin", Number(o.margin)),
     Column("ACT_MARGIN", "actual_margin", Number(o.actualMargin)),
     Column("PROC_TYPE", "process_type", Code(Place(E.PROCESS, o.process), "other")),
     Column("ROUTE", "manufacturing_route", Route(o.route)),
     Column("WC_GROUP", "machine_group", OptionalText(o.group)),
     Column("REQ_MACHINE", "required_machine_id", OptionalText(o.machine)),
     Column("REQ_MATERIAL", "required_material_id", OptionalText(o.material)),
     Column("TOOL_LIST", "tooling_requirement", Texts(o.tooling))]
  }

  /** Estimates, priorities and the rest. */
  function OrderTail(o: Order): seq<Column> {
    [Column("EST_SETUP_MIN", "estimated_setup_minutes", Number(o.setup)),
     Column("EST_CYCLE_MIN", "estimated_cycle_minutes_per_unit", Number(o.cycle)),
     Column("EST_TOTAL_MIN", "estimated_total_production_minutes", Number(o.total)),
     Column("CUST_PRIO", "customer_priority", Rank(o.customerPriority)),
     Column("TECH_PRIO", "technical_priority", Rank(o.technicalPriority)),
     Column("COMM_PRIO", "commercial_priority", Rank(o.commercialPriority)),
     Column("LATE_PEN_DAY", "lateness_penalty_per_day", Number(o.penalty)),
     Column("SLA_HRS", "sla_hours", Number(o.slaHours)),
     Column("INSTRUCTIONS", "special_instructions", OptionalText(o.instructions)),
     Column("DWG_APPROVED", "drawing_approved", Flag(o.drawingApproved, true)),
     Column("HOLD_FLAG", "on_hold", Flag(o.onHold, false)),
     Column("HOLD_REASON", "hold_reason", OptionalText(o.holdReason)),
     Column("DEPENDS_ON", "depends_on_order_ids", Texts(o.dependsOn)),
     Column("SURF_FINISH", "surface_finish", OptionalText(o.finish)),
     Column("TECHNOLOGY", "technology", OptionalText(o.technology))]
  }

  function OrderColumns(o: Order): seq<Column> {
    OrderHead(o) + OrderMiddle(o) + OrderTail(o)
  }

  function OperationHead(op: Operation, line: OrderLine): seq<Column> {
    [Column("OP_ID", "operation_id", RequiredText(op.id)),
     Column("ORDER_NO", "external_order_ref", KeyText(line.externalRef, line.orderId)),
     Column("LINE_NO", "order_line_id", KeyText(line.line, "1")),
     Column("OP_SEQ", "sequence", Integer(op.sequence, true, None)),
     Column("OP_TYPE", "operation_type", Code(Place(E.PROCESS, op.kind), "other")),
     Column("WC_GROUP", "machine_group", OptionalText(op.group)),
     Column("MACHINE_NO", "machine_id", OptionalText(op.machine)),
     Column("ELIG_MACHINES", "eligible_machine_ids", Texts(op.eligible)),
     Column("SETUP_MIN", "setup_minutes", Number(op.setup)),
     Column("CYCLE_MIN", "cycle_minutes_per_unit", Number(op.cycle)),
     Column("MACHINE_CYCLE", "machine_cycle_minutes", Numbers(op.cycles)),
     Column("QTY", "quantity", Quantity(op.quantity)),
     Column("QTY_DONE", "completed_quantity", Quantity(op.completed))]
  }

  function OperationTail(op: Operation): seq<Column> {
    [Column("OP_STATUS", "operation_status", Code(Place(E.OPERATION_STATUS, op.status), "pending")),
     Column("PREREQ_OP", "prerequisite_operation_id", OptionalText(op.prerequisite)),
     Column("MATERIAL_NO", "material_id", OptionalText(op.material)),
     Column("MAT_QTY_PER", "material_quantity_per_unit", Number(op.materialPerUnit)),
     Column("TOOL_LIST", "tooling_ids", Texts(op.tools)),
     Column("OPERATOR_REQ", "operator_requirement", OptionalText(op.operator)),
     Column("QC_REQ", "quality_requirement", OptionalText(op.quality)),
     Column("SETUP_FAMILY", "setup_family", OptionalText(op.family)),
     Column("EST_START", "estimated_start", Moment(op.estimatedStart)),
     Column("EST_END", "estimated_end", Moment(op.estimatedEnd)),
     Column("ACT_START", "actual_start", Moment(op.actualStart)),
     Column("ACT_END", "actual_end", Moment(op.actualEnd))]
  }

  function OperationColumns(op: Operation, line: OrderLine): seq<Column> {
    OperationHead(op, line) + OperationTail(op)
  }

  function MachineHead(m: Machine): seq<Column> {
    [Column("MACHINE_NO", "machine_id", RequiredText(m.id)),
     Column("MACHINE_NAME", "machine_name", RequiredText(m.name)),
     Column("MACHINE_TYPE", "machine_type", DefaultedText(m.kind, "unknown")),
     Column("PROC_TYPE", "process_type", Code(Place(E.PROCESS, m.process), "other")),
     Column("WC_GROUP", "machine_group", RequiredText(m.group)),
     Column("LOCATION", "location", OptionalText(m.location)),
     Column("STATUS", "status", Code(Place(E.MACHINE_STATUS, m.status), "available")),
     Column("CALENDAR_CODE", "calendar_id", OptionalText(m.calendar)),
     Column("EFFICIENCY_PCT", "efficiency", Percent(m.efficiency)),
     Column("UTIL_PCT", "utilization", Ratio(m.utilization)),
     Column("CAP_HRS_DAY", "capacity_hours_per_day", Number(m.capacity))]
  }

  function MachineTail(m: Machine): seq<Column> {
    [Column("MAINT_WINDOWS", "maintenance_windows", Windows(m.maintenance)),
     Column("PLANNED_DOWN", "planned_downtime", Windows(m.planned)),
     Column("UNPLANNED_DOWN", "unplanned_downtime", Windows(m.unplanned)),
     Column("COMPAT_MATERIALS", "compatible_materials", Texts(m.materials)),
     Column("COMPAT_PROCS", "compatible_processes", Processes(m.processes)),
     Column("MAX_PART_MM", "max_part_size_mm", Measures(m.maxPart)),
     Column("TOOLS_MOUNTED", "tooling_configuration", Texts(m.tools)),
     Column("CUR_MATERIAL", "current_material_id", OptionalText(m.material)),
     Column("CUR_SETUP_FAM", "current_setup_family", OptionalText(m.family)),
     Column("AVAIL_FROM", "available_from", Moment(m.availableFrom)),
     Column("PREF_RANK", "preferred_rank", Integer(m.rank, false, Some(0)))]
  }

  function MachineColumns(m: Machine): seq<Column> {
    MachineHead(m) + MachineTail(m)
  }

  function CalendarColumns(c: Calendar): seq<Column> {
    [Column("CALENDAR_CODE", "calendar_id", RequiredText(c.id)),
     Column("CALENDAR_NAME", "name", RequiredText(c.name)),
     Column("TZ", "timezone", DefaultedText(c.timezone, "UTC")),
     Column("SHIFTS", "shifts", Shifts(c.shifts)),
     Column("HOLIDAYS", "holidays", Dates(c.holidays)),
     Column("OVERTIME", "overtime_windows", Windows(c.overtime)),
     Column("EXTRA_DAYS", "extra_working_days", Dates(c.extraDays))]
  }

  // -------------------------------------------------------- names of the columns

  // Names of one part, and of two parts, differ; the parts are short enough to be compared name by name.

  ghost predicate DistinctSources(cols: seq<Column>) {
    forall i, j :: 0 <= i < j < |cols| ==> cols[i].source != cols[j].source
  }

  ghost predicate DistinctTargetsOf(cols: seq<Column>) {
    forall i, j :: 0 <= i < j < |cols| ==> cols[i].target != cols[j].target
  }

  ghost predicate SourcesDiffer(a: seq<Column>, b: seq<Column>) {
    forall i, j :: 0 <= i < |a| && 0 <= j < |b| ==> a[i].source != b[j].source
  }

  ghost predicate TargetsDiffer(a: seq<Column>, b: seq<Column>) {
    forall i, j :: 0 <= i < |a| && 0 <= j < |b| ==> a[i].target != b[j].target
  }

  lemma DistinctParts(a: seq<Column>, b: seq<Column>)
    requires DistinctNames(a) && DistinctNames(b) && SourcesDiffer(a, b) && TargetsDiffer(a, b)
    ensures DistinctNames(a + b)
  {
  }

  lemma OrderHeadSources(o: Order)
    ensures DistinctSources(OrderHead(o))
  {
  }

  lemma OrderHeadTargets(o: Order)
    ensures DistinctTargetsOf(OrderHead(o))
  {
  }

  lemma OrderMiddleSources(o: Order)
    ensures DistinctSources(OrderMiddle(o))
  {
  }

  lemma OrderMiddleTargets(o: Order)
    ensures DistinctTargetsOf(OrderMiddle(o))
  {
  }

  lemma OrderTailSources(o: Order)
    ensures DistinctSources(OrderTail(o))
  {
  }

  lemma OrderTailTargets(o: Order)
    ensures DistinctTargetsOf(OrderTail(o))
  {
  }

  lemma FirstHeadMiddleSources(o: Order)
    ensures |OrderHead(o)| == 15 && |OrderMiddle(o)| == 15
    ensures forall i, j :: 0 <= i < 8 && 0 <= j < 15 ==> OrderHead(o)[i].source != OrderMiddle(o)[j].source
  {
  }

  lemma LastHeadMiddleSources(o: Order)
    ensures |OrderHead(o)| == 15 && |OrderMiddle(o)| == 15
    ensures forall i, j :: 8 <= i < 15 && 0 <= j < 15 ==> OrderHead(o)[i].source != OrderMiddle(o)[j].source
  {
  }

  lemma HeadMiddleSources(o: Order)
    ensures SourcesDiffer(OrderHead(o), OrderMiddle(o))
  {
    FirstHeadMiddleSources(o);
    LastHeadMiddleSources(o);
  }

  lemma HeadMiddleTargets(o: Order)
    ensures TargetsDiffer(OrderHead(o), OrderMiddle(o))
  {
  }

  lemma HeadTailSources(o: Order)
    ensures SourcesDiffer(OrderHead(o), OrderTail(o))
  {
  }

  lemma HeadTailTargets(o: Order)
    ensures TargetsDiffer(OrderHead(o), OrderTail(o))
  {
  }

  lemma MiddleTailSources(o: Order)
    ensures SourcesDiffer(OrderMiddle(o), OrderTail(o))
  {
  }

  lemma MiddleTailTargets(o: Order)
    ensures TargetsDiffer(OrderMiddle(o), OrderTail(o))
  {
  }

  lemma OrderHeadAndMiddle(o: Order)
    ensures DistinctNames(OrderHead(o) + OrderMiddle(o))
  {
    OrderHeadSources(o);
    OrderHeadTargets(o);
    OrderMiddleSources(o);
    OrderMiddleTargets(o);
    HeadMiddleSources(o);
    HeadMiddleTargets(o);
    DistinctParts(OrderHead(o), OrderMiddle(o));
  }

  lemma OrderNames(o: Order)
    ensures DistinctNames(OrderColumns(o))
  {
    OrderHeadAndMiddle(o);
    OrderTailSources(o);
    OrderTailTargets(o);
    HeadTailSources(o);
    HeadTailTargets(o);
    MiddleTailSources(o);
    MiddleTailTargets(o);
    DistinctParts(OrderHead(o) + OrderMiddle(o), OrderTail(o));
  }

  lemma OperationHeadSources(op: Operation, line: OrderLine)
    ensures DistinctSources(OperationHead(op, line))
  {
  }

  lemma OperationHeadTargets(op: Operation, line: OrderLine)
    ensures DistinctTargetsOf(OperationHead(op, line))
  {
  }

  lemma OperationTailSources(op: Operation)
    ensures DistinctSources(OperationTail(op))
  {
  }

  lemma OperationTailTargets(op: Operation)
    ensures DistinctTargetsOf(OperationTail(op))
  {
  }

  lemma OperationPartsSources(op: Operation, line: OrderLine)
    ensures SourcesDiffer(OperationHead(op, line), OperationTail(op))
  {
  }

  lemma OperationPartsTargets(op: Operation, line: OrderLine)
    ensures TargetsDiffer(OperationHead(op, line), OperationTail(op))
  {
  }

  lemma OperationNames(op: Operation, line: OrderLine)
    ensures DistinctNames(OperationColumns(op, line))
  {
    OperationHeadSources(op, line);
    OperationHeadTargets(op, line);
    OperationTailSources(op);
    OperationTailTargets(op);
    OperationPartsSources(op, line);
    OperationPartsTargets(op, line);
    DistinctParts(OperationHead(op, line), OperationTail(op));
  }

  lemma MachineHeadSources(m: Machine)
    ensures DistinctSources(MachineHead(m))
  {
  }

  lemma MachineHeadTargets(m: Machine)
    ensures DistinctTargetsOf(MachineHead(m))
  {
  }

  lemma MachineTailSources(m: Machine)
    ensures DistinctSources(MachineTail(m))
  {
  }

  lemma MachineTailTargets(m: Machine)
    ensures DistinctTargetsOf(MachineTail(m))
  {
  }

  lemma MachinePartsSources(m: Machine)
    ensures SourcesDiffer(MachineHead(m), MachineTail(m))
  {
  }

  lemma MachinePartsTargets(m: Machine)
    ensures TargetsDiffer(MachineHead(m), MachineTail(m))
  {
  }

  lemma MachineNames(m: Machine)
    ensures DistinctNames(MachineColumns(m))
  {
    MachineHeadSources(m);
    MachineHeadTargets(m);
    MachineTailSources(m);
    MachineTailTargets(m);
    MachinePartsSources(m);
    MachinePartsTargets(m);
    DistinctParts(MachineHead(m), MachineTail(m));
  }

  lemma CalendarNames(c: Calendar)
    ensures DistinctNames(CalendarColumns(c))
  {
  }

  // -------------------------------------------------------- tables and classes

  /** A class whose attributes are the targets of its table and some more. */
  function ClassOf(needed: set<string>, maps: seq<FieldMap>, more: set<string>): Class {
    Class(needed, more + set i | 0 <= i < |maps| :: maps[i].target)
  }

  const ORDER_NEEDS: set<string> := {ORDER_ID, "customer_id", "part_id"}
  const OPERATION_NEEDS: set<string> := {OPERATION_ID, ORDER_ID, "sequence", "operation_type"}
  const MACHINE_NEEDS: set<string> := {"machine_id", "machine_name", "machine_type", "process_type", "machine_group"}
  const CALENDAR_NEEDS: set<string> := {"calendar_id", "name"}

  function OrderClass(maps: seq<FieldMap>): Class {
    ClassOf(ORDER_NEEDS, maps, {ATTRIBUTES})
  }

  function OperationClass(maps: seq<FieldMap>): Class {
    ClassOf(OPERATION_NEEDS, maps, {ATTRIBUTES})
  }

  function MachineClass(maps: seq<FieldMap>): Class {
    ClassOf(MACHINE_NEEDS, maps, {ATTRIBUTES, "setup_requirements"})
  }

  function CalendarClass(maps: seq<FieldMap>): Class {
    ClassOf(CALENDAR_NEEDS, maps, {})
  }

  /** The field table of an entity, whatever its columns hold. */
  ghost predicate OrderFields(maps: seq<FieldMap>) {
    forall o: Order :: Fields(OrderColumns(o)) == maps
  }

  ghost predicate OperationFields(maps: seq<FieldMap>) {
    forall op: Operation, line: OrderLine :: Fields(OperationColumns(op, line)) == maps
  }

  ghost predicate MachineFields(maps: seq<FieldMap>) {
    forall m: Machine :: Fields(MachineColumns(m)) == maps
  }

  ghost predicate CalendarFields(maps: seq<FieldMap>) {
    forall c: Calendar :: Fields(CalendarColumns(c)) == maps
  }

  predicate SameName(a: Column, b: Column) {
    a.source == b.source && a.target == b.target
  }

  lemma SameTableParts(a: seq<Column>, b: seq<Column>)
    requires |a| == |b| && forall i :: 0 <= i < |a| ==> SameShape(a[i].kind, b[i].kind)
    requires forall i :: 0 <= i < |a| ==> SameName(a[i], b[i])
    ensures SameTable(a, b)
  {
  }

  lemma OrderHeadShapes(o: Order, q: Order)
    ensures |OrderHead(o)| == 15 && |OrderHead(q)| == 15
    ensures forall i :: 0 <= i < 15 ==> SameShape(OrderHead(o)[i].kind, OrderHead(q)[i].kind)
  {
  }

  lemma OrderHeadSameNames(o: Order, q: Order)
    ensures |OrderHead(o)| == 15 && |OrderHead(q)| == 15
    ensures forall i :: 0 <= i < 15 ==> SameName(OrderHead(o)[i], OrderHead(q)[i])
  {
  }

  lemma OrderHeadTable(o: Order, q: Order)
    ensures SameTable(OrderHead(o), OrderHead(q))
  {
    OrderHeadShapes(o, q);
    OrderHeadSameNames(o, q);
    SameTableParts(OrderHead(o), OrderHead(q));
  }

  lemma OrderMiddleShapes(o: Order, q: Order)
    ensures |OrderMiddle(o)| == 15 && |OrderMiddle(q)| == 15
    ensures forall i :: 0 <= i < 15 ==> SameShape(OrderMiddle(o)[i].kind, OrderMiddle(q)[i].kind)
  {
  }

  lemma OrderMiddleSameNames(o: Order, q: Order)
    ensures |OrderMiddle(o)| == 15 && |OrderMiddle(q)| == 15
    ensures forall i :: 0 <= i < 15 ==> SameName(OrderMiddle(o)[i], OrderMiddle(q)[i])
  {
  }

  lemma OrderMiddleTable(o: Order, q: Order)
    ensures SameTable(OrderMiddle(o), OrderMiddle(q))
  {
    OrderMiddleShapes(o, q);
    OrderMiddleSameNames(o, q);
    SameTableParts(OrderMiddle(o), OrderMiddle(q));
  }

  lemma OrderTailFirstShapes(o: Order, q: Order)
    ensures |OrderTail(o)| == 15 && |OrderTail(q)| == 15
    ensures forall i :: 0 <= i < 8 ==> SameShape(OrderTail(o)[i].kind, OrderTail(q)[i].kind)
  {
  }

  lemma OrderTailLastShapes(o: Order, q: Order)
    ensures |OrderTail(o)| == 15 && |OrderTail(q)| == 15
    ensures forall i :: 8 <= i < 15 ==> SameShape(OrderTail(o)[i].kind, OrderTail(q)[i].kind)
  {
  }

  lemma OrderTailSameNames(o: Order, q: Order)
    ensures |OrderTail(o)| == 15 && |OrderTail(q)| == 15
    ensures forall i :: 0 <= i < 15 ==> SameName(OrderTail(o)[i], OrderTail(q)[i])
  {
  }

  lemma OrderTailTable(o: Order, q: Order)
    ensures SameTable(OrderTail(o), OrderTail(q))
  {
    OrderTailFirstShapes(o, q);
    OrderTailLastShapes(o, q);
    OrderTailSameNames(o, q);
    SameTableParts(OrderTail(o), OrderTail(q));
  }

  lemma TableParts(a: seq<Column>, b: seq<Column>, c: seq<Column>, d: seq<Column>)
    requires SameTable(a, c) && SameTable(b, d)
    ensures SameTable(a + b, c + d)
  {
  }

  lemma OrderTable(o: Order)
    ensures OrderFields(Fields(OrderColumns(o)))
  {
    forall q: Order ensures Fields(OrderColumns(q)) == Fields(OrderColumns(o)) {
      OneOrderTable(o, q);
    }
  }

  lemma OneOrderTable(o: Order, q: Order)
    ensures Fields(OrderColumns(q)) == Fields(OrderColumns(o))
  {
    OrderHeadTable(o, q);
    OrderMiddleTable(o, q);
    OrderTailTable(o, q);
    TableParts(OrderHead(o), OrderMiddle(o), OrderHead(q), OrderMiddle(q));
    TableParts(OrderHead(o) + OrderMiddle(o), OrderTail(o), OrderHead(q) + OrderMiddle(q), OrderTail(q));
    OneFieldTable(OrderColumns(o), OrderColumns(q));
  }

  lemma OperationHeadShapes(op: Operation, line: OrderLine, oq: Operation, other: OrderLine)
    ensures |OperationHead(op, line)| == 13 && |OperationHead(oq, other)| == 13
    ensures forall i :: 0 <= i < 13 ==> SameShape(OperationHead(op, line)[i].kind, OperationHead(oq, other)[i].kind)
  {
  }

  lemma OperationHeadSameNames(op: Operation, line: OrderLine, oq: Operation, other: OrderLine)
    ensures |OperationHead(op, line)| == 13 && |OperationHead(oq, other)| == 13
    ensures forall i :: 0 <= i < 13 ==> SameName(OperationHead(op, line)[i], OperationHead(oq, other)[i])
  {
  }

  lemma OperationHeadTable(op: Operation, line: OrderLine, oq: Operation, other: OrderLine)
    ensures SameTable(OperationHead(op, line), OperationHead(oq, other))
  {
    OperationHeadShapes(op, line, oq, other);
    OperationHeadSameNames(op, line, oq, other);
    SameTableParts(OperationHead(op, line), OperationHead(oq, other));
  }

  lemma OperationTailShapes(op: Operation, oq: Operation)
    ensures |OperationTail(op)| == 12 && |OperationTail(oq)| == 12
    ensures forall i :: 0 <= i < 12 ==> SameShape(OperationTail(op)[i].kind, OperationTail(oq)[i].kind)
  {
  }

  lemma OperationTailSameNames(op: Operation, oq: Operation)
    ensures |OperationTail(op)| == 12 && |OperationTail(oq)| == 12
    ensures forall i :: 0 <= i < 12 ==> SameName(OperationTail(op)[i], OperationTail(oq)[i])
  {
  }

  lemma OperationTailTable(op: Operation, oq: Operation)
    ensures SameTable(OperationTail(op), OperationTail(oq))
  {
    OperationTailShapes(op, oq);
    OperationTailSameNames(op, oq);
    SameTableParts(OperationTail(op), OperationTail(oq));
  }

  lemma OperationTable(op: Operation, line: OrderLine)
    ensures OperationFields(Fields(OperationColumns(op, line)))
  {
    forall oq: Operation, other: OrderLine
      ensures Fields(OperationColumns(oq, other)) == Fields(OperationColumns(op, line))
    {
      OneOperationTable(op, line, oq, other);
    }
  }

  lemma OneOperationTable(op: Operation, line: OrderLine, oq: Operation, other: OrderLine)
    ensures Fields(OperationColumns(oq, other)) == Fields(OperationColumns(op, line))
  {
    OperationHeadTable(op, line, oq, other);
    OperationTailTable(op, oq);
    TableParts(OperationHead(op, line), OperationTail(op), OperationHead(oq, other), OperationTail(oq));
    OneFieldTable(OperationColumns(op, line), OperationColumns(oq, other));
  }

  lemma MachineHeadShapes(m: Machine, q: Machine)
    ensures |MachineHead(m)| == 11 && |MachineHead(q)| == 11
    ensures forall i :: 0 <= i < 11 ==> SameShape(MachineHead(m)[i].kind, MachineHead(q)[i].kind)
  {
  }

  lemma MachineHeadSameNames(m: Machine, q: Machine)
    ensures |MachineHead(m)| == 11 && |MachineHead(q)| == 11
    ensures forall i :: 0 <= i < 11 ==> SameName(MachineHead(m)[i], MachineHead(q)[i])
  {
  }

  lemma MachineHeadTable(m: Machine, q: Machine)
    ensures SameTable(MachineHead(m), MachineHead(q))
  {
    MachineHeadShapes(m, q);
    MachineHeadSameNames(m, q);
    SameTableParts(MachineHead(m), MachineHead(q));
  }

  lemma MachineTailShapes(m: Machine, q: Machine)
    ensures |MachineTail(m)| == 11 && |MachineTail(q)| == 11
    ensures forall i :: 0 <= i < 11 ==> SameShape(MachineTail(m)[i].kind, MachineTail(q)[i].kind)
  {
  }

  lemma MachineTailSameNames(m: Machine, q: Machine)
    ensures |MachineTail(m)| == 11 && |MachineTail(q)| == 11
    ensures forall i :: 0 <= i < 11 ==> SameName(MachineTail(m)[i], MachineTail(q)[i])
  {
  }

  lemma MachineTailTable(m: Machine, q: Machine)
    ensures SameTable(MachineTail(m), MachineTail(q))
  {
    MachineTailShapes(m, q);
    MachineTailSameNames(m, q);
    SameTableParts(MachineTail(m), MachineTail(q));
  }

  lemma MachineTable(m: Machine)
    ensures MachineFields(Fields(MachineColumns(m)))
  {
    forall q: Machine ensures Fields(MachineColumns(q)) == Fields(MachineColumns(m)) {
      OneMachineTable(m, q);
    }
  }

  lemma OneMachineTable(m: Machine, q: Machine)
    ensures Fields(MachineColumns(q)) == Fields(MachineColumns(m))
  {
    MachineHeadTable(m, q);
    MachineTailTable(m, q);
    TableParts(MachineHead(m), MachineTail(m), MachineHead(q), MachineTail(q));
    OneFieldTable(MachineColumns(m), MachineColumns(q));
  }

  lemma CalendarTable(c: Calendar)
    ensures CalendarFields(Fields(CalendarColumns(c)))
  {
    forall q: Calendar ensures Fields(CalendarColumns(q)) == Fields(CalendarColumns(c)) {
      SameCalendarTable(c, q);
      OneFieldTable(CalendarColumns(c), CalendarColumns(q));
    }
  }

  lemma SameCalendarTable(c: Calendar, q: Calendar)
    ensures SameTable(CalendarColumns(c), CalendarColumns(q))
  {
  }
}

/**
 * What the printer writes, how the normaliser's tables read it and which attribute it stands for, written out
 * column by column, and what that makes of the exports (backend/app/integration/mock_connector.py, field_maps.py).
 */
module ErpTables {
  import opened Prelude
  import E = ErpFormats
  import opened ErpColumns
  import opened ErpParsers
  import opened ErpRecords
  import opened ErpExports
  import Decimal
  import Floats
  import IsoTime
  import opened Normalizer

  /** What is printed for an attribute, the row of the normaliser's table that reads it, and the attribute. */
  datatype Row = Row(cell: RawVal, field: FieldMap, attribute: Option<Value>)

  // ------------------------------------------------------- how single values print

  /** `value or other`. */
  function Else(value: Option<string>, other: string): string {
    if value.Some? && value.value != "" then value.value else other
  }

  function Iso(s: Option<E.Stamp>): string {
    if s.None? then "" else IsoTime.DateText(s.value.0) + "T" + IsoTime.TimeText(s.value.1) + "+00:00"
  }

  function FlagText(b: bool): string {
    if b then "Y" else "N"
  }

  function Num(x: Option<Floats.Float>): string {
    if x.None? then "" else Floats.Repr(x.value)
  }

  function IntText(i: Option<int>): string {
    if i.None? then "" else Decimal.Signed(i.value)
  }

  function Pct(x: Option<Floats.Float>): string {
    if x.None? then "" else E.PrintPercent(x.value)
  }

  function SizeText(s: Option<E.Size>): string {
    if s.None? then ""
    else E.Join([Floats.General(s.value.0), Floats.General(s.value.1), Floats.General(s.value.2)], 'x')
  }

  function OptText(s: Option<string>): Option<Value> {
    if s.None? then None else Some(VText(s.value))
  }

  function OptFloat(x: Option<Floats.Float>): Option<Value> {
    if x.None? then None else Some(VFloat(x.value))
  }

  function OptInt(i: Option<int>): Option<Value> {
    if i.None? then None else Some(VInt(i.value))
  }

  function OptStamp(s: Option<E.Stamp>): Option<Value> {
    if s.None? then None else Some(VStamp(s.value.0, s.value.1))
  }

  function OptSize(s: Option<E.Size>): Option<Value> {
    if s.None? then None else Some(VSize(s.value))
  }

  // ------------------------------------------------------------------ rows of a table

  ghost predicate Matches(c: Column, r: Row) {
    FieldOf(c) == r.field && FormatOf(c.kind).cell == r.cell && FormatOf(c.kind).attribute == r.attribute
  }

  ghost predicate Matched(cols: seq<Column>, rows: seq<Row>) {
    |cols| == |rows| && forall i :: 0 <= i < |cols| ==> Matches(cols[i], rows[i])
  }

  lemma JoinMatched(a: seq<Column>, x: seq<Row>, b: seq<Column>, y: seq<Row>)
    requires Matched(a, x) && Matched(b, y)
    ensures Matched(a + b, x + y)
  {
  }

  /** A stretch of the columns. */
  lemma Piece(cols: seq<Column>, from: nat, rows: seq<Row>)
    requires from + |rows| <= |cols|
    requires forall i :: 0 <= i < |rows| ==> Matches(cols[from + i], rows[i])
    ensures Matched(cols[from..from + |rows|], rows)
  {
    assert forall i :: 0 <= i < |rows| ==> Matches(cols[from..from + |rows|][i], rows[i]);
  }

  /** The dictionary that the printer makes. */
  function AsRecord(rows: seq<Row>): Payload {
    if rows == [] then map[]
    else AsRecord(rows[..|rows| - 1])[rows[|rows| - 1].field.source := rows[|rows| - 1].cell]
  }

  lemma {:induction false} RecordMatches(cols: seq<Column>, rows: seq<Row>)
    requires Matched(cols, rows)
    ensures PayloadOf(cols) == AsRecord(rows)
  {
    if cols != [] {
      RecordMatches(cols[..|cols| - 1], rows[..|rows| - 1]);
    }
  }

  function Table(rows: seq<Row>): seq<FieldMap> {
    seq(|rows|, i requires 0 <= i < |rows| => rows[i].field)
  }

  lemma TableMatches(cols: seq<Column>, rows: seq<Row>)
    requires Matched(cols, rows)
    ensures Fields(cols) == Table(rows)
  {
  }

  /** Every attribute has its value, under its own name. */
  predicate Shows(fields: map<string, Value>, rows: seq<Row>) {
    forall i :: 0 <= i < |rows| ==> Get(fields, rows[i].field.target) == rows[i].attribute
  }

  lemma ShowsMatches(fields: map<string, Value>, cols: seq<Column>, rows: seq<Row>)
    requires Matched(cols, rows)
    ensures Shows(fields, rows) <==> Holds(fields, cols)
  {
  }

  // ------------------------------------------------------------------ orders

  function OrderHeadRows1(o: Order): seq<Row> {
    [Row(RStr(Else(o.externalRef, o.id)),
         FieldMap("ORDER_NO", "external_order_ref", ParseStr, true, None), OptText(o.externalRef)),
     Row(RStr(Else(o.line, "1")), FieldMap("LINE_NO", "order_line_id", ParseStr, true, None), OptText(o.line)),
     Row(RStr(o.customer), FieldMap("CUST_CODE", "customer_id", ParseStr, true, None), Some(VText(o.customer)))]
  }

  lemma OrderHeadMatches1(o: Order)
    ensures |OrderHead(o)| == 15 && |OrderHeadRows1(o)| == 3
    ensures forall i :: 0 <= i < 3 ==> Matches(OrderHead(o)[i], OrderHeadRows1(o)[i])
  {
  }

  function OrderHeadRows2(o: Order): seq<Row> {
    [Row(RStr(o.part), FieldMap("PART_NO", "part_id", ParseStr, true, None), Some(VText(o.part))),
     Row(RStr(o.partName.GetOr("")),
         FieldMap("PART_DESC", "part_name", ParseStr, false, None), OptText(o.partName)),
     Row(RStr(o.partFamily.GetOr("")),
         FieldMap("PART_FAM", "part_family", ParseStr, false, None), OptText(o.partFamily))]
  }

  lemma OrderHeadMatches2(o: Order)
    ensures |OrderHead(o)| == 15 && |OrderHeadRows2(o)| == 3
    ensures forall i :: 0 <= i < 3 ==> Matches(OrderHead(o)[3 + i], OrderHeadRows2(o)[i])
  {
  }

  function OrderHeadRows3(o: Order): seq<Row> {
    [Row(RStr(Iso(o.ordered)), FieldMap("ORDER_DT", "order_date", ParseStamp, false, None), OptStamp(o.ordered)),
     Row(RStr(Iso(o.received)),
         FieldMap("RECV_DT", "received_date", ParseStamp, false, None), OptStamp(o.received)),
     Row(RStr(Iso(o.requested)),
         FieldMap("REQ_DT", "requested_delivery_date", ParseStamp, false, None), OptStamp(o.requested))]
  }

  lemma OrderHeadMatches3(o: Order)
    ensures |OrderHead(o)| == 15 && |OrderHeadRows3(o)| == 3
    ensures forall i :: 0 <= i < 3 ==> Matches(OrderHead(o)[6 + i], OrderHeadRows3(o)[i])
  {
  }

  function OrderHeadRows4(o: Order): seq<Row> {
    [Row(RStr(Iso(o.promised)),
         FieldMap("PROM_DT", "promised_delivery_date", ParseStamp, false, None), OptStamp(o.promised)),
     Row(RStr(Iso(o.revised)),
         FieldMap("REV_DT", "revised_delivery_date", ParseStamp, false, None), OptStamp(o.revised)),
     Row(RFloat(o.quantity),
         FieldMap("QTY", "quantity", ParseFloat, false, Some(VFloat(Floats.ZERO))), Some(VFloat(o.quantity)))]
  }

  lemma OrderHeadMatches4(o: Order)
    ensures |OrderHead(o)| == 15 && |OrderHeadRows4(o)| == 3
    ensures forall i :: 0 <= i < 3 ==> Matches(OrderHead(o)[9 + i], OrderHeadRows4(o)[i])
  {
  }

  function OrderHeadRows5(o: Order): seq<Row> {
    [Row(RFloat(o.completed),
         FieldMap("QTY_DONE", "completed_quantity", ParseFloat, false, Some(VFloat(Floats.ZERO))),
         Some(VFloat(o.completed))),
     Row(RFloat(o.cancelled),
         FieldMap("QTY_CANC", "cancelled_quantity", ParseFloat, false, Some(VFloat(Floats.ZERO))),
         Some(VFloat(o.cancelled))),
     Row(RStr(E.ORDER_STATUS_CODES[o.status].0),
         FieldMap("STATUS", "order_status", ParseOrderStatus, false, Some(VMember("new"))),
         Some(VMember(E.ORDER_STATUS_CODES[o.status].1)))]
  }

  lemma OrderHeadMatches5(o: Order)
    ensures |OrderHead(o)| == 15 && |OrderHeadRows5(o)| == 3
    ensures forall i :: 0 <= i < 3 ==> Matches(OrderHead(o)[12 + i], OrderHeadRows5(o)[i])
  {
  }

  function OrderHeadRows(o: Order): seq<Row> {
    OrderHeadRows1(o) + OrderHeadRows2(o) + OrderHeadRows3(o) + OrderHeadRows4(o) + OrderHeadRows5(o)
  }

  lemma OrderHeadMatched(o: Order)
    ensures Matched(OrderHead(o), OrderHeadRows(o))
  {
    var cols := OrderHead(o);
    OrderHeadMatches1(o);
    Piece(cols, 0, OrderHeadRows1(o));
    OrderHeadMatches2(o);
    Piece(cols, 3, OrderHeadRows2(o));
    OrderHeadMatches3(o);
    Piece(cols, 6, OrderHeadRows3(o));
    OrderHeadMatches4(o);
    Piece(cols, 9, OrderHeadRows4(o));
    OrderHeadMatches5(o);
    Piece(cols, 12, OrderHeadRows5(o));
    JoinMatched(cols[0..3], OrderHeadRows1(o), cols[3..6], OrderHeadRows2(o));
    assert cols[0..3] + cols[3..6] == cols[0..6];
    JoinMatched(cols[0..6], OrderHeadRows1(o) + OrderHeadRows2(o), cols[6..9], OrderHeadRows3(o));
    assert cols[0..6] + cols[6..9] == cols[0..9];
    JoinMatched(cols[0..9], OrderHeadRows1(o) + OrderHeadRows2(o) + OrderHeadRows3(o),
                cols[9..12], OrderHeadRows4(o));
    assert cols[0..9] + cols[9..12] == cols[0..12];
    JoinMatched(cols[0..12], OrderHeadRows1(o) + OrderHeadRows2(o) + OrderHeadRows3(o) + OrderHeadRows4(o),
                cols[12..15], OrderHeadRows5(o));
    assert cols[0..12] + cols[12..15] == cols[0..15];
    assert cols[0..15] == cols;
  }

  function OrderMiddleRows1(o: Order): seq<Row> {
    [Row(RStr(IntText(o.erpPriority)),
         FieldMap("PRIO", "erp_priority", ParseInteger, false, None), OptInt(o.erpPriority)),
     Row(RStr(o.productionStatus.GetOr("")),
         FieldMap("PROD_STATUS", "production_status", ParseStr, false, None), OptText(o.productionStatus)),
     Row(RStr(E.MATERIAL_STATUS_CODES[o.materialStatus].0),
         FieldMap("MAT_STATUS", "material_status", ParseMaterialStatus, false, Some(VMember("unknown"))),
         Some(VMember(E.MATERIAL_STATUS_CODES[o.materialStatus].1)))]
  }

  lemma OrderMiddleMatches1(o: Order)
    ensures |OrderMiddle(o)| == 15 && |OrderMiddleRows1(o)| == 3
    ensures forall i :: 0 <= i < 3 ==> Matches(OrderMiddle(o)[i], OrderMiddleRows1(o)[i])
  {
  }

  function OrderMiddleRows2(o: Order): seq<Row> {
    [Row(RStr(E.QUALITY_STATUS_CODES[o.qualityStatus].0),
         FieldMap("QC_STATUS", "quality_status", ParseQualityStatus, false, Some(VMember("none"))),
         Some(VMember(E.QUALITY_STATUS_CODES[o.qualityStatus].1))),
     Row(RStr(E.SHIPPING_STATUS_CODES[o.shippingStatus].0),
         FieldMap("SHIP_STATUS", "shipping_status", ParseShippingStatus, false, Some(VMember("not_shipped"))),
         Some(VMember(E.SHIPPING_STATUS_CODES[o.shippingStatus].1))),
     Row(RStr(Num(o.value)), FieldMap("ORDER_VAL", "order_value", ParseFloat, false, None), OptFloat(o.value))]
  }

  lemma OrderMiddleMatches2(o: Order)
    ensures |OrderMiddle(o)| == 15 && |OrderMiddleRows2(o)| == 3
    ensures forall i :: 0 <= i < 3 ==> Matches(OrderMiddle(o)[3 + i], OrderMiddleRows2(o)[i])
  {
  }

  function OrderMiddleRows3(o: Order): seq<Row> {
    [Row(RStr(Num(o.cost)), FieldMap("EST_COST", "estimated_cost", ParseFloat, false, None), OptFloat(o.cost)),
     Row(RStr(Num(o.margin)),
         FieldMap("EST_MARGIN", "estimated_margin", ParseFloat, false, None), OptFloat(o.margin)),
     Row(RStr(Num(o.actualMargin)),
         FieldMap("ACT_MARGIN", "actual_margin", ParseFloat, false, None), OptFloat(o.actualMargin))]
  }

  lemma OrderMiddleMatches3(o: Order)
    ensures |OrderMiddle(o)| == 15 && |OrderMiddleRows3(o)| == 3
    ensures forall i :: 0 <= i < 3 ==> Matches(OrderMiddle(o)[6 + i], OrderMiddleRows3(o)[i])
  {
  }

  function OrderMiddleRows4(o: Order): seq<Row> {
    [Row(RStr(E.PROCESS_TYPE_CODES[o.process].0),
         FieldMap("PROC_TYPE", "process_type", ParseProcess, false, Some(VMember("other"))),
         Some(VMember(E.PROCESS_TYPE_CODES[o.process].1))),
     Row(RStr(E.Join(Codes(o.route), '>')),
         FieldMap("ROUTE", "manufacturing_route", ParseRoute, false, Some(VRoute([]))),
         Some(VRoute(Values(o.route)))),
     Row(RStr(o.group.GetOr("")), FieldMap("WC_GROUP", "machine_group", ParseStr, false, None), OptText(o.group))]
  }

  lemma OrderMiddleMatches4(o: Order)
    ensures |OrderMiddle(o)| == 15 && |OrderMiddleRows4(o)| == 3
    ensures forall i :: 0 <= i < 3 ==> Matches(OrderMiddle(o)[9 + i], OrderMiddleRows4(o)[i])
  {
  }

  function OrderMiddleRows5(o: Order): seq<Row> {
    [Row(RStr(o.machine.GetOr("")),
         FieldMap("REQ_MACHINE", "required_machine_id", ParseStr, false, None), OptText(o.machine)),
     Row(RStr(o.material.GetOr("")),
         FieldMap("REQ_MATERIAL", "required_material_id", ParseStr, false, None), OptText(o.material)),
     Row(RStr(E.PrintStrSet(o.tooling)),
         FieldMap("TOOL_LIST", "tooling_requirement", ParseTexts, false, Some(VTexts({}))),
         Some(VTexts(set t | t in o.tooling)))]
  }

  lemma OrderMiddleMatches5(o: Order)
    ensures |OrderMiddle(o)| == 15 && |OrderMiddleRows5(o)| == 3
    ensures forall i :: 0 <= i < 3 ==> Matches(OrderMiddle(o)[12 + i], OrderMiddleRows5(o)[i])
  {
  }

  function OrderMiddleRows(o: Order): seq<Row> {
    OrderMiddleRows1(o) + OrderMiddleRows2(o) + OrderMiddleRows3(o) + OrderMiddleRows4(o) + OrderMiddleRows5(o)
  }

  lemma OrderMiddleMatched(o: Order)
    ensures Matched(OrderMiddle(o), OrderMiddleRows(o))
  {
    var cols := OrderMiddle(o);
    OrderMiddleMatches1(o);
    Piece(cols, 0, OrderMiddleRows1(o));
    OrderMiddleMatches2(o);
    Piece(cols, 3, OrderMiddleRows2(o));
    OrderMiddleMatches3(o);
    Piece(cols, 6, OrderMiddleRows3(o));
    OrderMiddleMatches4(o);
    Piece(cols, 9, OrderMiddleRows4(o));
    OrderMiddleMatches5(o);
    Piece(cols, 12, OrderMiddleRows5(o));
    JoinMatched(cols[0..3], OrderMiddleRows1(o), cols[3..6], OrderMiddleRows2(o));
    assert cols[0..3] + cols[3..6] == cols[0..6];
    JoinMatched(cols[0..6], OrderMiddleRows1(o) + OrderMiddleRows2(o), cols[6..9], OrderMiddleRows3(o));
    assert cols[0..6] + cols[6..9] == cols[0..9];
    JoinMatched(cols[0..9], OrderMiddleRows1(o) + OrderMiddleRows2(o) + OrderMiddleRows3(o),
                cols[9..12], OrderMiddleRows4(o));
    assert cols[0..9] + cols[9..12] == cols[0..12];
    JoinMatched(cols[0..12], OrderMiddleRows1(o) + OrderMiddleRows2(o) + OrderMiddleRows3(o) + OrderMiddleRows4(o),
                cols[12..15], OrderMiddleRows5(o));
    assert cols[0..12] + cols[12..15] == cols[0..15];
    assert cols[0..15] == cols;
  }

  function OrderTailRows1(o: Order): seq<Row> {
    [Row(RStr(Num(o.setup)),
         FieldMap("EST_SETUP_MIN", "estimated_setup_minutes", ParseFloat, false, None), OptFloat(o.setup)),
     Row(RStr(Num(o.cycle)),
         FieldMap("EST_CYCLE_MIN", "estimated_cycle_minutes_per_unit", ParseFloat, false, None), OptFloat(o.cycle)),
     Row(RStr(Num(o.total)),
         FieldMap("EST_TOTAL_MIN", "estimated_total_production_minutes", ParseFloat, false, None),
         OptFloat(o.total))]
  }

  lemma OrderTailMatches1(o: Order)
    ensures |OrderTail(o)| == 15 && |OrderTailRows1(o)| == 3
    ensures forall i :: 0 <= i < 3 ==> Matches(OrderTail(o)[i], OrderTailRows1(o)[i])
  {
  }

  function OrderTailRows2(o: Order): seq<Row> {
    [Row(RStr(IntText(o.customerPriority)),
         FieldMap("CUST_PRIO", "customer_priority", ParseInteger, false, None), OptInt(o.customerPriority)),
     Row(RStr(IntText(o.technicalPriority)),
         FieldMap("TECH_PRIO", "technical_priority", ParseInteger, false, None), OptInt(o.technicalPriority)),
     Row(RStr(IntText(o.commercialPriority)),
         FieldMap("COMM_PRIO", "commercial_priority", ParseInteger, false, None), OptInt(o.commercialPriority))]
  }

  lemma OrderTailMatches2(o: Order)
    ensures |OrderTail(o)| == 15 && |OrderTailRows2(o)| == 3
    ensures forall i :: 0 <= i < 3 ==> Matches(OrderTail(o)[3 + i], OrderTailRows2(o)[i])
  {
  }

  function OrderTailRows3(o: Order): seq<Row> {
    [Row(RStr(Num(o.penalty)),
         FieldMap("LATE_PEN_DAY", "lateness_penalty_per_day", ParseFloat, false, None), OptFloat(o.penalty)),
     Row(RStr(Num(o.slaHours)), FieldMap("SLA_HRS", "sla_hours", ParseFloat, false, None), OptFloat(o.slaHours)),
     Row(RStr(o.instructions.GetOr("")),
         FieldMap("INSTRUCTIONS", "special_instructions", ParseStr, false, None), OptText(o.instructions))]
  }

  lemma OrderTailMatches3(o: Order)
    ensures |OrderTail(o)| == 15 && |OrderTailRows3(o)| == 3
    ensures forall i :: 0 <= i < 3 ==> Matches(OrderTail(o)[6 + i], OrderTailRows3(o)[i])
  {
  }

  function OrderTailRows4(o: Order): seq<Row> {
    [Row(RStr(FlagText(o.drawingApproved)),
         FieldMap("DWG_APPROVED", "drawing_approved", ParseBool, false, Some(VBool(true))),
         Some(VBool(o.drawingApproved))),
     Row(RStr(FlagText(o.onHold)),
         FieldMap("HOLD_FLAG", "on_hold", ParseBool, false, Some(VBool(false))), Some(VBool(o.onHold))),
     Row(RStr(o.holdReason.GetOr("")),
         FieldMap("HOLD_REASON", "hold_reason", ParseStr, false, None), OptText(o.holdReason))]
  }

  lemma OrderTailMatches4(o: Order)
    ensures |OrderTail(o)| == 15 && |OrderTailRows4(o)| == 3
    ensures forall i :: 0 <= i < 3 ==> Matches(OrderTail(o)[9 + i], OrderTailRows4(o)[i])
  {
  }

  function OrderTailRows5(o: Order): seq<Row> {
    [Row(RStr(E.PrintStrSet(o.dependsOn)),
         FieldMap("DEPENDS_ON", "depends_on_order_ids", ParseTexts, false, Some(VTexts({}))),
         Some(VTexts(set t | t in o.dependsOn))),
     Row(RStr(o.finish.GetOr("")),
         FieldMap("SURF_FINISH", "surface_finish", ParseStr, false, None), OptText(o.finish)),
     Row(RStr(o.technology.GetOr("")),
         FieldMap("TECHNOLOGY", "technology", ParseStr, false, None), OptText(o.technology))]
  }

  lemma OrderTailMatches5(o: Order)
    ensures |OrderTail(o)| == 15 && |OrderTailRows5(o)| == 3
    ensures forall i :: 0 <= i < 3 ==> Matches(OrderTail(o)[12 + i], OrderTailRows5(o)[i])
  {
  }

  function OrderTailRows(o: Order): seq<Row> {
    OrderTailRows1(o) + OrderTailRows2(o) + OrderTailRows3(o) + OrderTailRows4(o) + OrderTailRows5(o)
  }

  lemma OrderTailMatched(o: Order)
    ensures Matched(OrderTail(o), OrderTailRows(o))
  {
    var cols := OrderTail(o);
    OrderTailMatches1(o);
    Piece(cols, 0, OrderTailRows1(o));
    OrderTailMatches2(o);
    Piece(cols, 3, OrderTailRows2(o));
    OrderTailMatches3(o);
    Piece(cols, 6, OrderTailRows3(o));
    OrderTailMatches4(o);
    Piece(cols, 9, OrderTailRows4(o));
    OrderTailMatches5(o);
    Piece(cols, 12, OrderTailRows5(o));
    JoinMatched(cols[0..3], OrderTailRows1(o), cols[3..6], OrderTailRows2(o));
    assert cols[0..3] + cols[3..6] == cols[0..6];
    JoinMatched(cols[0..6], OrderTailRows1(o) + OrderTailRows2(o), cols[6..9], OrderTailRows3(o));
    assert cols[0..6] + cols[6..9] == cols[0..9];
    JoinMatched(cols[0..9], OrderTailRows1(o) + OrderTailRows2(o) + OrderTailRows3(o),
                cols[9..12], OrderTailRows4(o));
    assert cols[0..9] + cols[9..12] == cols[0..12];
    JoinMatched(cols[0..12], OrderTailRows1(o) + OrderTailRows2(o) + OrderTailRows3(o) + OrderTailRows4(o),
                cols[12..15], OrderTailRows5(o));
    assert cols[0..12] + cols[12..15] == cols[0..15];
    assert cols[0..15] == cols;
  }

  function OrderRows(o: Order): seq<Row> {
    OrderHeadRows(o) + OrderMiddleRows(o) + OrderTailRows(o)
  }

  lemma OrderMatched(o: Order)
    ensures Matched(OrderColumns(o), OrderRows(o))
  {
    OrderHeadMatched(o);
    OrderMiddleMatched(o);
    OrderTailMatched(o);
    JoinMatched(OrderHead(o), OrderHeadRows(o), OrderMiddle(o), OrderMiddleRows(o));
    JoinMatched(OrderHead(o) + OrderMiddle(o), OrderHeadRows(o) + OrderMiddleRows(o), OrderTail(o), OrderTailRows(o));
  }

  // ------------------------------------------------------------------ operations

  function OperationHeadRows1(op: Operation, line: OrderLine): seq<Row> {
    [Row(RStr(op.id), FieldMap("OP_ID", "operation_id", ParseStr, true, None), Some(VText(op.id))),
     Row(RStr(Else(line.externalRef, line.orderId)),
         FieldMap("ORDER_NO", "external_order_ref", ParseStr, true, None), OptText(line.externalRef)),
     Row(RStr(Else(line.line, "1")),
         FieldMap("LINE_NO", "order_line_id", ParseStr, true, None), OptText(line.line))]
  }

  lemma OperationHeadMatches1(op: Operation, line: OrderLine)
    ensures |OperationHead(op, line)| == 13 && |OperationHeadRows1(op, line)| == 3
    ensures forall i :: 0 <= i < 3 ==> Matches(OperationHead(op, line)[i], OperationHeadRows1(op, line)[i])
  {
  }

  function OperationHeadRows2(op: Operation, line: OrderLine): seq<Row> {
    [Row(RInt(op.sequence), FieldMap("OP_SEQ", "sequence", ParseInteger, true, None), Some(VInt(op.sequence))),
     Row(RStr(E.PROCESS_TYPE_CODES[op.kind].0),
         FieldMap("OP_TYPE", "operation_type", ParseProcess, false, Some(VMember("other"))),
         Some(VMember(E.PROCESS_TYPE_CODES[op.kind].1))),
     Row(RStr(op.group.GetOr("")), FieldMap("WC_GROUP", "machine_group", ParseStr, false, None), OptText(op.group))]
  }

  lemma OperationHeadMatches2(op: Operation, line: OrderLine)
    ensures |OperationHead(op, line)| == 13 && |OperationHeadRows2(op, line)| == 3
    ensures forall i :: 0 <= i < 3 ==> Matches(OperationHead(op, line)[3 + i], OperationHeadRows2(op, line)[i])
  {
  }

  function OperationHeadRows3(op: Operation, line: OrderLine): seq<Row> {
    [Row(RStr(op.machine.GetOr("")),
         FieldMap("MACHINE_NO", "machine_id", ParseStr, false, None), OptText(op.machine)),
     Row(RStr(E.PrintStrSet(op.eligible)),
         FieldMap("ELIG_MACHINES", "eligible_machine_ids", ParseTexts, false, Some(VTexts({}))),
         Some(VTexts(set t | t in op.eligible))),
     Row(RStr(Num(op.setup)), FieldMap("SETUP_MIN", "setup_minutes", ParseFloat, false, None), OptFloat(op.setup))]
  }

  lemma OperationHeadMatches3(op: Operation, line: OrderLine)
    ensures |OperationHead(op, line)| == 13 && |OperationHeadRows3(op, line)| == 3
    ensures forall i :: 0 <= i < 3 ==> Matches(OperationHead(op, line)[6 + i], OperationHeadRows3(op, line)[i])
  {
  }

  function OperationHeadRows4(op: Operation, line: OrderLine): seq<Row> {
    [Row(RStr(Num(op.cycle)),
         FieldMap("CYCLE_MIN", "cycle_minutes_per_unit", ParseFloat, false, None), OptFloat(op.cycle)),
     Row(RStr(E.PrintCycles(op.cycles)),
         FieldMap("MACHINE_CYCLE", "machine_cycle_minutes", ParseNumbers, false, Some(VNumbers(map[]))),
         Some(VNumbers(E.AsMap(op.cycles)))),
     Row(RFloat(op.quantity),
         FieldMap("QTY", "quantity", ParseFloat, false, Some(VFloat(Floats.ZERO))), Some(VFloat(op.quantity)))]
  }

  lemma OperationHeadMatches4(op: Operation, line: OrderLine)
    ensures |OperationHead(op, line)| == 13 && |OperationHeadRows4(op, line)| == 3
    ensures forall i :: 0 <= i < 3 ==> Matches(OperationHead(op, line)[9 + i], OperationHeadRows4(op, line)[i])
  {
  }

  function OperationHeadRows5(op: Operation, line: OrderLine): seq<Row> {
    [Row(RFloat(op.completed),
         FieldMap("QTY_DONE", "completed_quantity", ParseFloat, false, Some(VFloat(Floats.ZERO))),
         Some(VFloat(op.completed)))]
  }

  lemma OperationHeadMatches5(op: Operation, line: OrderLine)
    ensures |OperationHead(op, line)| == 13 && |OperationHeadRows5(op, line)| == 1
    ensures forall i :: 0 <= i < 1 ==> Matches(OperationHead(op, line)[12 + i], OperationHeadRows5(op, line)[i])
  {
  }

  function OperationHeadRows(op: Operation, line: OrderLine): seq<Row> {
    OperationHeadRows1(op, line) + OperationHeadRows2(op, line) + OperationHeadRows3(op, line)
    + OperationHeadRows4(op, line) + OperationHeadRows5(op, line)
  }

  lemma OperationHeadMatched(op: Operation, line: OrderLine)
    ensures Matched(OperationHead(op, line), OperationHeadRows(op, line))
  {
    var cols := OperationHead(op, line);
    OperationHeadMatches1(op, line);
    Piece(cols, 0, OperationHeadRows1(op, line));
    OperationHeadMatches2(op, line);
    Piece(cols, 3, OperationHeadRows2(op, line));
    OperationHeadMatches3(op, line);
    Piece(cols, 6, OperationHeadRows3(op, line));
    OperationHeadMatches4(op, line);
    Piece(cols, 9, OperationHeadRows4(op, line));
    OperationHeadMatches5(op, line);
    Piece(cols, 12, OperationHeadRows5(op, line));
    JoinMatched(cols[0..3], OperationHeadRows1(op, line), cols[3..6], OperationHeadRows2(op, line));
    assert cols[0..3] + cols[3..6] == cols[0..6];
    JoinMatched(cols[0..6], OperationHeadRows1(op, line) + OperationHeadRows2(op, line),
                cols[6..9], OperationHeadRows3(op, line));
    assert cols[0..6] + cols[6..9] == cols[0..9];
    JoinMatched(cols[0..9], OperationHeadRows1(op, line) + OperationHeadRows2(op, line) + OperationHeadRows3(op, line),
                cols[9..12], OperationHeadRows4(op, line));
    assert cols[0..9] + cols[9..12] == cols[0..12];
    JoinMatched(cols[0..12], OperationHeadRows1(op, line) + OperationHeadRows2(op, line)
                             + OperationHeadRows3(op, line) + OperationHeadRows4(op, line),
                cols[12..13], OperationHeadRows5(op, line));
    assert cols[0..12] + cols[12..13] == cols[0..13];
    assert cols[0..13] == cols;
  }

  function OperationTailRows1(op: Operation): seq<Row> {
    [Row(RStr(E.OPERATION_STATUS_CODES[op.status].0),
         FieldMap("OP_STATUS", "operation_status", ParseOperationStatus, false, Some(VMember("pending"))),
         Some(VMember(E.OPERATION_STATUS_CODES[op.status].1))),
     Row(RStr(op.prerequisite.GetOr("")),
         FieldMap("PREREQ_OP", "prerequisite_operation_id", ParseStr, false, None), OptText(op.prerequisite)),
     Row(RStr(op.material.GetOr("")),
         FieldMap("MATERIAL_NO", "material_id", ParseStr, false, None), OptText(op.material))]
  }

  lemma OperationTailMatches1(op: Operation)
    ensures |OperationTail(op)| == 12 && |OperationTailRows1(op)| == 3
    ensures forall i :: 0 <= i < 3 ==> Matches(OperationTail(op)[i], OperationTailRows1(op)[i])
  {
  }

  function OperationTailRows2(op: Operation): seq<Row> {
    [Row(RStr(Num(op.materialPerUnit)),
         FieldMap("MAT_QTY_PER", "material_quantity_per_unit", ParseFloat, false, None),
         OptFloat(op.materialPerUnit)),
     Row(RStr(E.PrintStrSet(op.tools)),
         FieldMap("TOOL_LIST", "tooling_ids", ParseTexts, false, Some(VTexts({}))),
         Some(VTexts(set t | t in op.tools))),
     Row(RStr(op.operator.GetOr("")),
         FieldMap("OPERATOR_REQ", "operator_requirement", ParseStr, false, None), OptText(op.operator))]
  }

  lemma OperationTailMatches2(op: Operation)
    ensures |OperationTail(op)| == 12 && |OperationTailRows2(op)| == 3
    ensures forall i :: 0 <= i < 3 ==> Matches(OperationTail(op)[3 + i], OperationTailRows2(op)[i])
  {
  }

  function OperationTailRows3(op: Operation): seq<Row> {
    [Row(RStr(op.quality.GetOr("")),
         FieldMap("QC_REQ", "quality_requirement", ParseStr, false, None), OptText(op.quality)),
     Row(RStr(op.family.GetOr("")),
         FieldMap("SETUP_FAMILY", "setup_family", ParseStr, false, None), OptText(op.family)),
     Row(RStr(Iso(op.estimatedStart)),
         FieldMap("EST_START", "estimated_start", ParseStamp, false, None), OptStamp(op.estimatedStart))]
  }

  lemma OperationTailMatches3(op: Operation)
    ensures |OperationTail(op)| == 12 && |OperationTailRows3(op)| == 3
    ensures forall i :: 0 <= i < 3 ==> Matches(OperationTail(op)[6 + i], OperationTailRows3(op)[i])
  {
  }

  function OperationTailRows4(op: Operation): seq<Row> {
    [Row(RStr(Iso(op.estimatedEnd)),
         FieldMap("EST_END", "estimated_end", ParseStamp, false, None), OptStamp(op.estimatedEnd)),
     Row(RStr(Iso(op.actualStart)),
         FieldMap("ACT_START", "actual_start", ParseStamp, false, None), OptStamp(op.actualStart)),
     Row(RStr(Iso(op.actualEnd)),
         FieldMap("ACT_END", "actual_end", ParseStamp, false, None), OptStamp(op.actualEnd))]
  }

  lemma OperationTailMatches4(op: Operation)
    ensures |OperationTail(op)| == 12 && |OperationTailRows4(op)| == 3
    ensures forall i :: 0 <= i < 3 ==> Matches(OperationTail(op)[9 + i], OperationTailRows4(op)[i])
  {
  }

  function OperationTailRows(op: Operation): seq<Row> {
    OperationTailRows1(op) + OperationTailRows2(op) + OperationTailRows3(op) + OperationTailRows4(op)
  }

  lemma OperationTailMatched(op: Operation)
    ensures Matched(OperationTail(op), OperationTailRows(op))
  {
    var cols := OperationTail(op);
    OperationTailMatches1(op);
    Piece(cols, 0, OperationTailRows1(op));
    OperationTailMatches2(op);
    Piece(cols, 3, OperationTailRows2(op));
    OperationTailMatches3(op);
    Piece(cols, 6, OperationTailRows3(op));
    OperationTailMatches4(op);
    Piece(cols, 9, OperationTailRows4(op));
    JoinMatched(cols[0..3], OperationTailRows1(op), cols[3..6], OperationTailRows2(op));
    assert cols[0..3] + cols[3..6] == cols[0..6];
    JoinMatched(cols[0..6], OperationTailRows1(op) + OperationTailRows2(op), cols[6..9], OperationTailRows3(op));
    assert cols[0..6] + cols[6..9] == cols[0..9];
    JoinMatched(cols[0..9], OperationTailRows1(op) + OperationTailRows2(op) + OperationTailRows3(op),
                cols[9..12], OperationTailRows4(op));
    assert cols[0..9] + cols[9..12] == cols[0..12];
    assert cols[0..12] == cols;
  }

  function OperationRows(op: Operation, line: OrderLine): seq<Row> {
    OperationHeadRows(op, line) + OperationTailRows(op)
  }

  lemma OperationMatched(op: Operation, line: OrderLine)
    ensures Matched(OperationColumns(op, line), OperationRows(op, line))
  {
    OperationHeadMatched(op, line);
    OperationTailMatched(op);
    JoinMatched(OperationHead(op, line), OperationHeadRows(op, line), OperationTail(op), OperationTailRows(op));
  }

  // ------------------------------------------------------------------ machines

  function MachineHeadRows1(m: Machine): seq<Row> {
    [Row(RStr(m.id), FieldMap("MACHINE_NO", "machine_id", ParseStr, true, None), Some(VText(m.id))),
     Row(RStr(m.name), FieldMap("MACHINE_NAME", "machine_name", ParseStr, true, None), Some(VText(m.name))),
     Row(RStr(m.kind),
         FieldMap("MACHINE_TYPE", "machine_type", ParseStr, false, Some(VText("unknown"))), Some(VText(m.kind)))]
  }

  lemma MachineHeadMatches1(m: Machine)
    ensures |MachineHead(m)| == 11 && |MachineHeadRows1(m)| == 3
    ensures forall i :: 0 <= i < 3 ==> Matches(MachineHead(m)[i], MachineHeadRows1(m)[i])
  {
  }

  function MachineHeadRows2(m: Machine): seq<Row> {
    [Row(RStr(E.PROCESS_TYPE_CODES[m.process].0),
         FieldMap("PROC_TYPE", "process_type", ParseProcess, false, Some(VMember("other"))),
         Some(VMember(E.PROCESS_TYPE_CODES[m.process].1))),
     Row(RStr(m.group), FieldMap("WC_GROUP", "machine_group", ParseStr, true, None), Some(VText(m.group))),
     Row(RStr(m.location.GetOr("")), FieldMap("LOCATION", "location", ParseStr, false, None), OptText(m.location))]
  }

  lemma MachineHeadMatches2(m: Machine)
    ensures |MachineHead(m)| == 11 && |MachineHeadRows2(m)| == 3
    ensures forall i :: 0 <= i < 3 ==> Matches(MachineHead(m)[3 + i], MachineHeadRows2(m)[i])
  {
  }

  function MachineHeadRows3(m: Machine): seq<Row> {
    [Row(RStr(E.MACHINE_STATUS_CODES[m.status].0),
         FieldMap("STATUS", "status", ParseMachineStatus, false, Some(VMember("available"))),
         Some(VMember(E.MACHINE_STATUS_CODES[m.status].1))),
     Row(RStr(m.calendar.GetOr("")),
         FieldMap("CALENDAR_CODE", "calendar_id", ParseStr, false, None), OptText(m.calendar)),
     Row(RStr(E.PrintPercent(m.efficiency)),
         FieldMap("EFFICIENCY_PCT", "efficiency", ParsePercent, false, Some(VFloat(Floats.ONE))),
         Some(VFloat(m.efficiency)))]
  }

  lemma MachineHeadMatches3(m: Machine)
    ensures |MachineHead(m)| == 11 && |MachineHeadRows3(m)| == 3
    ensures forall i :: 0 <= i < 3 ==> Matches(MachineHead(m)[6 + i], MachineHeadRows3(m)[i])
  {
  }

  function MachineHeadRows4(m: Machine): seq<Row> {
    [Row(RStr(Pct(m.utilization)),
         FieldMap("UTIL_PCT", "utilization", ParsePercentRatio, false, None), OptFloat(m.utilization)),
     Row(RStr(Num(m.capacity)),
         FieldMap("CAP_HRS_DAY", "capacity_hours_per_day", ParseFloat, false, None), OptFloat(m.capacity))]
  }

  lemma MachineHeadMatches4(m: Machine)
    ensures |MachineHead(m)| == 11 && |MachineHeadRows4(m)| == 2
    ensures forall i :: 0 <= i < 2 ==> Matches(MachineHead(m)[9 + i], MachineHeadRows4(m)[i])
  {
  }

  function MachineHeadRows(m: Machine): seq<Row> {
    MachineHeadRows1(m) + MachineHeadRows2(m) + MachineHeadRows3(m) + MachineHeadRows4(m)
  }

  lemma MachineHeadMatched(m: Machine)
    ensures Matched(MachineHead(m), MachineHeadRows(m))
  {
    var cols := MachineHead(m);
    MachineHeadMatches1(m);
    Piece(cols, 0, MachineHeadRows1(m));
    MachineHeadMatches2(m);
    Piece(cols, 3, MachineHeadRows2(m));
    MachineHeadMatches3(m);
    Piece(cols, 6, MachineHeadRows3(m));
    MachineHeadMatches4(m);
    Piece(cols, 9, MachineHeadRows4(m));
    JoinMatched(cols[0..3], MachineHeadRows1(m), cols[3..6], MachineHeadRows2(m));
    assert cols[0..3] + cols[3..6] == cols[0..6];
    JoinMatched(cols[0..6], MachineHeadRows1(m) + MachineHeadRows2(m), cols[6..9], MachineHeadRows3(m));
    assert cols[0..6] + cols[6..9] == cols[0..9];
    JoinMatched(cols[0..9], MachineHeadRows1(m) + MachineHeadRows2(m) + MachineHeadRows3(m),
                cols[9..11], MachineHeadRows4(m));
    assert cols[0..9] + cols[9..11] == cols[0..11];
    assert cols[0..11] == cols;
  }

  function MachineTailRows1(m: Machine): seq<Row> {
    [Row(RList(PrintWindows(m.maintenance)),
         FieldMap("MAINT_WINDOWS", "maintenance_windows", ParseWindows, false, Some(VWindows([]))),
         Some(VWindows(m.maintenance))),
     Row(RList(PrintWindows(m.planned)),
         FieldMap("PLANNED_DOWN", "planned_downtime", ParseWindows, false, Some(VWindows([]))),
         Some(VWindows(m.planned)))]
  }

  lemma MachineTailMatches1(m: Machine)
    ensures |MachineTail(m)| == 11 && |MachineTailRows1(m)| == 2
    ensures forall i :: 0 <= i < 2 ==> Matches(MachineTail(m)[i], MachineTailRows1(m)[i])
  {
  }

  function MachineTailRows2(m: Machine): seq<Row> {
    [Row(RList(PrintWindows(m.unplanned)),
         FieldMap("UNPLANNED_DOWN", "unplanned_downtime", ParseWindows, false, Some(VWindows([]))),
         Some(VWindows(m.unplanned))),
     Row(RStr(E.PrintStrSet(m.materials)),
         FieldMap("COMPAT_MATERIALS", "compatible_materials", ParseTexts, false, Some(VTexts({}))),
         Some(VTexts(set t | t in m.materials)))]
  }

  lemma MachineTailMatches2(m: Machine)
    ensures |MachineTail(m)| == 11 && |MachineTailRows2(m)| == 2
    ensures forall i :: 0 <= i < 2 ==> Matches(MachineTail(m)[2 + i], MachineTailRows2(m)[i])
  {
  }

  function MachineTailRows3(m: Machine): seq<Row> {
    [Row(RStr(E.PrintStrSet(Codes(m.processes))),
         FieldMap("COMPAT_PROCS", "compatible_processes", ParseProcessSet, false, Some(VMembers({}))),
         Some(VMembers(set v | v in Values(m.processes)))),
     Row(RStr(SizeText(m.maxPart)),
         FieldMap("MAX_PART_MM", "max_part_size_mm", ParseSizeMm, false, None), OptSize(m.maxPart))]
  }

  lemma MachineTailMatches3(m: Machine)
    ensures |MachineTail(m)| == 11 && |MachineTailRows3(m)| == 2
    ensures forall i :: 0 <= i < 2 ==> Matches(MachineTail(m)[4 + i], MachineTailRows3(m)[i])
  {
  }

  function MachineTailRows4(m: Machine): seq<Row> {
    [Row(RStr(E.PrintStrSet(m.tools)),
         FieldMap("TOOLS_MOUNTED", "tooling_configuration", ParseTexts, false, Some(VTexts({}))),
         Some(VTexts(set t | t in m.tools))),
     Row(RStr(m.material.GetOr("")),
         FieldMap("CUR_MATERIAL", "current_material_id", ParseStr, false, None), OptText(m.material))]
  }

  lemma MachineTailMatches4(m: Machine)
    ensures |MachineTail(m)| == 11 && |MachineTailRows4(m)| == 2
    ensures forall i :: 0 <= i < 2 ==> Matches(MachineTail(m)[6 + i], MachineTailRows4(m)[i])
  {
  }

  function MachineTailRows5(m: Machine): seq<Row> {
    [Row(RStr(m.family.GetOr("")),
         FieldMap("CUR_SETUP_FAM", "current_setup_family", ParseStr, false, None), OptText(m.family)),
     Row(RStr(Iso(m.availableFrom)),
         FieldMap("AVAIL_FROM", "available_from", ParseStamp, false, None), OptStamp(m.availableFrom))]
  }

  lemma MachineTailMatches5(m: Machine)
    ensures |MachineTail(m)| == 11 && |MachineTailRows5(m)| == 2
    ensures forall i :: 0 <= i < 2 ==> Matches(MachineTail(m)[8 + i], MachineTailRows5(m)[i])
  {
  }

  function MachineTailRows6(m: Machine): seq<Row> {
    [Row(RInt(m.rank),
         FieldMap("PREF_RANK", "preferred_rank", ParseInteger, false, Some(VInt(0))), Some(VInt(m.rank)))]
  }

  lemma MachineTailMatches6(m: Machine)
    ensures |MachineTail(m)| == 11 && |MachineTailRows6(m)| == 1
    ensures forall i :: 0 <= i < 1 ==> Matches(MachineTail(m)[10 + i], MachineTailRows6(m)[i])
  {
  }

  function MachineTailRows(m: Machine): seq<Row> {
    (MachineTailRows1(m) + MachineTailRows2(m) + MachineTailRows3(m))
    + (MachineTailRows4(m) + MachineTailRows5(m) + MachineTailRows6(m))
  }

  lemma FirstMachineTailMatched(m: Machine)
    ensures |MachineTail(m)| == 11
    ensures Matched(MachineTail(m)[0..6], MachineTailRows1(m) + MachineTailRows2(m) + MachineTailRows3(m))
  {
    var cols := MachineTail(m);
    MachineTailMatches1(m);
    Piece(cols, 0, MachineTailRows1(m));
    MachineTailMatches2(m);
    Piece(cols, 2, MachineTailRows2(m));
    MachineTailMatches3(m);
    Piece(cols, 4, MachineTailRows3(m));
    JoinMatched(cols[0..2], MachineTailRows1(m), cols[2..4], MachineTailRows2(m));
    assert cols[0..2] + cols[2..4] == cols[0..4];
    JoinMatched(cols[0..4], MachineTailRows1(m) + MachineTailRows2(m), cols[4..6], MachineTailRows3(m));
    assert cols[0..4] + cols[4..6] == cols[0..6];
  }

  lemma LastMachineTailMatched(m: Machine)
    ensures |MachineTail(m)| == 11
    ensures Matched(MachineTail(m)[6..11], MachineTailRows4(m) + MachineTailRows5(m) + MachineTailRows6(m))
  {
    var cols := MachineTail(m);
    MachineTailMatches4(m);
    Piece(cols, 6, MachineTailRows4(m));
    MachineTailMatches5(m);
    Piece(cols, 8, MachineTailRows5(m));
    MachineTailMatches6(m);
    Piece(cols, 10, MachineTailRows6(m));
    JoinMatched(cols[6..8], MachineTailRows4(m), cols[8..10], MachineTailRows5(m));
    assert cols[6..8] + cols[8..10] == cols[6..10];
    JoinMatched(cols[6..10], MachineTailRows4(m) + MachineTailRows5(m), cols[10..11], MachineTailRows6(m));
    assert cols[6..10] + cols[10..11] == cols[6..11];
  }

  lemma MachineTailMatched(m: Machine)
    ensures Matched(MachineTail(m), MachineTailRows(m))
  {
    var cols := MachineTail(m);
    var first, last := MachineTailRows1(m) + MachineTailRows2(m) + MachineTailRows3(m),
                       MachineTailRows4(m) + MachineTailRows5(m) + MachineTailRows6(m);
    FirstMachineTailMatched(m);
    LastMachineTailMatched(m);
    JoinMatched(cols[0..6], first, cols[6..11], last);
    assert cols[0..6] + cols[6..11] == cols;
  }

  function MachineRows(m: Machine): seq<Row> {
    MachineHeadRows(m) + MachineTailRows(m)
  }

  lemma MachineMatched(m: Machine)
    ensures Matched(MachineColumns(m), MachineRows(m))
  {
    MachineHeadMatched(m);
    MachineTailMatched(m);
    JoinMatched(MachineHead(m), MachineHeadRows(m), MachineTail(m), MachineTailRows(m));
  }

  // ------------------------------------------------------------------ calendars

  function CalendarRows1(c: Calendar): seq<Row> {
    [Row(RStr(c.id), FieldMap("CALENDAR_CODE", "calendar_id", ParseStr, true, None), Some(VText(c.id))),
     Row(RStr(c.name), FieldMap("CALENDAR_NAME", "name", ParseStr, true, None), Some(VText(c.name)))]
  }

  lemma CalendarMatches1(c: Calendar)
    ensures |CalendarColumns(c)| == 7 && |CalendarRows1(c)| == 2
    ensures forall i :: 0 <= i < 2 ==> Matches(CalendarColumns(c)[i], CalendarRows1(c)[i])
  {
  }

  function CalendarRows2(c: Calendar): seq<Row> {
    [Row(RStr(c.timezone),
         FieldMap("TZ", "timezone", ParseStr, false, Some(VText("UTC"))), Some(VText(c.timezone))),
     Row(RList(PrintShifts(c.shifts)),
         FieldMap("SHIFTS", "shifts", ParseShifts, false, Some(VShifts([]))), Some(VShifts(c.shifts)))]
  }

  lemma CalendarMatches2(c: Calendar)
    ensures |CalendarColumns(c)| == 7 && |CalendarRows2(c)| == 2
    ensures forall i :: 0 <= i < 2 ==> Matches(CalendarColumns(c)[2 + i], CalendarRows2(c)[i])
  {
  }

  function CalendarRows3(c: Calendar): seq<Row> {
    [Row(RList(PrintDates(c.holidays)),
         FieldMap("HOLIDAYS", "holidays", ParseDates, false, Some(VDates([]))), Some(VDates(c.holidays))),
     Row(RList(PrintWindows(c.overtime)),
         FieldMap("OVERTIME", "overtime_windows", ParseWindows, false, Some(VWindows([]))),
         Some(VWindows(c.overtime)))]
  }

  lemma CalendarMatches3(c: Calendar)
    ensures |CalendarColumns(c)| == 7 && |CalendarRows3(c)| == 2
    ensures forall i :: 0 <= i < 2 ==> Matches(CalendarColumns(c)[4 + i], CalendarRows3(c)[i])
  {
  }

  function CalendarRows4(c: Calendar): seq<Row> {
    [Row(RList(PrintDates(c.extraDays)),
         FieldMap("EXTRA_DAYS", "extra_working_days", ParseDates, false, Some(VDates([]))),
         Some(VDates(c.extraDays)))]
  }

  lemma CalendarMatches4(c: Calendar)
    ensures |CalendarColumns(c)| == 7 && |CalendarRows4(c)| == 1
    ensures forall i :: 0 <= i < 1 ==> Matches(CalendarColumns(c)[6 + i], CalendarRows4(c)[i])
  {
  }

  function CalendarRows(c: Calendar): seq<Row> {
    CalendarRows1(c) + CalendarRows2(c) + CalendarRows3(c) + CalendarRows4(c)
  }

  lemma CalendarMatched(c: Calendar)
    ensures Matched(CalendarColumns(c), CalendarRows(c))
  {
    var cols := CalendarColumns(c);
    CalendarMatches1(c);
    Piece(cols, 0, CalendarRows1(c));
    CalendarMatches2(c);
    Piece(cols, 2, CalendarRows2(c));
    CalendarMatches3(c);
    Piece(cols, 4, CalendarRows3(c));
    CalendarMatches4(c);
    Piece(cols, 6, CalendarRows4(c));
    JoinMatched(cols[0..2], CalendarRows1(c), cols[2..4], CalendarRows2(c));
    assert cols[0..2] + cols[2..4] == cols[0..4];
    JoinMatched(cols[0..4], CalendarRows1(c) + CalendarRows2(c), cols[4..6], CalendarRows3(c));
    assert cols[0..4] + cols[4..6] == cols[0..6];
    JoinMatched(cols[0..6], CalendarRows1(c) + CalendarRows2(c) + CalendarRows3(c), cols[6..7], CalendarRows4(c));
    assert cols[0..6] + cols[6..7] == cols[0..7];
    assert cols[0..7] == cols;
  }

  // ---------------------------------------------------------------- whole exports

  lemma SamePlaces<T, I>(xs: seq<T>, items: seq<I>, p: (T, I) -> bool, q: (T, I) -> bool)
    requires forall i :: 0 <= i < |xs| && |items| == |xs| ==> (p(xs[i], items[i]) <==> q(xs[i], items[i]))
    ensures Corresponds(xs, items, p) <==> Corresponds(xs, items, q)
  {
  }

  lemma SameRecords<T>(xs: seq<T>, f: T -> Record, g: T -> Record)
    requires forall i :: 0 <= i < |xs| ==> f(xs[i]) == g(xs[i])
    ensures Each(xs, f) == Each(xs, g)
  {
  }

  function PrintedOrder(x: OrderRow): Record {
    Record("order", x.row, Some(AsRecord(OrderRows(x.order))))
  }

  /** The item has the order's id and every attribute of the order, each under its own name. */
  predicate ShowsOrder(x: OrderRow, item: OrderItem) {
    item.orderId == x.order.id && item.duplicateOf.None? && Shows(item.fields, OrderRows(x.order))
  }

  lemma PrintedOrderIsRecord(x: OrderRow)
    ensures PrintedOrder(x) == RecordOfOrder(x)
  {
    OrderMatched(x.order);
    RecordMatches(OrderColumns(x.order), OrderRows(x.order));
  }

  lemma ShowsOrderExactly(x: OrderRow, item: OrderItem)
    ensures ShowsOrder(x, item) <==> IsOrderOf(x, item)
  {
    OrderMatched(x.order);
    ShowsMatches(item.fields, OrderColumns(x.order), OrderRows(x.order));
  }

  lemma PrintedOrdersAreRecords(orders: seq<OrderRow>)
    ensures Each(orders, PrintedOrder) == Each(orders, RecordOfOrder)
  {
    forall i | 0 <= i < |orders| ensures PrintedOrder(orders[i]) == RecordOfOrder(orders[i]) {
      PrintedOrderIsRecord(orders[i]);
    }
    SameRecords(orders, PrintedOrder, RecordOfOrder);
  }

  lemma ShowsOrders(orders: seq<OrderRow>, items: seq<OrderItem>)
    ensures Corresponds(orders, items, ShowsOrder) <==> Corresponds(orders, items, IsOrderOf)
  {
    forall i | 0 <= i < |orders| && |items| == |orders|
      ensures ShowsOrder(orders[i], items[i]) <==> IsOrderOf(orders[i], items[i])
    {
      ShowsOrderExactly(orders[i], items[i]);
    }
    SamePlaces(orders, items, ShowsOrder, IsOrderOf);
  }

  /**
   * The printer's rows of orders, read with the normaliser's table, give back every attribute of every order
   * without an issue exactly when every order is carried and no two have one id.
   */
  lemma PrintedOrdersSurviveExactly(maps: seq<FieldMap>, orders: seq<OrderRow>)
    requires OrderFields(maps)
    ensures var r := OrdersOf(maps, OrderClass(maps), Each(orders, PrintedOrder));
      r.1 == [] && Corresponds(orders, r.0, ShowsOrder) <==> AllOk(orders, OrderRowCarried, OrderKey)
  {
    PrintedOrdersAreRecords(orders);
    var items := OrdersOf(maps, OrderClass(maps), Each(orders, RecordOfOrder)).0;
    ShowsOrders(orders, items);
    OrdersSurviveExactly(maps, orders);
  }

  /** The one table of `OrderFields`, row by row. */
  lemma OrderTableRows(maps: seq<FieldMap>, o: Order)
    requires OrderFields(maps)
    ensures maps == Table(OrderRows(o))
  {
    OrderMatched(o);
    TableMatches(OrderColumns(o), OrderRows(o));
    assert Fields(OrderColumns(o)) == maps;
  }

  function PrintedOperation(x: OperationRow): Record {
    Record("operation", x.row, Some(AsRecord(OperationRows(x.op, x.line))))
  }

  /** The item is filed under the operation's order and has its attributes; the order's keys are not among them. */
  predicate ShowsOperation(x: OperationRow, item: OperationItem) {
    && item.id == VText(x.op.id) && item.orderId == x.line.orderId
    && forall i :: 0 <= i < |OperationRows(x.op, x.line)| ==>
         var r := OperationRows(x.op, x.line)[i];
         var name := r.field.target;
         name == "external_order_ref" || name == "order_line_id" || Get(item.fields, name) == r.attribute
  }

  lemma PrintedOperationIsRecord(x: OperationRow)
    ensures PrintedOperation(x) == RecordOfOperation(x)
  {
    OperationMatched(x.op, x.line);
    RecordMatches(OperationColumns(x.op, x.line), OperationRows(x.op, x.line));
  }

  lemma ShowsOperationExactly(x: OperationRow, item: OperationItem)
    ensures ShowsOperation(x, item) <==> IsOperationOf(x, item)
  {
    ShowsOwn(x, item);
  }

  lemma PrintedOperationsAreRecords(ops: seq<OperationRow>)
    ensures Each(ops, PrintedOperation) == Each(ops, RecordOfOperation)
  {
    forall i | 0 <= i < |ops| ensures PrintedOperation(ops[i]) == RecordOfOperation(ops[i]) {
      PrintedOperationIsRecord(ops[i]);
    }
    SameRecords(ops, PrintedOperation, RecordOfOperation);
  }

  lemma ShowsOperations(ops: seq<OperationRow>, items: seq<OperationItem>)
    ensures Corresponds(ops, items, ShowsOperation) <==> Corresponds(ops, items, IsOperationOf)
  {
    forall i | 0 <= i < |ops| && |items| == |ops|
      ensures ShowsOperation(ops[i], items[i]) <==> IsOperationOf(ops[i], items[i])
    {
      ShowsOperationExactly(ops[i], items[i]);
    }
    SamePlaces(ops, items, ShowsOperation, IsOperationOf);
  }

  lemma PrintedOperationsSurviveExactly(maps: seq<FieldMap>, ops: seq<OperationRow>)
    requires OperationFields(maps)
    ensures var r := OperationsOf(maps, OperationClass(maps), Each(ops, PrintedOperation));
      r.1 == [] && Corresponds(ops, r.0, ShowsOperation) <==> AllOk(ops, OperationRowCarried, OperationKey)
  {
    PrintedOperationsAreRecords(ops);
    var items := OperationsOf(maps, OperationClass(maps), Each(ops, RecordOfOperation)).0;
    ShowsOperations(ops, items);
    OperationsSurviveExactly(maps, ops);
  }

  /** The one table of `OperationFields`, row by row. */
  lemma OperationTableRows(maps: seq<FieldMap>, op: Operation, line: OrderLine)
    requires OperationFields(maps)
    ensures maps == Table(OperationRows(op, line))
  {
    OperationMatched(op, line);
    TableMatches(OperationColumns(op, line), OperationRows(op, line));
    assert Fields(OperationColumns(op, line)) == maps;
  }

  lemma ShowsOwn(x: OperationRow, item: OperationItem)
    ensures ShowsOperation(x, item) <==> IsOperationOf(x, item)
  {
    OperationMatched(x.op, x.line);
    OwnColumns(x.op, x.line);
    ShowsOwnFields(item.fields, OperationColumns(x.op, x.line), OperationRows(x.op, x.line));
  }

  ghost predicate KeysByName(cols: seq<Column>) {
    forall i :: 0 <= i < |cols| ==>
      (OwnColumn(cols[i]) <==> cols[i].target != "external_order_ref" && cols[i].target != "order_line_id")
  }

  lemma ShowsOwnFields(fields: map<string, Value>, cols: seq<Column>, rows: seq<Row>)
    requires Matched(cols, rows) && KeysByName(cols)
    ensures HoldsOwn(fields, cols) <==>
              forall i :: 0 <= i < |rows| ==>
                var name := rows[i].field.target;
                name == "external_order_ref" || name == "order_line_id" || Get(fields, name) == rows[i].attribute
  {
    forall i | 0 <= i < |rows| ensures rows[i].field.target == cols[i].target {
      assert Matches(cols[i], rows[i]);
    }
  }

  lemma OwnColumns(op: Operation, line: OrderLine)
    ensures KeysByName(OperationColumns(op, line))
  {
    forall i | 0 <= i < |OperationColumns(op, line)|
      ensures var c := OperationColumns(op, line)[i];
        OwnColumn(c) <==> c.target != "external_order_ref" && c.target != "order_line_id"
    {
      OwnByName(op, line, i);
    }
  }

  lemma OwnByName(op: Operation, line: OrderLine, i: nat)
    requires i < |OperationColumns(op, line)|
    ensures var c := OperationColumns(op, line)[i];
      OwnColumn(c) <==> c.target != "external_order_ref" && c.target != "order_line_id"
  {
    OperationKeys(op, line);
    if OwnColumn(OperationColumns(op, line)[i]) {
      OwnTarget(op, line, i);
    } else {
      OnlyTwoKeys(op, line, i);
    }
  }

  function PrintedMachine(x: MachineRow): Record {
    Record("machine", x.row, Some(AsRecord(MachineRows(x.machine))))
  }

  predicate ShowsMachine(x: MachineRow, item: MasterItem) {
    item.id == VText(x.machine.id) && Shows(item.fields, MachineRows(x.machine))
  }

  lemma PrintedMachineIsRecord(x: MachineRow)
    ensures PrintedMachine(x) == RecordOfMachine(x)
  {
    MachineMatched(x.machine);
    RecordMatches(MachineColumns(x.machine), MachineRows(x.machine));
  }

  lemma ShowsMachineExactly(x: MachineRow, item: MasterItem)
    ensures ShowsMachine(x, item) <==> IsMachineOf(x, item)
  {
    MachineMatched(x.machine);
    ShowsMatches(item.fields, MachineColumns(x.machine), MachineRows(x.machine));
  }

  lemma PrintedMachinesAreRecords(ms: seq<MachineRow>)
    ensures Each(ms, PrintedMachine) == Each(ms, RecordOfMachine)
  {
    forall i | 0 <= i < |ms| ensures PrintedMachine(ms[i]) == RecordOfMachine(ms[i]) {
      PrintedMachineIsRecord(ms[i]);
    }
    SameRecords(ms, PrintedMachine, RecordOfMachine);
  }

  lemma ShowsMachines(ms: seq<MachineRow>, items: seq<MasterItem>)
    ensures Corresponds(ms, items, ShowsMachine) <==> Corresponds(ms, items, IsMachineOf)
  {
    forall i | 0 <= i < |ms| && |items| == |ms|
      ensures ShowsMachine(ms[i], items[i]) <==> IsMachineOf(ms[i], items[i])
    {
      ShowsMachineExactly(ms[i], items[i]);
    }
    SamePlaces(ms, items, ShowsMachine, IsMachineOf);
  }

  lemma PrintedMachinesSurviveExactly(maps: seq<FieldMap>, ms: seq<MachineRow>)
    requires MachineFields(maps)
    ensures var r := MastersOf("machine", maps, MachineClass(maps), "machine_id",
                               Each(ms, PrintedMachine));
      r.1 == [] && Corresponds(ms, r.0, ShowsMachine) <==> AllOk(ms, MachineCarried, MachineKey)
  {
    PrintedMachinesAreRecords(ms);
    var items := MastersOf("machine", maps, MachineClass(maps), "machine_id",
                           Each(ms, RecordOfMachine)).0;
    ShowsMachines(ms, items);
    MachinesSurviveExactly(maps, ms);
  }

  /** The one table of `MachineFields`, row by row. */
  lemma MachineTableRows(maps: seq<FieldMap>, m: Machine)
    requires MachineFields(maps)
    ensures maps == Table(MachineRows(m))
  {
    MachineMatched(m);
    TableMatches(MachineColumns(m), MachineRows(m));
    assert Fields(MachineColumns(m)) == maps;
  }

  function PrintedCalendar(x: CalendarRow): Record {
    Record("calendar", x.row, Some(AsRecord(CalendarRows(x.calendar))["IS_DEFAULT" := RStr(FlagText(x.isDefault))]))
  }

  predicate ShowsCalendar(x: CalendarRow, item: MasterItem) {
    item.id == VText(x.calendar.id) && Shows(item.fields, CalendarRows(x.calendar))
  }

  lemma PrintedCalendarIsRecord(x: CalendarRow)
    ensures PrintedCalendar(x) == RecordOfCalendar(x)
  {
    CalendarMatched(x.calendar);
    RecordMatches(CalendarColumns(x.calendar), CalendarRows(x.calendar));
  }

  lemma ShowsCalendarExactly(x: CalendarRow, item: MasterItem)
    ensures ShowsCalendar(x, item) <==> IsCalendarOf(x, item)
  {
    CalendarMatched(x.calendar);
    ShowsMatches(item.fields, CalendarColumns(x.calendar), CalendarRows(x.calendar));
  }

  lemma PrintedCalendarsAreRecords(cs: seq<CalendarRow>)
    ensures Each(cs, PrintedCalendar) == Each(cs, RecordOfCalendar)
  {
    forall i | 0 <= i < |cs| ensures PrintedCalendar(cs[i]) == RecordOfCalendar(cs[i]) {
      PrintedCalendarIsRecord(cs[i]);
    }
    SameRecords(cs, PrintedCalendar, RecordOfCalendar);
  }

  lemma ShowsCalendars(cs: seq<CalendarRow>, items: seq<MasterItem>)
    ensures Corresponds(cs, items, ShowsCalendar) <==> Corresponds(cs, items, IsCalendarOf)
  {
    forall i | 0 <= i < |cs| && |items| == |cs|
      ensures ShowsCalendar(cs[i], items[i]) <==> IsCalendarOf(cs[i], items[i])
    {
      ShowsCalendarExactly(cs[i], items[i]);
    }
    SamePlaces(cs, items, ShowsCalendar, IsCalendarOf);
  }

  lemma PrintedCalendarsSurviveExactly(maps: seq<FieldMap>, cs: seq<CalendarRow>)
    requires CalendarFields(maps)
    ensures var r := MastersOf("calendar", maps, CalendarClass(maps), "calendar_id",
                               Each(cs, PrintedCalendar));
      r.1 == [] && Corresponds(cs, r.0, ShowsCalendar) <==> AllOk(cs, CalendarCarried, CalendarKey)
  {
    PrintedCalendarsAreRecords(cs);
    var items := MastersOf("calendar", maps, CalendarClass(maps), "calendar_id",
                           Each(cs, RecordOfCalendar)).0;
    ShowsCalendars(cs, items);
    CalendarsSurviveExactly(maps, cs);
  }

  /** The one table of `CalendarFields`, row by row. */
  lemma CalendarTableRows(maps: seq<FieldMap>, c: Calendar)
    requires CalendarFields(maps)
    ensures maps == Table(CalendarRows(c))
  {
    CalendarMatched(c);
    TableMatches(CalendarColumns(c), CalendarRows(c));
    assert Fields(CalendarColumns(c)) == maps;
  }
}

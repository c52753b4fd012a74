/**
 * What normalising gives back of an export that the mock ERP printed, record by record and for whole
 * exports (backend/app/integration/mock_connector.py, normalizer.py).
 */
module ErpExports {
  import opened Prelude
  import Decimal
  import E = ErpFormats
  import opened ErpColumns
  import opened ErpRecords
  import opened Normalizer

  // ------------------------------------------------------------ one column of a record

  /** A column of a printed record: whether it has an issue, and what its field holds. */
  lemma ColumnOfRecord(p: Payload, cols: seq<Column>, i: nat)
    requires Prints(p, cols) && DistinctNames(cols) && i < |cols|
    ensures (FieldIssue(Cell(p, cols[i].source), FieldOf(cols[i])).None?
             && Get(MapFields(p, Fields(cols)), cols[i].target) == FormatOf(cols[i].kind).attribute)
            <==> Carried(cols[i].kind)
  {
    FieldOfColumn(p, cols, i);
    ColumnSurvivesExactly(cols[i]);
  }

  /** Only targets of the table have a value. */
  lemma FieldsAreKnown(p: Payload, maps: seq<FieldMap>, needed: set<string>, more: set<string>)
    ensures MapFields(p, maps).Keys <= ClassOf(needed, maps, more).optional
  {
    KeysAreTargets(p, maps);
  }

  // ------------------------------------------------------------- whole exports

  /** Records normalised one after the other: the items, the issues and the identifiers seen. */
  function Fold<T, I, K>(xs: seq<T>, outcome: (T, seq<K>) -> Outcome<I, K>): (seq<I>, seq<Issue>, seq<K>) {
    if xs == [] then ([], [], [])
    else
      var front := Fold(xs[..|xs| - 1], outcome);
      var o := outcome(xs[|xs| - 1], front.2);
      (front.0 + AsSeq(o.item), front.1 + o.issues, front.2 + AsSeq(o.id))
  }

  function Each<T, U>(xs: seq<T>, f: T -> U): (r: seq<U>)
    ensures |r| == |xs|
  {
    seq(|xs|, i requires 0 <= i < |xs| => f(xs[i]))
  }

  function OrderResults<T>(maps: seq<FieldMap>, cls: Class, record: T -> Record):
    (T, seq<string>) -> Outcome<OrderItem, string>
  {
    (x, ids) => OutcomeOf(maps, cls, record(x), ids)
  }

  function OperationResults<T>(maps: seq<FieldMap>, cls: Class, record: T -> Record):
    (T, seq<Value>) -> Outcome<OperationItem, Value>
  {
    (x, ids) => OperationOutcome(maps, cls, record(x), ids)
  }

  function MasterResults<T>(entity: string, maps: seq<FieldMap>, cls: Class, idField: string, record: T -> Record):
    (T, seq<Value>) -> Outcome<MasterItem, Value>
  {
    (x, ids) => MasterOutcome(entity, maps, cls, idField, record(x), ids)
  }

  lemma {:induction false} OrdersFold<T>(maps: seq<FieldMap>, cls: Class, xs: seq<T>, record: T -> Record)
    ensures OrdersOf(maps, cls, Each(xs, record)) == Fold(xs, OrderResults(maps, cls, record))
  {
    if xs != [] {
      var n := |xs| - 1;
      OrdersFold(maps, cls, xs[..n], record);
      assert Each(xs, record)[..n] == Each(xs[..n], record);
    }
  }

  lemma {:induction false} OperationsFold<T>(maps: seq<FieldMap>, cls: Class, xs: seq<T>, record: T -> Record)
    ensures OperationsOf(maps, cls, Each(xs, record))
         == Fold(xs, OperationResults(maps, cls, record))
  {
    if xs != [] {
      var n := |xs| - 1;
      OperationsFold(maps, cls, xs[..n], record);
      assert Each(xs, record)[..n] == Each(xs[..n], record);
    }
  }

  lemma {:induction false} MastersFold<T>(entity: string, maps: seq<FieldMap>, cls: Class, idField: string, xs: seq<T>,
                                          record: T -> Record)
    ensures MastersOf(entity, maps, cls, idField, Each(xs, record))
         == Fold(xs, MasterResults(entity, maps, cls, idField, record))
  {
    if xs != [] {
      var n := |xs| - 1;
      MastersFold(entity, maps, cls, idField, xs[..n], record);
      assert Each(xs, record)[..n] == Each(xs[..n], record);
    }
  }

  predicate Corresponds<T, I>(xs: seq<T>, items: seq<I>, same: (T, I) -> bool) {
    |items| == |xs| && forall i :: 0 <= i < |xs| ==> same(xs[i], items[i])
  }

  /** A record comes back, without an issue, exactly when it is `ok` and no earlier one has its key. */
  predicate RestoresExactly<T, I, K(==)>(outcome: (T, seq<K>) -> Outcome<I, K>, same: (T, I) -> bool, ok: T -> bool,
                                         key: T -> K, x: T, ids: seq<K>)
  {
    var o := outcome(x, ids);
    && (o.issues == [] && o.item.Some? && same(x, o.item.value) <==> ok(x) && key(x) !in ids)
    && (ok(x) && key(x) !in ids ==> o.id == Some(key(x)))
  }

  ghost predicate AllOk<T, K>(xs: seq<T>, ok: T -> bool, key: T -> K) {
    && (forall x :: x in xs ==> ok(x))
    && (forall i, j :: 0 <= i < j < |xs| ==> key(xs[i]) != key(xs[j]))
  }

  lemma AllOkStep<T, K>(xs: seq<T>, ok: T -> bool, key: T -> K)
    requires xs != []
    ensures var front, last := xs[..|xs| - 1], xs[|xs| - 1];
      AllOk(xs, ok, key) <==> AllOk(front, ok, key) && ok(last) && key(last) !in Each(front, key)
  {
    var front, last := xs[..|xs| - 1], xs[|xs| - 1];
    assert xs == front + [last];
    if AllOk(xs, ok, key) {
      forall i | 0 <= i < |front| ensures Each(front, key)[i] != key(last) {
        assert front[i] == xs[i];
      }
    }
    if AllOk(front, ok, key) && ok(last) && key(last) !in Each(front, key) {
      forall i | 0 <= i < |front| ensures key(xs[i]) != key(last) {
        assert Each(front, key)[i] in Each(front, key);
      }
    }
  }

  lemma CorrespondsStep<T, I>(xs: seq<T>, items: seq<I>, item: Option<I>, same: (T, I) -> bool)
    requires xs != [] && |items| <= |xs| - 1
    ensures var front, last := xs[..|xs| - 1], xs[|xs| - 1];
      Corresponds(xs, items + AsSeq(item), same)
      <==> Corresponds(front, items, same) && item.Some? && same(last, item.value)
  {
    var all := items + AsSeq(item);
    if Corresponds(xs, all, same) {
      assert item.Some? && all[|items|] == item.value && same(xs[|items|], all[|items|]);
      forall i | 0 <= i < |xs| - 1 ensures same(xs[i], items[i]) {
        assert same(xs[i], all[i]);
      }
    }
  }

  /** A whole export comes back exactly when every record does on its own and no two have one key. */
  lemma {:induction false} FoldSurvivesExactly<T(!new), I, K(!new)>(
      xs: seq<T>, outcome: (T, seq<K>) -> Outcome<I, K>, same: (T, I) -> bool, ok: T -> bool, key: T -> K)
    requires forall x: T, ids: seq<K> :: RestoresExactly(outcome, same, ok, key, x, ids)
    ensures var r := Fold(xs, outcome);
      && |r.0| <= |xs|
      && (r.1 == [] && Corresponds(xs, r.0, same) <==> AllOk(xs, ok, key))
      && (AllOk(xs, ok, key) ==> r.2 == Each(xs, key))
  {
    if xs != [] {
      var n := |xs| - 1;
      FoldSurvivesExactly(xs[..n], outcome, same, ok, key);
      var front := Fold(xs[..n], outcome);
      var o := outcome(xs[n], front.2);
      assert RestoresExactly(outcome, same, ok, key, xs[n], front.2);
      AllOkStep(xs, ok, key);
      CorrespondsStep(xs, front.0, o.item, same);
      EachStep(xs, key);
    }
  }

  lemma EachStep<T, U>(xs: seq<T>, f: T -> U)
    requires xs != []
    ensures Each(xs, f) == Each(xs[..|xs| - 1], f) + [f(xs[|xs| - 1])]
  {
  }

  // --------------------------------------------------------------- order identity

  /** The order number and the line that the export shows. */
  function ShownRef(line: OrderLine): string {
    Strip(if line.externalRef.GetOr("") != "" then line.externalRef.value else line.orderId)
  }

  function ShownLine(line: OrderLine): string {
    Strip(if line.line.GetOr("") != "" then line.line.value else "1")
  }

  /** The order's id is the one that is composed from what its row shows. */
  predicate Recomposed(line: OrderLine) {
    && ShownRef(line) != "" && Decimal.IsIntText(ShownLine(line))
    && line.orderId == ComposeOrderId(ShownRef(line), Decimal.ReadInt(ShownLine(line)))
  }

  lemma ComposedIsLonger(ref: string, line: int)
    ensures |ComposeOrderId(ref, line)| > |ref| + 1
    ensures ref != "" ==> ComposeOrderId(ref, line)[0] == ref[0]
    ensures !IsSpace(ComposeOrderId(ref, line)[|ComposeOrderId(ref, line)| - 1])
  {
    var head, tail := ComposedParts(ref, line);
    assert Decimal.IsDigit(tail[|tail| - 1]);
    assert ComposeOrderId(ref, line)[|ComposeOrderId(ref, line)| - 1] == tail[|tail| - 1];
  }

  /** An order without an external reference never comes back under its own id. */
  lemma UnreferencedIsRenamed(line: OrderLine)
    requires line.externalRef.GetOr("") == ""
    ensures !Recomposed(line)
  {
    if ShownRef(line) != "" && Decimal.IsIntText(ShownLine(line)) {
      ComposedIsLonger(ShownRef(line), Decimal.ReadInt(ShownLine(line)));
    }
  }

  // ------------------------------------------------------------------- orders

  /** An order and the id of its row. */
  datatype OrderRow = OrderRow(order: Order, row: string)

  function RecordOfOrder(x: OrderRow): Record {
    Record("order", x.row, Some(PayloadOf(OrderColumns(x.order))))
  }

  function LineOf(o: Order): OrderLine {
    OrderLine(o.id, o.externalRef, o.line)
  }

  /** Every column carries its attribute, and the id is the composed one. */
  predicate OrderCarried(o: Order) {
    AllCarried(OrderColumns(o)) && Recomposed(LineOf(o))
  }

  /** The item is the order, attribute by attribute. */
  predicate IsOrder(o: Order, item: OrderItem) {
    item.orderId == o.id && item.duplicateOf.None? && Holds(item.fields, OrderColumns(o))
  }

  function OrderOutcome(maps: seq<FieldMap>, x: OrderRow, composed: seq<string>): Outcome<OrderItem, string> {
    OutcomeOf(maps, OrderClass(maps), RecordOfOrder(x), composed)
  }

  /** The columns that the id and the constructor need. */
  lemma OrderKeys(o: Order)
    ensures var cols := OrderColumns(o);
      && |cols| == 45
      && cols[0] == Column("ORDER_NO", REF, KeyText(o.externalRef, o.id))
      && cols[1] == Column("LINE_NO", LINE, KeyText(o.line, "1"))
      && cols[2] == Column("CUST_CODE", "customer_id", RequiredText(o.customer))
      && cols[3] == Column("PART_NO", "part_id", RequiredText(o.part))
  {
    var cols := OrderColumns(o);
    assert cols[..15] == OrderHead(o);
    assert cols[0] == OrderHead(o)[0] && cols[1] == OrderHead(o)[1];
    assert cols[2] == OrderHead(o)[2] && cols[3] == OrderHead(o)[3];
  }

  lemma KeyHolds(fields: map<string, Value>, cols: seq<Column>, i: nat, s: string)
    requires Holds(fields, cols) && i < |cols| && FormatOf(cols[i].kind).attribute == Some(VText(s))
    ensures cols[i].target in fields && fields[cols[i].target] == VText(s)
  {
    assert Get(fields, cols[i].target) == FormatOf(cols[i].kind).attribute;
  }

  lemma OrderBuilds(maps: seq<FieldMap>, o: Order, p: Payload)
    requires Holds(MapFields(p, maps), OrderColumns(o))
    ensures Constructible(OrderClass(maps), OrderKeywords(MapFields(p, maps), false))
  {
    var fields := MapFields(p, maps);
    OrderKeys(o);
    KeyHolds(fields, OrderColumns(o), 2, o.customer);
    KeyHolds(fields, OrderColumns(o), 3, o.part);
    FieldsAreKnown(p, maps, ORDER_NEEDS, {ATTRIBUTES});
  }

  /** The composed id of carried columns. */
  lemma OrderBaseId(o: Order, fields: map<string, Value>)
    requires AllCarried(OrderColumns(o)) && Holds(fields, OrderColumns(o))
    ensures BaseId(fields) == (if Decimal.IsIntText(ShownLine(LineOf(o)))
                               then Some(ComposeOrderId(ShownRef(LineOf(o)), Decimal.ReadInt(ShownLine(LineOf(o)))))
                               else None)
    ensures ShownRef(LineOf(o)) != ""
  {
    OrderKeys(o);
    var cols := OrderColumns(o);
    assert Carried(cols[0].kind) && Carried(cols[1].kind);
    KeyHolds(fields, cols, 0, o.externalRef.value);
    KeyHolds(fields, cols, 1, o.line.value);
  }

  lemma FirstCopy(composed: seq<string>, id: string)
    ensures id !in composed ==> GivenId(composed + [id], |composed|) == id
  {
    assert (composed + [id])[..|composed|] == composed;
    CountMember(composed, id);
  }

  /** What a record without mapping issues becomes. */
  lemma CleanOutcome(maps: seq<FieldMap>, cls: Class, r: Record, composed: seq<string>)
    requires r.entity == "order" && r.payload.Some? && RecordIssues("order", maps, r) == []
    requires Constructible(cls, OrderKeywords(MapFields(r.payload.value, maps), false))
    ensures var fields, out := MapFields(r.payload.value, maps), OutcomeOf(maps, cls, r, composed);
      match BaseId(fields)
      case None => out.item.None?
      case Some(id) =>
        && out.id == Some(id)
        && (id in composed ==> out.issues != [])
        && (id !in composed ==> out.issues == [] && out.item == Some(OrderItem(id, r.externalId, None, fields)))
  {
    CleanIsUsable("order", maps, r);
    var fields := MapFields(r.payload.value, maps);
    if BaseId(fields).Some? {
      FirstCopy(composed, BaseId(fields).value);
    }
  }

  /** What normalising makes of the mapped fields, when they are the order's. */
  lemma OrderFromFields(maps: seq<FieldMap>, x: OrderRow, composed: seq<string>)
    requires OrderFields(maps)
    requires var p := PayloadOf(OrderColumns(x.order));
      MapIssues("order", x.row, p, maps) == [] && Holds(MapFields(p, maps), OrderColumns(x.order))
    requires AllCarried(OrderColumns(x.order))
    ensures var out := OrderOutcome(maps, x, composed);
      && (out.issues == [] && out.item.Some? && IsOrder(x.order, out.item.value)
          <==> Recomposed(LineOf(x.order)) && x.order.id !in composed)
      && (Recomposed(LineOf(x.order)) ==> out.id == Some(x.order.id))
  {
    var r, p := RecordOfOrder(x), PayloadOf(OrderColumns(x.order));
    var fields := MapFields(p, maps);
    OrderBaseId(x.order, fields);
    OrderBuilds(maps, x.order, p);
    CleanOutcome(maps, OrderClass(maps), r, composed);
  }

  /** Issues of the mapping are issues of the record. */
  lemma OrderIssuesInclude(maps: seq<FieldMap>, x: OrderRow, composed: seq<string>)
    ensures var p, out := PayloadOf(OrderColumns(x.order)), OrderOutcome(maps, x, composed);
      && (out.issues == [] ==> MapIssues("order", x.row, p, maps) == [])
      && (out.item.Some? ==> out.item.value.fields == MapFields(p, maps))
  {
  }

  function OrderKey(x: OrderRow): string { x.order.id }
  predicate OrderRowCarried(x: OrderRow) { OrderCarried(x.order) }
  predicate IsOrderOf(x: OrderRow, item: OrderItem) { IsOrder(x.order, item) }

  /**
   * A printed order comes back whole (every attribute, its own id, no issue) exactly when every column
   * carries its attribute, the id is the one composed from the row, and no earlier row had it.
   */
  lemma OrderSurvivesExactly(maps: seq<FieldMap>, x: OrderRow, composed: seq<string>)
    requires OrderFields(maps)
    ensures var out := OrderOutcome(maps, x, composed);
      && (out.issues == [] && out.item.Some? && IsOrderOf(x, out.item.value)
          <==> OrderRowCarried(x) && OrderKey(x) !in composed)
      && (OrderRowCarried(x) ==> out.id == Some(OrderKey(x)))
  {
    var cols := OrderColumns(x.order);
    OrderNames(x.order);
    assert Fields(cols) == maps;
    PayloadPrints(cols);
    ColumnsSurviveExactly("order", x.row, PayloadOf(cols), cols);
    OrderIssuesInclude(maps, x, composed);
    if AllCarried(cols) {
      OrderFromFields(maps, x, composed);
    }
  }

  /**
   * A whole export of orders comes back, one item for each order and no issue, exactly when every order is
   * carried and no two have one id.
   */
  lemma OrdersSurviveExactly(maps: seq<FieldMap>, orders: seq<OrderRow>)
    requires OrderFields(maps)
    ensures var r := OrdersOf(maps, OrderClass(maps), Each(orders, RecordOfOrder));
      r.1 == [] && Corresponds(orders, r.0, IsOrderOf) <==> AllOk(orders, OrderRowCarried, OrderKey)
  {
    var outcome := OrderResults(maps, OrderClass(maps), RecordOfOrder);
    forall x: OrderRow, ids: seq<string>
      ensures RestoresExactly(outcome, IsOrderOf, OrderRowCarried, OrderKey, x, ids)
    {
      OrderSurvivesExactly(maps, x, ids);
    }
    OrdersFold(maps, OrderClass(maps), orders, RecordOfOrder);
    FoldSurvivesExactly(orders, outcome, IsOrderOf, OrderRowCarried, OrderKey);
  }

  // --------------------------------------------------------------- operations

  datatype OperationRow = OperationRow(op: Operation, line: OrderLine, row: string)

  function RecordOfOperation(x: OperationRow): Record {
    Record("operation", x.row, Some(PayloadOf(OperationColumns(x.op, x.line))))
  }

  /** The order number and the line only compose the order's id, so only that has to come back. */
  predicate OwnColumn(c: Column) {
    !c.kind.KeyText?
  }

  predicate OperationCarried(op: Operation, line: OrderLine) {
    OwnCarried(OperationColumns(op, line)) && Recomposed(line)
  }

  /** The fields hold the attributes of the columns that are the operation's own. */
  predicate HoldsOwn(fields: map<string, Value>, cols: seq<Column>) {
    forall i :: 0 <= i < |cols| && OwnColumn(cols[i]) ==>
      Get(fields, cols[i].target) == FormatOf(cols[i].kind).attribute
  }

  predicate IsOperation(op: Operation, line: OrderLine, item: OperationItem) {
    item.id == VText(op.id) && item.orderId == line.orderId && HoldsOwn(item.fields, OperationColumns(op, line))
  }

  function OperationResult(maps: seq<FieldMap>, x: OperationRow, ids: seq<Value>): Outcome<OperationItem, Value> {
    OperationOutcome(maps, OperationClass(maps), RecordOfOperation(x), ids)
  }

  /** The columns that the ids and the constructor need. */
  lemma OperationKeys(op: Operation, line: OrderLine)
    ensures var cols := OperationColumns(op, line);
      && |cols| == 25
      && cols[0] == Column("OP_ID", OPERATION_ID, RequiredText(op.id))
      && cols[1] == Column("ORDER_NO", REF, KeyText(line.externalRef, line.orderId))
      && cols[2] == Column("LINE_NO", LINE, KeyText(line.line, "1"))
      && cols[3] == Column("OP_SEQ", "sequence", Integer(op.sequence, true, None))
      && cols[4] == Column("OP_TYPE", "operation_type", Code(Place(E.PROCESS, op.kind), "other"))
  {
    var cols, head := OperationColumns(op, line), OperationHead(op, line);
    assert cols[0] == head[0] && cols[1] == head[1] && cols[2] == head[2] && cols[3] == head[3] && cols[4] == head[4];
  }

  lemma OnlyTwoKeys(op: Operation, line: OrderLine, i: nat)
    requires i < |OperationColumns(op, line)|
    ensures OwnColumn(OperationColumns(op, line)[i]) <==> i != 1 && i != 2
  {
    var cols := OperationColumns(op, line);
    if i < 13 {
      assert cols[i] == OperationHead(op, line)[i];
    } else {
      assert cols[i] == OperationTail(op)[i - 13];
    }
  }

  /** The two key columns have no issue exactly when what they show is not blank, and give what they show. */
  lemma KeyColumnRead(p: Payload, cols: seq<Column>, i: nat)
    requires Prints(p, cols) && DistinctNames(cols) && i < |cols| && cols[i].kind.KeyText?
    ensures var shown := Strip(FormatOf(cols[i].kind).cell.s);
      && FormatOf(cols[i].kind).cell.RStr?
      && (FieldIssue(Cell(p, cols[i].source), FieldOf(cols[i])).None? <==> shown != "")
      && (shown != "" ==> Get(MapFields(p, Fields(cols)), cols[i].target) == Some(VText(shown)))
  {
    FieldOfColumn(p, cols, i);
  }

  /** What a key column shows. */
  function Shown(c: Column): string {
    var cell := FormatOf(c.kind).cell;
    if cell.RStr? then Strip(cell.s) else ""
  }

  /**
   * A record with key columns has no issue, and holds its own fields, exactly when its own columns carry
   * their attributes and its keys show something.
   */
  lemma KeyedRecord(entity: string, row: string, p: Payload, cols: seq<Column>)
    requires Prints(p, cols) && DistinctNames(cols)
    ensures MapIssues(entity, row, p, Fields(cols)) == [] && HoldsOwn(MapFields(p, Fields(cols)), cols)
            <==> forall i :: 0 <= i < |cols| ==>
                   if OwnColumn(cols[i]) then Carried(cols[i].kind) else Shown(cols[i]) != ""
  {
    NoIssueExactly(entity, row, p, Fields(cols));
    assert forall i :: 0 <= i < |cols| ==> Fields(cols)[i] == FieldOf(cols[i]);
    forall i | 0 <= i < |cols|
      ensures OwnColumn(cols[i]) ==>
                ((FieldIssue(Cell(p, cols[i].source), FieldOf(cols[i])).None?
                  && Get(MapFields(p, Fields(cols)), cols[i].target) == FormatOf(cols[i].kind).attribute)
                 <==> Carried(cols[i].kind))
      ensures !OwnColumn(cols[i]) ==>
                (FieldIssue(Cell(p, cols[i].source), FieldOf(cols[i])).None? <==> Shown(cols[i]) != "")
    {
      if OwnColumn(cols[i]) {
        ColumnOfRecord(p, cols, i);
      } else {
        KeyColumnRead(p, cols, i);
      }
    }
  }

  lemma OperationShows(op: Operation, line: OrderLine)
    ensures var cols := OperationColumns(op, line);
            Shown(cols[1]) == ShownRef(line) && Shown(cols[2]) == ShownLine(line)
  {
    OperationKeys(op, line);
  }

  predicate OwnCarried(cols: seq<Column>) {
    forall c :: c in cols && OwnColumn(c) ==> Carried(c.kind)
  }

  /** The mapped operation: no issue and its own fields exactly when these are carried and the keys show something. */
  lemma OperationMapped(maps: seq<FieldMap>, op: Operation, line: OrderLine, row: string)
    requires OperationFields(maps)
    ensures var cols := OperationColumns(op, line); var p := PayloadOf(cols);
      MapIssues("operation", row, p, maps) == [] && HoldsOwn(MapFields(p, maps), cols)
      <==> OwnCarried(cols) && ShownRef(line) != "" && ShownLine(line) != ""
  {
    var cols := OperationColumns(op, line);
    OperationNames(op, line);
    assert Fields(cols) == maps;
    PayloadPrints(cols);
    KeyedRecord("operation", row, PayloadOf(cols), cols);
    OperationShows(op, line);
    assert |cols| == 25;
    forall i | 0 <= i < |cols| ensures OwnColumn(cols[i]) <==> i != 1 && i != 2 {
      OnlyTwoKeys(op, line, i);
    }
  }

  /** The mapped keys are what the row shows. */
  lemma OperationKeyFields(maps: seq<FieldMap>, op: Operation, line: OrderLine)
    requires OperationFields(maps)
    ensures var p := PayloadOf(OperationColumns(op, line));
      && (ShownRef(line) != "" ==> Get(MapFields(p, maps), REF) == Some(VText(ShownRef(line))))
      && (ShownLine(line) != "" ==> Get(MapFields(p, maps), LINE) == Some(VText(ShownLine(line))))
  {
    var cols := OperationColumns(op, line);
    OperationNames(op, line);
    assert Fields(cols) == maps;
    PayloadPrints(cols);
    OperationKeys(op, line);
    KeyColumnRead(PayloadOf(cols), cols, 1);
    KeyColumnRead(PayloadOf(cols), cols, 2);
  }

  lemma OperationBaseId(maps: seq<FieldMap>, op: Operation, line: OrderLine)
    requires OperationFields(maps)
    requires ShownRef(line) != "" && ShownLine(line) != ""
    ensures BaseId(MapFields(PayloadOf(OperationColumns(op, line)), maps)) == Some(line.orderId) <==> Recomposed(line)
    ensures var fields := MapFields(PayloadOf(OperationColumns(op, line)), maps);
      BaseId(fields).None? ==> ParseInt(Get(fields, LINE)).None?
  {
    OperationKeyFields(maps, op, line);
  }

  /**
   * Whatever the order shows, its operations are filed under the id that the order itself is given: an
   * order that is renamed takes its operations along.
   */
  lemma OperationsFollowOrder(orderMaps: seq<FieldMap>, operationMaps: seq<FieldMap>, o: Order, op: Operation)
    requires OrderFields(orderMaps) && OperationFields(operationMaps)
    ensures BaseId(MapFields(PayloadOf(OperationColumns(op, LineOf(o))), operationMaps))
         == BaseId(MapFields(PayloadOf(OrderColumns(o)), orderMaps))
  {
    var orders, operations := OrderColumns(o), OperationColumns(op, LineOf(o));
    OrderNames(o);
    OperationNames(op, LineOf(o));
    assert Fields(orders) == orderMaps && Fields(operations) == operationMaps;
    OrderKeys(o);
    OperationKeys(op, LineOf(o));
    SameColumnSameField(orders, 0, operations, 1);
    SameColumnSameField(orders, 1, operations, 2);
  }

  lemma SameColumnSameField(cols: seq<Column>, i: nat, others: seq<Column>, j: nat)
    requires DistinctNames(cols) && DistinctNames(others)
    requires i < |cols| && j < |others| && cols[i] == others[j]
    ensures Get(MapFields(PayloadOf(cols), Fields(cols)), cols[i].target)
         == Get(MapFields(PayloadOf(others), Fields(others)), cols[i].target)
  {
    PayloadPrints(cols);
    PayloadPrints(others);
    FieldOfColumn(PayloadOf(cols), cols, i);
    FieldOfColumn(PayloadOf(others), others, j);
  }

  /** Dropping the key columns leaves the operation's own fields. */
  lemma OwnFieldsStay(op: Operation, line: OrderLine, fields: map<string, Value>)
    ensures HoldsOwn(WithoutLine(fields), OperationColumns(op, line)) <==> HoldsOwn(fields, OperationColumns(op, line))
  {
    var cols := OperationColumns(op, line);
    forall i | 0 <= i < |cols| && OwnColumn(cols[i])
      ensures Get(WithoutLine(fields), cols[i].target) == Get(fields, cols[i].target)
    {
      OwnTarget(op, line, i);
    }
  }

  lemma OwnTarget(op: Operation, line: OrderLine, i: nat)
    requires var cols := OperationColumns(op, line); i < |cols| && OwnColumn(cols[i])
    ensures OperationColumns(op, line)[i].target != REF && OperationColumns(op, line)[i].target != LINE
  {
    var cols := OperationColumns(op, line);
    OperationNames(op, line);
    OperationKeys(op, line);
    OnlyTwoKeys(op, line, i);
    assert cols[i].target != cols[1].target && cols[i].target != cols[2].target;
  }

  lemma OwnKeyHolds(fields: map<string, Value>, cols: seq<Column>, i: nat)
    requires HoldsOwn(fields, cols) && i < |cols| && OwnColumn(cols[i]) && FormatOf(cols[i].kind).attribute.Some?
    ensures Get(fields, cols[i].target) == FormatOf(cols[i].kind).attribute
    ensures cols[i].target in fields
  {
  }

  lemma OperationBuilds(maps: seq<FieldMap>, op: Operation, line: OrderLine, p: Payload)
    requires HoldsOwn(MapFields(p, maps), OperationColumns(op, line))
    ensures var fields := MapFields(p, maps);
      && Get(fields, OPERATION_ID) == Some(VText(op.id))
      && Constructible(OperationClass(maps), WithoutLine(fields).Keys + {ORDER_ID})
  {
    var fields, cols := MapFields(p, maps), OperationColumns(op, line);
    OperationKeys(op, line);
    OwnKeyHolds(fields, cols, 0);
    OwnKeyHolds(fields, cols, 3);
    OwnKeyHolds(fields, cols, 4);
    FieldsAreKnown(p, maps, OPERATION_NEEDS, {ATTRIBUTES});
  }

  lemma OperationIssuesInclude(maps: seq<FieldMap>, x: OperationRow, ids: seq<Value>)
    ensures var p, out := PayloadOf(OperationColumns(x.op, x.line)), OperationResult(maps, x, ids);
      && (out.issues == [] ==> MapIssues("operation", x.row, p, maps) == [])
      && (out.item.Some? ==> out.item.value.fields == WithoutLine(MapFields(p, maps)))
  {
  }

  /** What normalising makes of the mapped fields, when they are the operation's. */
  lemma OperationFromFields(maps: seq<FieldMap>, x: OperationRow, ids: seq<Value>)
    requires OperationFields(maps)
    requires var p := PayloadOf(OperationColumns(x.op, x.line));
      && MapIssues("operation", x.row, p, maps) == []
      && HoldsOwn(MapFields(p, maps), OperationColumns(x.op, x.line))
    requires ShownRef(x.line) != "" && ShownLine(x.line) != ""
    ensures var out := OperationResult(maps, x, ids);
      && (out.issues == [] && out.item.Some? && IsOperation(x.op, x.line, out.item.value)
          <==> Recomposed(x.line) && VText(x.op.id) !in ids)
      && (Recomposed(x.line) && VText(x.op.id) !in ids ==> out.id == Some(VText(x.op.id)))
  {
    var p := PayloadOf(OperationColumns(x.op, x.line));
    var fields := MapFields(p, maps);
    CleanIsUsable("operation", maps, RecordOfOperation(x));
    OperationBaseId(maps, x.op, x.line);
    OperationBuilds(maps, x.op, x.line, p);
    OwnFieldsStay(x.op, x.line, fields);
  }

  function OperationKey(x: OperationRow): Value { VText(x.op.id) }
  predicate OperationRowCarried(x: OperationRow) { OperationCarried(x.op, x.line) }
  predicate IsOperationOf(x: OperationRow, item: OperationItem) { IsOperation(x.op, x.line, item) }

  /**
   * A printed operation comes back whole, under its own order, exactly when its own columns carry their
   * attributes, its order's id is the one composed from the row, and no earlier row had its id.
   */
  lemma OperationSurvivesExactly(maps: seq<FieldMap>, x: OperationRow, ids: seq<Value>)
    requires OperationFields(maps)
    ensures var out := OperationResult(maps, x, ids);
      && (out.issues == [] && out.item.Some? && IsOperationOf(x, out.item.value)
          <==> OperationRowCarried(x) && OperationKey(x) !in ids)
      && (OperationRowCarried(x) && OperationKey(x) !in ids ==> out.id == Some(OperationKey(x)))
  {
    var cols := OperationColumns(x.op, x.line);
    var p := PayloadOf(cols);
    OperationMapped(maps, x.op, x.line, x.row);
    OperationIssuesInclude(maps, x, ids);
    OwnFieldsStay(x.op, x.line, MapFields(p, maps));
    if MapIssues("operation", x.row, p, maps) == [] && HoldsOwn(MapFields(p, maps), cols) {
      OperationFromFields(maps, x, ids);
    }
  }

  /** A whole export of operations comes back exactly when every operation is carried and no two have one id. */
  lemma OperationsSurviveExactly(maps: seq<FieldMap>, ops: seq<OperationRow>)
    requires OperationFields(maps)
    ensures var r := OperationsOf(maps, OperationClass(maps), Each(ops, RecordOfOperation));
      r.1 == [] && Corresponds(ops, r.0, IsOperationOf) <==> AllOk(ops, OperationRowCarried, OperationKey)
  {
    var outcome := OperationResults(maps, OperationClass(maps), RecordOfOperation);
    forall x: OperationRow, ids: seq<Value>
      ensures RestoresExactly(outcome, IsOperationOf, OperationRowCarried, OperationKey, x, ids)
    {
      OperationSurvivesExactly(maps, x, ids);
    }
    OperationsFold(maps, OperationClass(maps), ops, RecordOfOperation);
    FoldSurvivesExactly(ops, outcome, IsOperationOf, OperationRowCarried, OperationKey);
  }

  // ------------------------------------------------------------------ masters

  predicate IsMaster(id: string, cols: seq<Column>, item: MasterItem) {
    item.id == VText(id) && Holds(item.fields, cols)
  }

  /** The first column is the identifier; the constructor needs only columns that always have a value. */
  ghost predicate MasterTable(cols: seq<Column>, idField: string, id: string, needed: set<string>) {
    && DistinctNames(cols)
    && |cols| > 0 && cols[0].target == idField && cols[0].kind == RequiredText(id)
    && forall n :: n in needed ==>
         exists i :: 0 <= i < |cols| && cols[i].target == n && FormatOf(cols[i].kind).attribute.Some?
  }

  lemma MasterBuilds(p: Payload, cols: seq<Column>, idField: string, id: string, needed: set<string>, more: set<string>)
    requires MasterTable(cols, idField, id, needed) && Holds(MapFields(p, Fields(cols)), cols)
    ensures Constructible(ClassOf(needed, Fields(cols), more), MapFields(p, Fields(cols)).Keys)
    ensures Get(MapFields(p, Fields(cols)), idField) == Some(VText(id))
  {
    var fields := MapFields(p, Fields(cols));
    FieldsAreKnown(p, Fields(cols), needed, more);
    forall n | n in needed ensures n in fields {
      var i :| 0 <= i < |cols| && cols[i].target == n && FormatOf(cols[i].kind).attribute.Some?;
      assert Get(fields, cols[i].target) == FormatOf(cols[i].kind).attribute;
    }
    assert Get(fields, cols[0].target) == FormatOf(cols[0].kind).attribute;
  }

  /** A printed master comes back exactly when every column carries its attribute and its identifier is new. */
  lemma MasterSurvivesExactly(entity: string, p: Payload, cols: seq<Column>, idField: string, id: string,
                              needed: set<string>, more: set<string>, row: string, ids: seq<Value>)
    requires Prints(p, cols) && MasterTable(cols, idField, id, needed)
    ensures var out := MasterOutcome(entity, Fields(cols), ClassOf(needed, Fields(cols), more), idField,
                                     Record(entity, row, Some(p)), ids);
      && (out.issues == [] && out.item.Some? && IsMaster(id, cols, out.item.value)
          <==> AllCarried(cols) && VText(id) !in ids)
      && (AllCarried(cols) && VText(id) !in ids ==> out.id == Some(VText(id)))
  {
    var r := Record(entity, row, Some(p));
    ColumnsSurviveExactly(entity, row, p, cols);
    if MapIssues(entity, row, p, Fields(cols)) == [] && Holds(MapFields(p, Fields(cols)), cols) {
      CleanIsUsable(entity, Fields(cols), r);
      MasterBuilds(p, cols, idField, id, needed, more);
    }
  }

  lemma MachineNeeds(m: Machine)
    ensures MasterTable(MachineColumns(m), "machine_id", m.id, MACHINE_NEEDS)
  {
    var cols, head := MachineColumns(m), MachineHead(m);
    MachineNames(m);
    assert cols[0] == head[0] && cols[1] == head[1] && cols[2] == head[2] && cols[3] == head[3] && cols[4] == head[4];
  }

  datatype MachineRow = MachineRow(machine: Machine, row: string)

  function RecordOfMachine(x: MachineRow): Record {
    Record("machine", x.row, Some(PayloadOf(MachineColumns(x.machine))))
  }

  function MachineKey(x: MachineRow): Value { VText(x.machine.id) }
  predicate MachineCarried(x: MachineRow) { AllCarried(MachineColumns(x.machine)) }
  predicate IsMachineOf(x: MachineRow, item: MasterItem) { IsMaster(x.machine.id, MachineColumns(x.machine), item) }

  function MachineOutcome(maps: seq<FieldMap>, x: MachineRow, ids: seq<Value>): Outcome<MasterItem, Value> {
    MasterOutcome("machine", maps, MachineClass(maps), "machine_id", RecordOfMachine(x), ids)
  }

  lemma MachineSurvivesExactly(maps: seq<FieldMap>, x: MachineRow, ids: seq<Value>)
    requires MachineFields(maps)
    ensures var out := MachineOutcome(maps, x, ids);
      && (out.issues == [] && out.item.Some? && IsMachineOf(x, out.item.value)
          <==> MachineCarried(x) && MachineKey(x) !in ids)
      && (MachineCarried(x) && MachineKey(x) !in ids ==> out.id == Some(MachineKey(x)))
  {
    var cols := MachineColumns(x.machine);
    MachineNames(x.machine);
    assert Fields(cols) == maps;
    MachineNeeds(x.machine);
    PayloadPrints(cols);
    MasterSurvivesExactly("machine", PayloadOf(cols), cols, "machine_id", x.machine.id, MACHINE_NEEDS,
                          {ATTRIBUTES, "setup_requirements"}, x.row, ids);
  }

  /** A whole export of machines comes back exactly when every column of each is carried and no two have one id. */
  lemma MachinesSurviveExactly(maps: seq<FieldMap>, ms: seq<MachineRow>)
    requires MachineFields(maps)
    ensures var r := MastersOf("machine", maps, MachineClass(maps), "machine_id", Each(ms, RecordOfMachine));
      r.1 == [] && Corresponds(ms, r.0, IsMachineOf) <==> AllOk(ms, MachineCarried, MachineKey)
  {
    var outcome := MasterResults("machine", maps, MachineClass(maps), "machine_id", RecordOfMachine);
    forall x: MachineRow, ids: seq<Value>
      ensures RestoresExactly(outcome, IsMachineOf, MachineCarried, MachineKey, x, ids)
    {
      MachineSurvivesExactly(maps, x, ids);
    }
    MastersFold("machine", maps, MachineClass(maps), "machine_id", ms, RecordOfMachine);
    FoldSurvivesExactly(ms, outcome, IsMachineOf, MachineCarried, MachineKey);
  }

  /** The calendar's payload has one more entry, which no row of the field table reads. */
  function CalendarPayload(c: Calendar, isDefault: bool): Payload {
    PayloadOf(CalendarColumns(c))["IS_DEFAULT" := FormatOf(Flag(isDefault, false)).cell]
  }

  lemma CalendarPrints(c: Calendar, isDefault: bool)
    ensures Prints(CalendarPayload(c, isDefault), CalendarColumns(c))
  {
    CalendarNames(c);
    PayloadPrints(CalendarColumns(c));
    UnreadEntry(c);
  }

  lemma UnreadEntry(c: Calendar)
    ensures forall i :: 0 <= i < |CalendarColumns(c)| ==> CalendarColumns(c)[i].source != "IS_DEFAULT"
  {
  }

  lemma CalendarNeeds(c: Calendar)
    ensures MasterTable(CalendarColumns(c), "calendar_id", c.id, CALENDAR_NEEDS)
  {
    CalendarNames(c);
    var cols := CalendarColumns(c);
    assert cols[1].target == "name" && FormatOf(cols[1].kind).attribute.Some?;
    assert cols[0].target == "calendar_id" && FormatOf(cols[0].kind).attribute.Some?;
  }

  datatype CalendarRow = CalendarRow(calendar: Calendar, isDefault: bool, row: string)

  function RecordOfCalendar(x: CalendarRow): Record {
    Record("calendar", x.row, Some(CalendarPayload(x.calendar, x.isDefault)))
  }

  function CalendarKey(x: CalendarRow): Value { VText(x.calendar.id) }
  predicate CalendarCarried(x: CalendarRow) { AllCarried(CalendarColumns(x.calendar)) }
  predicate IsCalendarOf(x: CalendarRow, item: MasterItem) {
    IsMaster(x.calendar.id, CalendarColumns(x.calendar), item)
  }

  function CalendarOutcome(maps: seq<FieldMap>, x: CalendarRow, ids: seq<Value>): Outcome<MasterItem, Value> {
    MasterOutcome("calendar", maps, CalendarClass(maps), "calendar_id", RecordOfCalendar(x), ids)
  }

  lemma CalendarSurvivesExactly(maps: seq<FieldMap>, x: CalendarRow, ids: seq<Value>)
    requires CalendarFields(maps)
    ensures var out := CalendarOutcome(maps, x, ids);
      && (out.issues == [] && out.item.Some? && IsCalendarOf(x, out.item.value)
          <==> CalendarCarried(x) && CalendarKey(x) !in ids)
      && (CalendarCarried(x) && CalendarKey(x) !in ids ==> out.id == Some(CalendarKey(x)))
  {
    var c := x.calendar;
    assert Fields(CalendarColumns(c)) == maps;
    CalendarNeeds(c);
    CalendarPrints(c, x.isDefault);
    MasterSurvivesExactly("calendar", CalendarPayload(c, x.isDefault), CalendarColumns(c), "calendar_id", c.id,
                          CALENDAR_NEEDS, {}, x.row, ids);
  }

  /** A whole export of calendars comes back exactly when every column of each is carried and no two have one id. */
  lemma CalendarsSurviveExactly(maps: seq<FieldMap>, cs: seq<CalendarRow>)
    requires CalendarFields(maps)
    ensures var r := MastersOf("calendar", maps, CalendarClass(maps), "calendar_id", Each(cs, RecordOfCalendar));
      r.1 == [] && Corresponds(cs, r.0, IsCalendarOf) <==> AllOk(cs, CalendarCarried, CalendarKey)
  {
    var outcome := MasterResults("calendar", maps, CalendarClass(maps), "calendar_id", RecordOfCalendar);
    forall x: CalendarRow, ids: seq<Value>
      ensures RestoresExactly(outcome, IsCalendarOf, CalendarCarried, CalendarKey, x, ids)
    {
      CalendarSurvivesExactly(maps, x, ids);
    }
    MastersFold("calendar", maps, CalendarClass(maps), "calendar_id", cs, RecordOfCalendar);
    FoldSurvivesExactly(cs, outcome, IsCalendarOf, CalendarCarried, CalendarKey);
  }
}

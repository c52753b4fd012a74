/**
 * The columns of the export: for every kind of column the cell that the ERP prints, the row of the field
 * table that reads it, and exactly when the attribute comes back
 * (backend/app/integration/mock_connector.py, field_maps.py).
 */
module ErpColumns {
  import opened Prelude
  import Decimal
  import E = ErpFormats
  import opened ErpParsers
  import Floats
  import IsoTime
  import opened Normalizer

  /** An enum member is given by its place in the table of its codes. */
  datatype Place = Place(table: E.CodeTable, index: nat)

  type Member = p: Place | p.index < E.TableSize(p.table) witness Place(E.PROCESS, 0)

  type Process = i: nat | i < E.TableSize(E.PROCESS)

  predicate Filled(s: string) {
    s != "" && Trimmed(s)
  }

  type Default = s: string | Filled(s) witness "x"

  /** A dictionary's items. */
  type Cycles = cs: seq<E.Cycle> | E.DistinctKeys(cs)

  /** What a column holds, and how it is printed and read. Sets are listed in any order. */
  datatype Kind =
    | RequiredText(text: string)
    | KeyText(key: Option<string>, substitute: string)  // `key or substitute`
    | OptionalText(value: Option<string>)               // `value or ""`
    | DefaultedText(given: string, default: Default)
    | Quantity(x: Floats.Float)                         // a float as such
    | Number(number: Option<Floats.Float>)
    | Integer(i: int, required: bool, otherwise: Option<int>)
    | Rank(rank: Option<int>)
    | Percent(efficiency: Floats.Float)
    | Ratio(ratio: Option<Floats.Float>)
    | Measures(size: Option<E.Size>)
    | Flag(flag: bool, normally: bool)
    | Moment(stamp: Option<E.Stamp>)
    | Code(member: Member, unknown: string)
    | Route(route: seq<Process>)
    | Processes(processes: seq<Process>)
    | Texts(texts: seq<string>)
    | Numbers(cycles: Cycles)
    | Windows(windows: seq<E.TimeWindow>)
    | Dates(dates: seq<IsoTime.Date>)
    | Shifts(shifts: seq<E.WeekShift>)

  datatype Column = Column(source: string, target: string, kind: Kind)

  // -------------------------------------------------------- printing and reading

  /**
   * The printed cell, the rest of the column's row in the field table, and the attribute (None for its
   * default, None).
   */
  datatype Format = Format(
    cell: RawVal, parser: RawVal -> Parsed, required: bool, fallback: Option<Value>, attribute: Option<Value>)

  function TextOrNone(o: Option<string>): Option<Value> {
    if o.Some? then Some(VText(o.value)) else None
  }

  function FloatOrNone(o: Option<Floats.Float>): Option<Value> {
    if o.Some? then Some(VFloat(o.value)) else None
  }

  function IntOrNone(o: Option<int>): Option<Value> {
    if o.Some? then Some(VInt(o.value)) else None
  }

  function CodeParser(t: E.CodeTable): RawVal -> Parsed {
    match t
    case PROCESS => ParseProcess
    case ORDER_STATUS => ParseOrderStatus
    case OPERATION_STATUS => ParseOperationStatus
    case MACHINE_STATUS => ParseMachineStatus
    case MATERIAL_STATUS => ParseMaterialStatus
    case QUALITY_STATUS => ParseQualityStatus
    case SHIPPING_STATUS => ParseShippingStatus
  }

  function Codes(members: seq<Process>): seq<string> {
    E.CodesOf(E.CodesIn(E.PROCESS), members)
  }

  function Values(members: seq<Process>): seq<string> {
    E.ValuesOf(E.CodesIn(E.PROCESS), members)
  }

  function FormatOf(k: Kind): Format {
    match k
    case RequiredText(text) => Format(RStr(text), ParseStr, true, None, Some(VText(text)))
    case KeyText(key, substitute) =>
      Format(RStr(if key.GetOr("") != "" then key.value else substitute), ParseStr, true, None, TextOrNone(key))
    case OptionalText(value) => Format(RStr(value.GetOr("")), ParseStr, false, None, TextOrNone(value))
    case DefaultedText(given, default) => Format(RStr(given), ParseStr, false, Some(VText(default)), Some(VText(given)))
    case Quantity(x) => Format(RFloat(x), ParseFloat, false, Some(VFloat(Floats.ZERO)), Some(VFloat(x)))
    case Number(x) => NumberFormat(x)
    case Integer(i, required, other) => Format(RInt(i), ParseInteger, required, IntOrNone(other), Some(VInt(i)))
    case Rank(i) => RankFormat(i)
    case Percent(x) => PercentFormat(x)
    case Ratio(x) => RatioFormat(x)
    case Measures(size) => SizeFormat(size)
    case Flag(b, normally) => FlagFormat(b, normally)
    case Moment(stamp) => MomentFormat(stamp)
    case Code(m, unknown) => CodeFormat(m, unknown)
    case Route(route) => RouteFormat(route)
    case Processes(members) => ProcessesFormat(members)
    case Texts(texts) => TextsFormat(texts)
    case Numbers(cycles) => NumbersFormat(cycles)
    case Windows(windows) => WindowsFormat(windows)
    case Dates(dates) => DatesFormat(dates)
    case Shifts(shifts) => ShiftsFormat(shifts)
  }

  function NumberFormat(x: Option<Floats.Float>): Format {
    Format(RStr(if x.Some? then Floats.Repr(x.value) else ""), ParseFloat, false, None, FloatOrNone(x))
  }

  function RankFormat(i: Option<int>): Format {
    Format(RStr(if i.Some? then Decimal.Signed(i.value) else ""), ParseInteger, false, None, IntOrNone(i))
  }

  function PercentFormat(x: Floats.Float): Format {
    Format(RStr(E.PrintPercent(x)), ParsePercent, false, Some(VFloat(Floats.ONE)), Some(VFloat(x)))
  }

  function RatioFormat(x: Option<Floats.Float>): Format {
    Format(RStr(if x.Some? then E.PrintPercent(x.value) else ""), ParsePercentRatio, false, None, FloatOrNone(x))
  }

  function SizeFormat(size: Option<E.Size>): Format {
    Format(RStr(if size.Some? then E.PrintSize(size.value) else ""), ParseSizeMm, false, None,
           if size.Some? then Some(VSize(size.value)) else None)
  }

  function FlagFormat(b: bool, normally: bool): Format {
    Format(RStr(E.PrintFlag(b)), ParseBool, false, Some(VBool(normally)), Some(VBool(b)))
  }

  function MomentFormat(stamp: Option<E.Stamp>): Format {
    Format(RStr(if stamp.Some? then PrintStamp(stamp.value) else ""), ParseStamp, false, None,
           if stamp.Some? then Some(VStamp(stamp.value.0, stamp.value.1)) else None)
  }

  function CodeFormat(m: Member, unknown: string): Format {
    var entry := E.CodesIn(m.table)[m.index];
    Format(RStr(entry.0), CodeParser(m.table), false, Some(VMember(unknown)), Some(VMember(entry.1)))
  }

  function RouteFormat(route: seq<Process>): Format {
    Format(RStr(E.Join(Codes(route), E.ROUTE_SEPARATOR)), ParseRoute, false, Some(VRoute([])),
           Some(VRoute(Values(route))))
  }

  function ProcessesFormat(members: seq<Process>): Format {
    Format(RStr(E.PrintStrSet(Codes(members))), ParseProcessSet, false, Some(VMembers({})),
           Some(VMembers(set v | v in Values(members))))
  }

  function TextsFormat(texts: seq<string>): Format {
    Format(RStr(E.PrintStrSet(texts)), ParseTexts, false, Some(VTexts({})), Some(VTexts(set t | t in texts)))
  }

  function NumbersFormat(cycles: Cycles): Format {
    Format(RStr(E.PrintCycles(cycles)), ParseNumbers, false, Some(VNumbers(map[])), Some(VNumbers(E.AsMap(cycles))))
  }

  function WindowsFormat(windows: seq<E.TimeWindow>): Format {
    Format(RList(PrintWindows(windows)), ParseWindows, false, Some(VWindows([])), Some(VWindows(windows)))
  }

  function DatesFormat(dates: seq<IsoTime.Date>): Format {
    Format(RList(PrintDates(dates)), ParseDates, false, Some(VDates([])), Some(VDates(dates)))
  }

  function ShiftsFormat(shifts: seq<E.WeekShift>): Format {
    Format(RList(PrintShifts(shifts)), ParseShifts, false, Some(VShifts([])), Some(VShifts(shifts)))
  }

  function PrintStamp(s: E.Stamp): string {
    IsoTime.StampText(s.0, s.1)
  }

  /** The column's row of the field table. */
  function FieldOf(c: Column): FieldMap {
    var f := FormatOf(c.kind);
    FieldMap(c.source, c.target, f.parser, f.required, f.fallback)
  }

  // --------------------------------------------------------- what is to come back

  predicate SixDigits(x: Floats.Float) {
    Floats.Abs(x.mantissa) < 1_000_000
  }

  predicate FourDecimals(x: Floats.Float) {
    x.exponent >= -4 && x.mantissa >= 0
  }

  /** What the column can carry; the kinds not listed carry everything. */
  predicate Carried(k: Kind) {
    match k
    case RequiredText(text) => Filled(text)
    case KeyText(key, _) => key.Some? && Filled(key.value)
    case OptionalText(value) => value.Some? ==> Filled(value.value)
    case DefaultedText(given, _) => Filled(given)
    case Percent(efficiency) => FourDecimals(efficiency)
    case Ratio(ratio) => RatioCarried(ratio)
    case Measures(size) => SizeCarried(size)
    case Texts(texts) => forall t :: t in texts ==> E.Clean(t)
    case Numbers(cycles) => forall c :: c in cycles ==> E.CleanKey(c.0)
    case Shifts(shifts) => forall s :: s in shifts ==> ShiftCarried(s)
    case _ => true
  }

  /** The cell gives the attribute back, and without an issue. */
  predicate Restored(c: Column) {
    var f := FormatOf(c.kind);
    FieldIssue(f.cell, FieldOf(c)).None? && FieldValue(f.cell, FieldOf(c)) == f.attribute
  }

  // ------------------------------------------------------------ column by column

  /** What a column needs for its attribute to come back, by its format alone. */
  predicate GivesBack(f: Format) {
    if IsEmpty(f.cell) then !f.required && f.fallback == f.attribute
    else f.parser(f.cell).Parsed? && f.attribute == Some(f.parser(f.cell).value)
  }

  lemma RestoredByFormat(c: Column)
    ensures Restored(c) <==> GivesBack(FormatOf(c.kind))
  {
  }

  lemma NumberCell(x: Floats.Float)
    ensures var v := RStr(Floats.Repr(x)); !IsEmpty(v) && ParseFloat(v) == Parsed(VFloat(x))
  {
    E.NumberSurvives(x);
  }

  lemma RankCell(i: int)
    ensures var v := RStr(Decimal.Signed(i)); !IsEmpty(v) && ParseInteger(v) == Parsed(VInt(i))
  {
    SignedIsTrimmed(i);
    Decimal.ReadIntOfSigned(i);
  }

  lemma PercentCell(x: Floats.Float)
    ensures var v := RStr(E.PrintPercent(x));
      && !IsEmpty(v)
      && (ParsePercent(v) == Parsed(VFloat(x)) <==> FourDecimals(x))
      && (ParsePercentRatio(v) == Parsed(VFloat(x)) <==> FourDecimals(x) && Floats.AtMost(x, 1))
  {
    E.PercentSurvivesExactly(x);
  }

  lemma SizeCell(s: E.Size)
    ensures var v := RStr(E.PrintSize(s));
      !IsEmpty(v) && (ParseSizeMm(v) == Parsed(VSize(s)) <==> SixDigits(s.0) && SixDigits(s.1) && SixDigits(s.2))
  {
    E.SizeSurvivesExactly(s);
    SizeIsFilled(s);
  }

  lemma SizeIsFilled(s: E.Size)
    ensures Strip(E.PrintSize(s)) != ""
  {
    E.GeneralReads(s.0);
    E.JoinStarts([Floats.General(s.0), Floats.General(s.1), Floats.General(s.2)], 'x');
  }

  lemma FlagCell(b: bool)
    ensures var v := RStr(E.PrintFlag(b)); !IsEmpty(v) && ParseBool(v) == Parsed(VBool(b))
  {
    E.FlagSurvives(b);
  }

  lemma StampCellSurvives(s: E.Stamp)
    ensures var v := RStr(PrintStamp(s)); !IsEmpty(v) && ParseStamp(v) == Parsed(VStamp(s.0, s.1))
  {
    E.StampTextReads(s.0, s.1);
  }

  lemma EntryReads(codes: E.Table, i: nat)
    requires E.Vocabulary(codes) && i < |codes|
    ensures Strip(codes[i].0) != "" && E.ParseEnum(codes, codes[i].0) == Some(codes[i].1)
  {
    assert codes[i] in codes && E.Plain(codes[i].0);
    E.EnumSurvives(codes, codes[i].0, codes[i].1);
  }

  lemma CodeParserParses(t: E.CodeTable, v: RawVal)
    ensures CodeParser(t)(v) == ParseCode(t, v)
  {
  }

  lemma CodeCell(m: Member)
    ensures var e := E.CodesIn(m.table)[m.index];
      !IsEmpty(RStr(e.0)) && CodeParser(m.table)(RStr(e.0)) == Parsed(VMember(e.1))
  {
    E.TablesAreVocabularies(m.table);
    EntryReads(E.CodesIn(m.table), m.index);
    CodeParserParses(m.table, RStr(E.CodesIn(m.table)[m.index].0));
  }

  lemma RouteCell(route: seq<Process>)
    ensures var v, values := RStr(E.Join(Codes(route), E.ROUTE_SEPARATOR)), Values(route);
      ParseRoute(v) == Parsed(VRoute(values)) && (IsEmpty(v) ==> values == [])
  {
    E.TablesAreVocabularies(E.PROCESS);
    E.RouteSurvives(E.CodesIn(E.PROCESS), route);
    BlankRoute(E.Join(Codes(route), E.ROUTE_SEPARATOR));
  }

  lemma ProcessesCell(members: seq<Process>)
    ensures var v, all := RStr(E.PrintStrSet(Codes(members))), set v | v in Values(members);
      ParseProcessSet(v) == Parsed(VMembers(all)) && (IsEmpty(v) ==> all == {})
  {
    E.TablesAreVocabularies(E.PROCESS);
    E.ProcessSetSurvives(E.CodesIn(E.PROCESS), members);
    BlankRoute(E.PrintStrSet(Codes(members)));
  }

  /** A blank text parses to an empty list, which is what the fallback says. */
  lemma BlankRoute(text: string)
    requires E.ParseRoute(E.CodesIn(E.PROCESS), text).Some?
    ensures Strip(text) == "" ==> E.ParseRoute(E.CodesIn(E.PROCESS), text) == Some([])
  {
    if Strip(text) == "" {
      BlankIsSpaces(text);
      assert forall i :: 0 <= i < |text| ==> text[i] in text && IsSpace(text[i]);
      assert E.Replaced(text, E.ROUTE_SEPARATOR, E.LIST_SEPARATOR) == text;
      BlankHasNoValues(text);
    }
  }

  lemma BlankHasNoValues(text: string)
    requires Strip(text) == ""
    ensures E.ParseStrList(text) == []
  {
    BlankIsSpaces(text);
    E.SplitPlain(text, E.LIST_SEPARATOR);
    assert [text][1..] == [];
    assert E.Tokens([text]) == E.Tokens([]);
  }

  lemma TextsCell(values: seq<string>)
    ensures var v, all := RStr(E.PrintStrSet(values)), set t | t in values;
      && (ParseTexts(v) == Parsed(VTexts(all)) <==> forall t :: t in values ==> E.Clean(t))
      && (IsEmpty(v) ==> ParseTexts(v) == Parsed(VTexts({})))
  {
    E.StrSetSurvivesExactly(values);
    if Strip(E.PrintStrSet(values)) == "" {
      BlankHasNoValues(E.PrintStrSet(values));
      assert (set t | t in StrList(RStr(E.PrintStrSet(values)))) == {};
    }
  }

  lemma NumbersCell(cs: Cycles)
    ensures var v := RStr(E.PrintCycles(cs));
      && (ParseNumbers(v) == Parsed(VNumbers(E.AsMap(cs))) <==> forall c :: c in cs ==> E.CleanKey(c.0))
      && (IsEmpty(v) ==> ParseNumbers(v) == Parsed(VNumbers(map[])))
  {
    E.CyclesSurviveExactly(cs);
    if Strip(E.PrintCycles(cs)) == "" {
      BlankHasNoValues(E.PrintCycles(cs));
    }
  }

  lemma WindowsCell(ws: seq<E.TimeWindow>)
    ensures ParseWindows(RList(PrintWindows(ws))) == Parsed(VWindows(ws))
  {
    WindowsSurvive(ws);
  }

  lemma DatesCell(ds: seq<IsoTime.Date>)
    ensures ParseDates(RList(PrintDates(ds))) == Parsed(VDates(ds))
  {
    DatesSurvive(ds);
  }

  lemma ShiftsCell(ss: seq<E.WeekShift>)
    ensures ParseShifts(RList(PrintShifts(ss))) == Parsed(VShifts(ss)) <==> forall s :: s in ss ==> ShiftCarried(s)
  {
    ShiftsSurviveExactly(ss, 1);
  }

  predicate TextKind(k: Kind) {
    k.RequiredText? || k.KeyText? || k.OptionalText? || k.DefaultedText?
  }

  lemma TextColumn(k: Kind)
    requires TextKind(k)
    ensures GivesBack(FormatOf(k)) <==> Carried(k)
  {
  }

  lemma NumberGivesBack(x: Option<Floats.Float>)
    ensures GivesBack(NumberFormat(x))
  {
    if x.Some? { NumberCell(x.value); }
  }

  lemma RankGivesBack(i: Option<int>)
    ensures GivesBack(RankFormat(i))
  {
    if i.Some? { RankCell(i.value); }
  }

  lemma PercentGivesBackExactly(x: Floats.Float)
    ensures GivesBack(PercentFormat(x)) <==> FourDecimals(x)
  {
    PercentCell(x);
  }

  predicate RatioCarried(x: Option<Floats.Float>) {
    x.Some? ==> FourDecimals(x.value) && Floats.AtMost(x.value, 1)
  }

  lemma RatioGivesBackExactly(x: Option<Floats.Float>)
    ensures GivesBack(RatioFormat(x)) <==> RatioCarried(x)
  {
    if x.Some? { PercentCell(x.value); }
  }

  predicate SizeCarried(size: Option<E.Size>) {
    size.Some? ==> SixDigits(size.value.0) && SixDigits(size.value.1) && SixDigits(size.value.2)
  }

  lemma SizeGivesBackExactly(size: Option<E.Size>)
    ensures GivesBack(SizeFormat(size)) <==> SizeCarried(size)
  {
    if size.Some? { SizeCell(size.value); }
  }

  lemma FlagGivesBack(b: bool, normally: bool)
    ensures GivesBack(FlagFormat(b, normally))
  {
    FlagCell(b);
  }

  lemma MomentGivesBack(stamp: Option<E.Stamp>)
    ensures GivesBack(MomentFormat(stamp))
  {
    if stamp.Some? { StampCellSurvives(stamp.value); }
  }

  lemma CodeGivesBack(m: Member, unknown: string)
    ensures GivesBack(CodeFormat(m, unknown))
  {
    CodeCell(m);
  }

  lemma RouteGivesBack(route: seq<Process>)
    ensures GivesBack(RouteFormat(route))
  {
    RouteCell(route);
  }

  lemma ProcessesGiveBack(members: seq<Process>)
    ensures GivesBack(ProcessesFormat(members))
  {
    ProcessesCell(members);
  }

  lemma TextsGiveBackExactly(texts: seq<string>)
    ensures GivesBack(TextsFormat(texts)) <==> forall t :: t in texts ==> E.Clean(t)
  {
    TextsCell(texts);
  }

  lemma NumbersGiveBackExactly(cycles: Cycles)
    ensures GivesBack(NumbersFormat(cycles)) <==> forall c :: c in cycles ==> E.CleanKey(c.0)
  {
    NumbersCell(cycles);
  }

  lemma WindowsGiveBack(windows: seq<E.TimeWindow>)
    ensures GivesBack(WindowsFormat(windows))
  {
    WindowsCell(windows);
  }

  lemma DatesGiveBack(dates: seq<IsoTime.Date>)
    ensures GivesBack(DatesFormat(dates))
  {
    DatesCell(dates);
  }

  lemma ShiftsGiveBackExactly(shifts: seq<E.WeekShift>)
    ensures GivesBack(ShiftsFormat(shifts)) <==> forall s :: s in shifts ==> ShiftCarried(s)
  {
    ShiftsCell(shifts);
  }

  /** The formats that have their own functions. */
  lemma FormatIs(k: Kind)
    ensures match k
            case Number(x) => FormatOf(k) == NumberFormat(x)
            case Rank(i) => FormatOf(k) == RankFormat(i)
            case Percent(x) => FormatOf(k) == PercentFormat(x)
            case Ratio(x) => FormatOf(k) == RatioFormat(x)
            case Measures(size) => FormatOf(k) == SizeFormat(size)
            case Flag(b, normally) => FormatOf(k) == FlagFormat(b, normally)
            case Moment(stamp) => FormatOf(k) == MomentFormat(stamp)
            case Code(m, unknown) => FormatOf(k) == CodeFormat(m, unknown)
            case Route(route) => FormatOf(k) == RouteFormat(route)
            case Processes(members) => FormatOf(k) == ProcessesFormat(members)
            case Texts(texts) => FormatOf(k) == TextsFormat(texts)
            case Numbers(cycles) => FormatOf(k) == NumbersFormat(cycles)
            case Windows(windows) => FormatOf(k) == WindowsFormat(windows)
            case Dates(dates) => FormatOf(k) == DatesFormat(dates)
            case Shifts(shifts) => FormatOf(k) == ShiftsFormat(shifts)
            case _ => true
  {
  }

  lemma FormatGivesBackExactly(k: Kind)
    ensures GivesBack(FormatOf(k)) <==> Carried(k)
  {
    FormatIs(k);
    match k
    case Quantity(_) =>
    case Integer(_, _, _) =>
    case Number(x) => NumberGivesBack(x);
    case Rank(i) => RankGivesBack(i);
    case Percent(x) => PercentGivesBackExactly(x);
    case Ratio(x) => RatioGivesBackExactly(x);
    case Measures(size) => SizeGivesBackExactly(size);
    case Flag(b, normally) => FlagGivesBack(b, normally);
    case Moment(stamp) => MomentGivesBack(stamp);
    case Code(m, unknown) => CodeGivesBack(m, unknown);
    case Route(route) => RouteGivesBack(route);
    case Processes(members) => ProcessesGiveBack(members);
    case Texts(texts) => TextsGiveBackExactly(texts);
    case Numbers(cycles) => NumbersGiveBackExactly(cycles);
    case Windows(windows) => WindowsGiveBack(windows);
    case Dates(dates) => DatesGiveBack(dates);
    case Shifts(shifts) => ShiftsGiveBackExactly(shifts);
    case _ => TextColumn(k);
  }

  /** For every kind of column: the attribute comes back, without an issue, exactly when the column carries it. */
  lemma ColumnSurvivesExactly(c: Column)
    ensures Restored(c) <==> Carried(c.kind)
  {
    RestoredByFormat(c);
    FormatGivesBackExactly(c.kind);
  }

  // ------------------------------------------------------------------ records

  /** The field table. */
  function Fields(cols: seq<Column>): (r: seq<FieldMap>)
    ensures |r| == |cols|
  {
    seq(|cols|, i requires 0 <= i < |cols| => FieldOf(cols[i]))
  }

  /** The payload dictionary, column by column. */
  function PayloadOf(cols: seq<Column>): Payload {
    if cols == [] then map[]
    else PayloadOf(cols[..|cols| - 1])[cols[|cols| - 1].source := FormatOf(cols[|cols| - 1].kind).cell]
  }

  /** The payload has the cell of every column. */
  ghost predicate Prints(p: Payload, cols: seq<Column>) {
    forall i :: 0 <= i < |cols| ==> Cell(p, cols[i].source) == FormatOf(cols[i].kind).cell
  }

  ghost predicate DistinctNames(cols: seq<Column>) {
    && (forall i, j :: 0 <= i < j < |cols| ==> cols[i].source != cols[j].source)
    && (forall i, j :: 0 <= i < j < |cols| ==> cols[i].target != cols[j].target)
  }

  predicate AllCarried(cols: seq<Column>) {
    forall i :: 0 <= i < |cols| ==> Carried(cols[i].kind)
  }

  /** The mapped fields are the attributes of these columns. */
  predicate Holds(fields: map<string, Value>, cols: seq<Column>) {
    forall i :: 0 <= i < |cols| ==> Get(fields, cols[i].target) == FormatOf(cols[i].kind).attribute
  }

  lemma {:induction false} PayloadPrints(cols: seq<Column>)
    requires DistinctNames(cols)
    ensures Prints(PayloadOf(cols), cols)
  {
    if cols != [] {
      var front, last := cols[..|cols| - 1], cols[|cols| - 1];
      PayloadPrints(front);
      forall i | 0 <= i < |front| ensures Cell(PayloadOf(cols), front[i].source) == FormatOf(front[i].kind).cell {
        assert front[i] == cols[i] && cols[i].source != last.source;
      }
    }
  }

  lemma {:induction false} NoIssueExactly(entity: string, externalId: string, p: Payload, maps: seq<FieldMap>)
    ensures MapIssues(entity, externalId, p, maps) == [] <==>
            forall i :: 0 <= i < |maps| ==> FieldIssue(Cell(p, maps[i].source), maps[i]).None?
  {
    if maps != [] {
      NoIssueExactly(entity, externalId, p, maps[..|maps| - 1]);
      assert forall i :: 0 <= i < |maps| - 1 ==> maps[..|maps| - 1][i] == maps[i];
    }
  }

  lemma FieldOfColumn(p: Payload, cols: seq<Column>, i: nat)
    requires Prints(p, cols) && DistinctNames(cols) && i < |cols|
    ensures Get(MapFields(p, Fields(cols)), cols[i].target) == FieldValue(FormatOf(cols[i].kind).cell, FieldOf(cols[i]))
  {
    FieldFromOwnCell(p, Fields(cols), i);
  }

  /**
   * A printed record maps without an issue to the attributes it was printed from exactly when every
   * column carries its own.
   */
  lemma ColumnsSurviveExactly(entity: string, externalId: string, p: Payload, cols: seq<Column>)
    requires Prints(p, cols) && DistinctNames(cols)
    ensures MapIssues(entity, externalId, p, Fields(cols)) == [] && Holds(MapFields(p, Fields(cols)), cols)
            <==> AllCarried(cols)
  {
    NoIssueExactly(entity, externalId, p, Fields(cols));
    assert forall i :: 0 <= i < |cols| ==> Fields(cols)[i] == FieldOf(cols[i]);
    forall i | 0 <= i < |cols|
      ensures (FieldIssue(Cell(p, cols[i].source), FieldOf(cols[i])).None?
               && Get(MapFields(p, Fields(cols)), cols[i].target) == FormatOf(cols[i].kind).attribute)
              <==> Carried(cols[i].kind)
    {
      FieldOfColumn(p, cols, i);
      ColumnSurvivesExactly(cols[i]);
    }
  }

  /** Only the targets of the table get a value. */
  lemma {:induction false} KeysAreTargets(p: Payload, maps: seq<FieldMap>)
    ensures forall k :: k in MapFields(p, maps) ==> exists i :: 0 <= i < |maps| && maps[i].target == k
  {
    if maps != [] {
      var front := maps[..|maps| - 1];
      KeysAreTargets(p, front);
      forall k | k in MapFields(p, maps) ensures exists i :: 0 <= i < |maps| && maps[i].target == k {
        if k in MapFields(p, front) {
          var i :| 0 <= i < |front| && front[i].target == k;
          assert maps[i].target == k;
        } else {
          assert maps[|maps| - 1].target == k;
        }
      }
    }
  }

  /** A record that maps without an issue is usable. */
  lemma CleanIsUsable(entity: string, maps: seq<FieldMap>, r: Record)
    requires RecordIssues(entity, maps, r) == []
    ensures Usable(entity, maps, r)
  {
    UnusableIsReported(entity, maps, r);
  }

  // -------------------------------------------------------------- one table

  /** Two columns of one kind that differ only in what they hold. */
  predicate SameShape(j: Kind, k: Kind) {
    match j
    case RequiredText(_) => k.RequiredText?
    case KeyText(_, _) => k.KeyText?
    case OptionalText(_) => k.OptionalText?
    case DefaultedText(_, default) => k.DefaultedText? && k.default == default
    case Quantity(_) => k.Quantity?
    case Number(_) => k.Number?
    case Integer(_, required, otherwise) => k.Integer? && k.required == required && k.otherwise == otherwise
    case Rank(_) => k.Rank?
    case Percent(_) => k.Percent?
    case Ratio(_) => k.Ratio?
    case Measures(_) => k.Measures?
    case Flag(_, normally) => k.Flag? && k.normally == normally
    case Moment(_) => k.Moment?
    case Code(m, unknown) => k.Code? && k.member.table == m.table && k.unknown == unknown
    case Route(_) => k.Route?
    case Processes(_) => k.Processes?
    case Texts(_) => k.Texts?
    case Numbers(_) => k.Numbers?
    case Windows(_) => k.Windows?
    case Dates(_) => k.Dates?
    case Shifts(_) => k.Shifts?
  }

  ghost predicate SameTable(a: seq<Column>, b: seq<Column>) {
    && |a| == |b|
    && forall i :: 0 <= i < |a| ==>
         a[i].source == b[i].source && a[i].target == b[i].target && SameShape(a[i].kind, b[i].kind)
  }

  lemma SameShapeSameField(j: Kind, k: Kind)
    requires SameShape(j, k)
    ensures var f, g := FormatOf(j), FormatOf(k);
            f.parser == g.parser && f.required == g.required && f.fallback == g.fallback
  {
  }

  /** The field table does not depend on what the columns hold. */
  lemma OneFieldTable(a: seq<Column>, b: seq<Column>)
    requires SameTable(a, b)
    ensures Fields(a) == Fields(b)
  {
    forall i | 0 <= i < |a| ensures FieldOf(a[i]) == FieldOf(b[i]) {
      SameShapeSameField(a[i].kind, b[i].kind);
    }
  }
}

/**
 * The value parsers on raw cells (backend/app/integration/parsers.py, field_maps.py), and the nested
 * cells that the export prints (backend/app/integration/mock_connector.py).
 */
module ErpParsers {
  import opened Prelude
  import opened Sorting
  import Decimal
  import E = ErpFormats
  import Floats
  import IsoTime
  import opened Normalizer

  function Checked(v: Option<Value>): Parsed {
    match v
    case Some(value) => Parsed(value)
    case None => InvalidValue
  }

  // ------------------------------------------------------------------ scalars

  function ReadInteger(v: RawVal): Option<int> {
    match v
    case RInt(i) => Some(i)
    case RFloat(f) => if Floats.Whole(f) then Some(Floats.AsInt(f)) else None
    case RStr(s) => if Decimal.IsIntText(Strip(s)) then Some(Decimal.ReadInt(Strip(s))) else None
    case _ => None
  }

  function ParseInteger(v: RawVal): Parsed {
    match ReadInteger(v)
    case Some(i) => Parsed(VInt(i))
    case None => InvalidValue
  }

  function ReadNumber(v: RawVal): Option<Floats.Float> {
    match v
    case RBool(_) => None
    case RInt(i) => Some(Floats.Normal(i, 0))
    case RFloat(f) => Some(f)
    case _ => E.ParseNumber(Text(v))
  }

  function FloatOf(n: Option<Floats.Float>): Parsed {
    match n
    case Some(f) => Parsed(VFloat(f))
    case None => InvalidValue
  }

  function ParseFloat(v: RawVal): Parsed {
    FloatOf(ReadNumber(v))
  }

  function ParsePercent(v: RawVal): Parsed {
    FloatOf(E.PercentOf(ReadNumber(v)))
  }

  function ParsePercentRatio(v: RawVal): Parsed {
    FloatOf(E.RatioOf(ReadNumber(v)))
  }

  function ParseBool(v: RawVal): Parsed {
    match v
    case RBool(b) => Parsed(VBool(b))
    case RInt(i) => Parsed(VBool(i != 0))
    case RFloat(f) => Parsed(VBool(f != Floats.ZERO))
    case _ =>
      match E.ParseFlag(Text(v))
      case Some(b) => Parsed(VBool(b))
      case None => InvalidValue
  }

  function ParseStamp(v: RawVal): Parsed {
    match E.ParseStamp(Text(v))
    case Some((d, t)) => Parsed(VStamp(d, t))
    case None => InvalidValue
  }

  function ParseCode(t: E.CodeTable, v: RawVal): Parsed {
    match E.ParseEnum(E.CodesIn(t), Text(v))
    case Some(member) => Parsed(VMember(member))
    case None => UnknownCode
  }

  function ParseProcess(v: RawVal): Parsed { ParseCode(E.PROCESS, v) }
  function ParseOrderStatus(v: RawVal): Parsed { ParseCode(E.ORDER_STATUS, v) }
  function ParseOperationStatus(v: RawVal): Parsed { ParseCode(E.OPERATION_STATUS, v) }
  function ParseMachineStatus(v: RawVal): Parsed { ParseCode(E.MACHINE_STATUS, v) }
  function ParseMaterialStatus(v: RawVal): Parsed { ParseCode(E.MATERIAL_STATUS, v) }
  function ParseQualityStatus(v: RawVal): Parsed { ParseCode(E.QUALITY_STATUS, v) }
  function ParseShippingStatus(v: RawVal): Parsed { ParseCode(E.SHIPPING_STATUS, v) }

  // -------------------------------------------------------------- collections

  function ItemsOf(items: seq<RawVal>): seq<string> {
    if items == [] then []
    else (if IsEmpty(items[0]) then [] else [Strip(Text(items[0]))]) + ItemsOf(items[1..])
  }

  function StrList(v: RawVal): seq<string> {
    if v.RList? then ItemsOf(v.items) else E.ParseStrList(Text(v))
  }

  function ParseTexts(v: RawVal): Parsed {
    Parsed(VTexts(set t | t in StrList(v)))
  }

  function NumbersOf(entries: seq<(string, RawVal)>): Option<map<string, Floats.Float>> {
    if entries == [] then Some(map[])
    else
      var front, last := NumbersOf(entries[..|entries| - 1]), entries[|entries| - 1];
      if front.None? || ReadNumber(last.1).None? then None else Some(front.value[last.0 := ReadNumber(last.1).value])
  }

  function ParseNumbers(v: RawVal): Parsed {
    match if v.RDict? then NumbersOf(v.entries) else E.ParseCycles(StrList(v))
    case Some(m) => Parsed(VNumbers(m))
    case None => InvalidValue
  }

  function ReadSize(v: RawVal): Option<E.Size> {
    if v.RList? && |v.items| == 3 then
      match (ReadNumber(v.items[0]), ReadNumber(v.items[1]), ReadNumber(v.items[2]))
      case (Some(a), Some(b), Some(c)) => Some((a, b, c))
      case _ => None
    else E.ParseSize(Text(v))
  }

  function ParseSizeMm(v: RawVal): Parsed {
    match ReadSize(v)
    case Some(size) => Parsed(VSize(size))
    case None => InvalidValue
  }

  function ParseRoute(v: RawVal): Parsed {
    match E.ParseRoute(E.CodesIn(E.PROCESS), Text(v))
    case Some(route) => Parsed(VRoute(route))
    case None => UnknownCode
  }

  function ParseProcessSet(v: RawVal): Parsed {
    match E.ParseRoute(E.CodesIn(E.PROCESS), Text(v))
    case Some(route) => Parsed(VMembers(set p | p in route))
    case None => UnknownCode
  }

  function DatesOf(texts: seq<string>): Option<seq<IsoTime.Date>> {
    if texts == [] then Some([])
    else
      var date, rest := E.ParseDate(texts[0]), DatesOf(texts[1..]);
      if date.None? || rest.None? then None else Some([date.value] + rest.value)
  }

  function ParseDates(v: RawVal): Parsed {
    match DatesOf(StrList(v))
    case Some(dates) => Parsed(VDates(dates))
    case None => InvalidValue
  }

  // --------------------------------------------------------- windows and shifts

  predicate Truthy(v: RawVal) {
    match v
    case RNull => false
    case RStr(s) => s != ""
    case RInt(i) => i != 0
    case RBool(b) => b
    case RFloat(f) => f != Floats.ZERO
    case RList(items) => items != []
    case RDict(entries) => entries != []
  }

  function Entry(entries: seq<(string, RawVal)>, key: string): Option<RawVal> {
    if entries == [] then None
    else if entries[0].0 == key then Some(entries[0].1)
    else Entry(entries[1..], key)
  }

  /** `item.get(upper) or item.get(lower)`. */
  function Either(entries: seq<(string, RawVal)>, upper: string, lower: string): RawVal {
    var v := Entry(entries, upper).GetOr(RNull);
    if Truthy(v) then v else Entry(entries, lower).GetOr(RNull)
  }

  function ReadWindow(v: RawVal): Option<E.TimeWindow> {
    if !v.RDict? then None
    else
      var start := E.ParseStamp(Text(Either(v.entries, "START", "start")));
      var end := E.ParseStamp(Text(Either(v.entries, "END", "end")));
      var reason := Either(v.entries, "REASON", "reason");
      if start.None? || end.None? || !IsoTime.StampLeq(start.value, end.value) then None
      else Some(E.Window(start.value, end.value, if Truthy(reason) then Text(reason) else ""))
  }

  function ReadWindows(items: seq<RawVal>): Option<seq<E.TimeWindow>> {
    if items == [] then Some([])
    else
      var window, rest := ReadWindow(items[0]), ReadWindows(items[1..]);
      if window.None? || rest.None? then None else Some([window.value] + rest.value)
  }

  function ParseWindows(v: RawVal): Parsed {
    if !v.RList? then InvalidValue
    else match ReadWindows(v.items)
      case Some(windows) => Parsed(VWindows(windows))
      case None => InvalidValue
  }

  function IntLeq(a: int, b: int): bool { a <= b }

  /** The integers of a list in ascending order, each once; None when one does not parse. */
  function DayNumbers(items: seq<RawVal>): Option<seq<int>> {
    if items == [] then Some([])
    else
      var day, rest := ReadInteger(items[0]), DayNumbers(items[1..]);
      if day.None? || rest.None? then None
      else if day.value in rest.value then rest
      else Some(Insert(IntLeq, day.value, rest.value))
  }

  const WORKING_WEEK: seq<int> := [0, 1, 2, 3, 4]

  function ReadDays(v: RawVal): Option<seq<int>> {
    if IsEmpty(v) then Some(WORKING_WEEK)
    else if v.RList? then DayNumbers(v.items)
    else match E.ParseShiftDays(Text(v))
      case Some(days) => Some(days)
      case None => None
  }

  /** `place` counts from one. */
  function ReadShift(v: RawVal, place: nat): Option<E.Shift> {
    if !v.RDict? then None
    else
      var name := Either(v.entries, "NAME", "name");
      var start := IsoTime.ReadClock(Strip(Text(Either(v.entries, "START", "start"))));
      var end := IsoTime.ReadClock(Strip(Text(Either(v.entries, "END", "end"))));
      var days := ReadDays(Entry(v.entries, "DAYS").GetOr(Entry(v.entries, "days").GetOr(RNull)));
      if start.None? || end.None? || days.None? then None
      else Some(E.Shift(if Truthy(name) then Text(name) else "Shift " + Decimal.Digits(place),
                        start.value, end.value, days.value))
  }

  function ReadShifts(items: seq<RawVal>, place: nat): Option<seq<E.Shift>> {
    if items == [] then Some([])
    else
      var shift, rest := ReadShift(items[0], place), ReadShifts(items[1..], place + 1);
      if shift.None? || rest.None? then None else Some([shift.value] + rest.value)
  }

  function ParseShifts(v: RawVal): Parsed {
    if !v.RList? then InvalidValue
    else match ReadShifts(v.items, 1)
      case Some(shifts) => Parsed(VShifts(shifts))
      case None => InvalidValue
  }

  // ------------------------------------------------------------ nested printing

  function StampCell(s: E.Stamp): RawVal {
    RStr(IsoTime.StampText(s.0, s.1))
  }

  function PrintWindow(w: E.TimeWindow): RawVal {
    RDict([("START", StampCell(w.start)), ("END", StampCell(w.end)), ("REASON", RStr(w.reason))])
  }

  function PrintWindows(ws: seq<E.TimeWindow>): seq<RawVal> {
    if ws == [] then [] else [PrintWindow(ws[0])] + PrintWindows(ws[1..])
  }

  function PrintShift(s: E.WeekShift): RawVal {
    RDict([("NAME", RStr(s.name)), ("START", RStr(IsoTime.MinuteText(s.start))),
           ("END", RStr(IsoTime.MinuteText(s.end))), ("DAYS", RStr(E.PrintDays(s.days)))])
  }

  function PrintShifts(ss: seq<E.WeekShift>): seq<RawVal> {
    if ss == [] then [] else [PrintShift(ss[0])] + PrintShifts(ss[1..])
  }

  function PrintDates(ds: seq<IsoTime.Date>): seq<RawVal> {
    if ds == [] then [] else [RStr(IsoTime.DateText(ds[0]))] + PrintDates(ds[1..])
  }

  // -------------------------------------------------------------- round trips

  lemma WindowEntries(w: E.TimeWindow)
    ensures var entries := PrintWindow(w).entries;
      && Entry(entries, "START") == Some(StampCell(w.start))
      && Entry(entries, "END") == Some(StampCell(w.end))
      && Entry(entries, "REASON") == Some(RStr(w.reason))
      && Entry(entries, "reason") == None
  {
    var entries := PrintWindow(w).entries;
    assert entries[1..][1..] == entries[2..] && entries[2..][1..] == [];
    assert Entry(entries[2..], "REASON") == Some(RStr(w.reason));
    assert Entry(entries[1..], "END") == Some(StampCell(w.end));
    assert Entry(entries[2..], "reason") == None;
  }

  lemma StampCellReads(s: E.Stamp)
    ensures Truthy(StampCell(s)) && E.ParseStamp(Text(StampCell(s))) == Some(s)
  {
    E.StampTextReads(s.0, s.1);
  }

  lemma WindowSurvives(w: E.TimeWindow)
    ensures ReadWindow(PrintWindow(w)) == Some(w)
  {
    WindowEntries(w);
    StampCellReads(w.start);
    StampCellReads(w.end);
  }

  lemma WindowsStep(v: RawVal, rest: seq<RawVal>, w: E.TimeWindow, ws: seq<E.TimeWindow>)
    requires ReadWindow(v) == Some(w) && ReadWindows(rest) == Some(ws)
    ensures ReadWindows([v] + rest) == Some([w] + ws)
  {
    assert ([v] + rest)[1..] == rest;
  }

  lemma PrintedWindows(ws: seq<E.TimeWindow>)
    requires ws != []
    ensures PrintWindows(ws) == [PrintWindow(ws[0])] + PrintWindows(ws[1..])
  {
  }

  /** Windows survive always: their order of times is the domain's own invariant. */
  lemma {:induction false} WindowsSurvive(ws: seq<E.TimeWindow>)
    ensures ReadWindows(PrintWindows(ws)) == Some(ws)
  {
    if ws != [] {
      WindowSurvives(ws[0]);
      WindowsSurvive(ws[1..]);
      PrintedWindows(ws);
      WindowsStep(PrintWindow(ws[0]), PrintWindows(ws[1..]), ws[0], ws[1..]);
      HeadAndTail(ws);
    }
  }

  lemma HeadAndTail<T>(xs: seq<T>)
    requires xs != []
    ensures xs == [xs[0]] + xs[1..]
  {
  }

  predicate ShiftCarried(s: E.WeekShift) {
    && s.name != ""
    && s.start.second == 0 && s.start.micro == 0 && s.end.second == 0 && s.end.micro == 0
    && s.days != [] && E.StrictlyAscending(s.days)
  }

  lemma ShiftEntries(s: E.WeekShift)
    ensures var entries := PrintShift(s).entries;
      && Entry(entries, "NAME") == Some(RStr(s.name))
      && Entry(entries, "START") == Some(RStr(IsoTime.MinuteText(s.start)))
      && Entry(entries, "END") == Some(RStr(IsoTime.MinuteText(s.end)))
      && Entry(entries, "DAYS") == Some(RStr(E.PrintDays(s.days)))
      && Entry(entries, "name") == None
  {
    var entries := PrintShift(s).entries;
    assert entries[1..][1..] == entries[2..] && entries[2..][1..] == entries[3..] && entries[3..][1..] == [];
    assert Entry(entries[3..], "DAYS") == Some(RStr(E.PrintDays(s.days)));
    assert Entry(entries[2..], "END") == Some(RStr(IsoTime.MinuteText(s.end)));
    assert Entry(entries[2..], "DAYS") == Entry(entries[3..], "DAYS");
    assert Entry(entries[3..], "name") == None && Entry(entries[2..], "name") == None;
  }

  lemma ClockReads(t: IsoTime.Time)
    ensures IsoTime.MinuteText(t) != "" && Strip(IsoTime.MinuteText(t)) == IsoTime.MinuteText(t)
    ensures IsoTime.ReadClock(Strip(IsoTime.MinuteText(t))) == Some(t.(second := 0, micro := 0))
  {
    IsoTime.MinutesSurviveExactly(t);
    var text := IsoTime.MinuteText(t);
    assert !IsSpace(text[0]) && !IsSpace(text[|text| - 1]);
    assert Strip(text) == text;
  }

  lemma DaysRead(days: seq<E.Weekday>)
    ensures ReadDays(RStr(E.PrintDays(days))).Some?
    ensures ReadDays(RStr(E.PrintDays(days))) == Some(days) <==> days != [] && E.StrictlyAscending(days)
  {
    E.ShiftDaysSurviveExactly(days);
    if days != [] {
      E.PrintedDaysParse(days);
    }
  }

  /** A shift survives exactly when it has a name, whole minutes and its weekdays in order. */
  lemma ShiftSurvivesExactly(s: E.WeekShift, place: nat)
    ensures ReadShift(PrintShift(s), place).Some?
    ensures ReadShift(PrintShift(s), place) == Some(s) <==> ShiftCarried(s)
  {
    ShiftEntries(s);
    ClockReads(s.start);
    ClockReads(s.end);
    DaysRead(s.days);
  }

  lemma ShiftsStep(v: RawVal, rest: seq<RawVal>, place: nat, s: E.Shift, ss: seq<E.Shift>)
    requires ReadShift(v, place) == Some(s) && ReadShifts(rest, place + 1) == Some(ss)
    ensures ReadShifts([v] + rest, place) == Some([s] + ss)
  {
    assert ([v] + rest)[1..] == rest;
  }

  lemma ConsEqual<T>(x: T, xs: seq<T>, ys: seq<T>)
    requires ys != []
    ensures [x] + xs == ys <==> x == ys[0] && xs == ys[1..]
  {
    assert ys == [ys[0]] + ys[1..];
    assert ([x] + xs)[0] == x && ([x] + xs)[1..] == xs;
  }

  lemma {:induction false} ShiftsSurviveExactly(ss: seq<E.WeekShift>, place: nat)
    ensures ReadShifts(PrintShifts(ss), place).Some?
    ensures ReadShifts(PrintShifts(ss), place) == Some(ss) <==> forall s :: s in ss ==> ShiftCarried(s)
  {
    if ss != [] {
      ShiftSurvivesExactly(ss[0], place);
      ShiftsSurviveExactly(ss[1..], place + 1);
      var first, rest := ReadShift(PrintShift(ss[0]), place).value, ReadShifts(PrintShifts(ss[1..]), place + 1).value;
      ShiftsStep(PrintShift(ss[0]), PrintShifts(ss[1..]), place, first, rest);
      ConsEqual(first, rest, ss);
      assert forall s :: s in ss <==> s == ss[0] || s in ss[1..];
    }
  }

  lemma DatesStep(text: string, rest: seq<RawVal>, d: IsoTime.Date, ds: seq<IsoTime.Date>)
    requires Strip(text) == text != "" && E.ParseDate(text) == Some(d) && DatesOf(ItemsOf(rest)) == Some(ds)
    ensures DatesOf(ItemsOf([RStr(text)] + rest)) == Some([d] + ds)
  {
    assert ([RStr(text)] + rest)[1..] == rest;
    assert ItemsOf([RStr(text)] + rest) == [text] + ItemsOf(rest);
    assert ([text] + ItemsOf(rest))[1..] == ItemsOf(rest);
  }

  lemma {:induction false} DatesSurvive(ds: seq<IsoTime.Date>)
    ensures DatesOf(ItemsOf(PrintDates(ds))) == Some(ds)
  {
    if ds != [] {
      E.DateTextReads(ds[0]);
      DatesSurvive(ds[1..]);
      DatesStep(IsoTime.DateText(ds[0]), PrintDates(ds[1..]), ds[0], ds[1..]);
      HeadAndTail(ds);
    }
  }
}

/**
 * From raw ERP records to orders and operations: mapping, identifiers and accounting
 * (backend/app/integration/normalizer.py, codes.py, parsers.py, field_maps.py).
 */
module Normalizer {
  import opened Prelude
  import Decimal
  import E = ErpFormats
  import Floats
  import IsoTime

  /** A raw cell; a mapping lists its entries in order. */
  datatype RawVal =
    | RNull
    | RStr(s: string)
    | RInt(i: int)
    | RBool(b: bool)
    | RFloat(f: Floats.Float)
    | RList(items: seq<RawVal>)
    | RDict(entries: seq<(string, RawVal)>)

  type Payload = map<string, RawVal>

  /** A record as the connector delivered it; `payload` is None when it is not a mapping. */
  datatype Record = Record(entity: string, externalId: string, payload: Option<Payload>)

  /** A mapped field. */
  datatype Value =
    | VText(s: string)
    | VInt(n: int)
    | VFloat(f: Floats.Float)
    | VBool(b: bool)
    | VMember(member: string)
    | VStamp(date: IsoTime.Date, time: IsoTime.Time)
    | VTexts(texts: set<string>)
    | VMembers(members: set<string>)
    | VRoute(route: seq<string>)
    | VNumbers(numbers: map<string, Floats.Float>)
    | VSize(size: E.Size)
    | VDates(dates: seq<IsoTime.Date>)
    | VWindows(windows: seq<E.TimeWindow>)
    | VShifts(shifts: seq<E.Shift>)

  datatype Parsed = Parsed(value: Value) | UnknownCode | InvalidValue

  datatype FieldMap = FieldMap(
    source: string, target: string, parser: RawVal -> Parsed, required: bool, fallback: Option<Value>)

  datatype IssueCode =
    MISSING_REQUIRED | INVALID_VALUE | UNKNOWN_CODE | DUPLICATE_ID | MALFORMED_RECORD | WRONG_ENTITY

  datatype Issue = Issue(entity: string, externalId: string, field: Option<string>, code: IssueCode)

  predicate IsEmpty(v: RawVal) {
    v.RNull? || (v.RStr? && Strip(v.s) == "")
  }

  /** `str(value)`; the texts within a list or a mapping are quoted without escapes here. */
  function Text(v: RawVal): string
    decreases v, 0
  {
    match v
    case RNull => "None"
    case RStr(s) => s
    case RInt(i) => Decimal.Signed(i)
    case RBool(b) => if b then "True" else "False"
    case RFloat(f) => Floats.Repr(f)
    case RList(items) => "[" + ItemTexts(items) + "]"
    case RDict(entries) => "{" + EntryTexts(entries) + "}"
  }

  function Quoted(v: RawVal): string
    decreases v, 1
  {
    if v.RStr? then "'" + v.s + "'" else Text(v)
  }

  function ItemTexts(items: seq<RawVal>): string
    decreases items, 0
  {
    if items == [] then ""
    else Quoted(items[0]) + (if |items| > 1 then ", " + ItemTexts(items[1..]) else "")
  }

  function EntryTexts(entries: seq<(string, RawVal)>): string
    decreases entries, 0
  {
    if entries == [] then ""
    else
      assert entries[0].1 < entries[0];
      "'" + entries[0].0 + "': " + Quoted(entries[0].1)
      + (if |entries| > 1 then ", " + EntryTexts(entries[1..]) else "")
  }

  function ParseStr(v: RawVal): Parsed {
    Parsed(VText(Strip(Text(v))))
  }

  /** `parse_int`, on a mapped value; None when it raises. */
  function ParseInt(v: Option<Value>): Option<int> {
    if v.Some? && v.value.VText? && Decimal.IsIntText(Strip(v.value.s)) then Some(Decimal.ReadInt(Strip(v.value.s)))
    else if v.Some? && v.value.VInt? then Some(v.value.n)
    else if v.Some? && v.value.VFloat? && Floats.Whole(v.value.f) then Some(Floats.AsInt(v.value.f))
    else None
  }

  function Get(m: map<string, Value>, k: string): Option<Value> {
    if k in m then Some(m[k]) else None
  }

  function Cell(p: Payload, source: string): RawVal {
    if source in p then p[source] else RNull
  }

  ghost predicate DistinctTargets(maps: seq<FieldMap>) {
    forall i, j :: 0 <= i < j < |maps| ==> maps[i].target != maps[j].target
  }

  /** The value a raw cell gives its field; without one the attribute keeps its default. */
  function FieldValue(raw: RawVal, m: FieldMap): Option<Value> {
    if IsEmpty(raw) then (if m.required then None else m.fallback)
    else
      match m.parser(raw)
      case Parsed(value) => Some(value)
      case UnknownCode => m.fallback
      case InvalidValue => if m.required then None else m.fallback
  }

  function FieldIssue(raw: RawVal, m: FieldMap): Option<IssueCode> {
    if IsEmpty(raw) then (if m.required then Some(MISSING_REQUIRED) else None)
    else
      match m.parser(raw)
      case Parsed(_) => None
      case UnknownCode => Some(UNKNOWN_CODE)
      case InvalidValue => Some(INVALID_VALUE)
  }

  /** A record misses a required field, or has one that does not parse. */
  predicate Unusable(p: Payload, m: FieldMap) {
    m.required && (IsEmpty(Cell(p, m.source)) || m.parser(Cell(p, m.source)).InvalidValue?)
  }

  function MapFields(p: Payload, maps: seq<FieldMap>): map<string, Value> {
    if maps == [] then map[]
    else
      var m := maps[|maps| - 1];
      var front, v := MapFields(p, maps[..|maps| - 1]), FieldValue(Cell(p, m.source), m);
      if v.Some? then front[m.target := v.value] else front
  }

  function MapIssues(entity: string, externalId: string, p: Payload, maps: seq<FieldMap>): seq<Issue> {
    if maps == [] then []
    else
      var m := maps[|maps| - 1];
      var front, code := MapIssues(entity, externalId, p, maps[..|maps| - 1]), FieldIssue(Cell(p, m.source), m);
      if code.Some? then front + [Issue(entity, externalId, Some(m.target), code.value)] else front
  }

  function RecordIssues(entity: string, maps: seq<FieldMap>, r: Record): seq<Issue> {
    if r.entity != entity then [Issue(entity, r.externalId, None, WRONG_ENTITY)]
    else if r.payload.None? then [Issue(entity, r.externalId, None, MALFORMED_RECORD)]
    else MapIssues(entity, r.externalId, r.payload.value, maps)
  }

  predicate Usable(entity: string, maps: seq<FieldMap>, r: Record) {
    r.entity == entity && r.payload.Some? && forall i :: 0 <= i < |maps| ==> !Unusable(r.payload.value, maps[i])
  }

  /** `_map_record`: every field from its own cell, in the order of the table. */
  method MapRecord(entity: string, maps: seq<FieldMap>, record: Record)
    returns (fields: Option<map<string, Value>>, issues: seq<Issue>)
    ensures fields == if Usable(entity, maps, record) then Some(MapFields(record.payload.value, maps)) else None
    ensures issues == RecordIssues(entity, maps, record)
  {
    if record.entity != entity {
      return None, [Issue(entity, record.externalId, None, WRONG_ENTITY)];
    }
    if record.payload.None? {
      return None, [Issue(entity, record.externalId, None, MALFORMED_RECORD)];
    }
    var p := record.payload.value;
    var kwargs, usable := map[], true;
    issues := [];
    for i := 0 to |maps|
      invariant issues == MapIssues(entity, record.externalId, p, maps[..i])
      invariant usable <==> forall j :: 0 <= j < i ==> !Unusable(p, maps[j])
      invariant kwargs == MapFields(p, maps[..i])
    {
      assert maps[..i + 1][..i] == maps[..i];
      var m := maps[i];
      var raw := Cell(p, m.source);
      var useFallback := false;
      if IsEmpty(raw) {
        if m.required {
          usable := false;
          issues := issues + [Issue(entity, record.externalId, Some(m.target), MISSING_REQUIRED)];
        } else {
          useFallback := true;
        }
      } else {
        match m.parser(raw) {
          case Parsed(value) =>
            kwargs := kwargs[m.target := value];
          case UnknownCode =>
            issues := issues + [Issue(entity, record.externalId, Some(m.target), UNKNOWN_CODE)];
            useFallback := true;
          case InvalidValue =>
            issues := issues + [Issue(entity, record.externalId, Some(m.target), INVALID_VALUE)];
            if m.required {
              usable := false;
            } else {
              useFallback := true;
            }
        }
      }
      if useFallback && m.fallback.Some? {
        kwargs := kwargs[m.target := m.fallback.value];
      }
    }
    assert maps[..|maps|] == maps;
    fields := if usable then Some(kwargs) else None;
  }

  /** With one row per target, a field holds what its own cell says, whatever the other rows do. */
  lemma {:induction false} FieldFromOwnCell(p: Payload, maps: seq<FieldMap>, i: nat)
    requires DistinctTargets(maps) && i < |maps|
    ensures Get(MapFields(p, maps), maps[i].target) == FieldValue(Cell(p, maps[i].source), maps[i])
  {
    var front := maps[..|maps| - 1];
    if i < |maps| - 1 {
      FieldFromOwnCell(p, front, i);
      assert front[i] == maps[i];
    } else {
      NoOtherTarget(p, front, maps[i].target);
    }
  }

  lemma {:induction false} NoOtherTarget(p: Payload, maps: seq<FieldMap>, target: string)
    requires forall i :: 0 <= i < |maps| ==> maps[i].target != target
    ensures target !in MapFields(p, maps)
  {
    if maps != [] {
      NoOtherTarget(p, maps[..|maps| - 1], target);
    }
  }

  ghost predicate AllAbout(issues: seq<Issue>, externalId: string) {
    forall i :: i in issues ==> i.externalId == externalId
  }

  /** A record is never given up without an issue, and every issue names it. */
  lemma {:induction false} MapIssuesNameRecord(entity: string, externalId: string, p: Payload, maps: seq<FieldMap>)
    ensures AllAbout(MapIssues(entity, externalId, p, maps), externalId)
    ensures forall i :: 0 <= i < |maps| && Unusable(p, maps[i]) ==> MapIssues(entity, externalId, p, maps) != []
  {
    if maps != [] {
      var front := maps[..|maps| - 1];
      MapIssuesNameRecord(entity, externalId, p, front);
      forall i | 0 <= i < |maps| && Unusable(p, maps[i]) ensures MapIssues(entity, externalId, p, maps) != [] {
        if i < |maps| - 1 {
          assert front[i] == maps[i];
        }
      }
    }
  }

  lemma UnusableIsReported(entity: string, maps: seq<FieldMap>, r: Record)
    ensures AllAbout(RecordIssues(entity, maps, r), r.externalId)
    ensures !Usable(entity, maps, r) ==> RecordIssues(entity, maps, r) != []
  {
    if r.payload.Some? {
      MapIssuesNameRecord(entity, r.externalId, r.payload.value, maps);
    }
  }

  // -------------------------------------------------------------- order ids

  /** `{line:02d}`: the sign counts towards the width. */
  function LineText(line: int): string {
    if line < 0 then "-" + Decimal.Padded(-line, 1) else Decimal.Padded(line, 2)
  }

  function ComposeOrderId(orderNo: string, line: int): string {
    orderNo + "-" + LineText(line)
  }

  function DuplicateId(original: string, n: nat): string {
    original + "-DUP" + Decimal.Digits(n)
  }

  function Count(ids: seq<string>, id: string): nat {
    if ids == [] then 0 else Count(ids[..|ids| - 1], id) + (if ids[|ids| - 1] == id then 1 else 0)
  }

  /** The id given to the k-th composed record: its composed id, or that with the number of its copy. */
  function GivenId(composed: seq<string>, k: nat): string
    requires k < |composed|
  {
    var n := Count(composed[..k], composed[k]);
    if n == 0 then composed[k] else DuplicateId(composed[k], n)
  }

  ghost predicate Composed(id: string) {
    exists orderNo, line :: id == ComposeOrderId(orderNo, line)
  }

  predicate NoDash(s: string) { forall i :: 0 <= i < |s| ==> s[i] != '-' }

  /** The stretch after the last dash is determined by the text. */
  lemma LastDash(h1: string, t1: string, h2: string, t2: string)
    requires NoDash(t1) && NoDash(t2) && h1 + "-" + t1 == h2 + "-" + t2
    ensures h1 == h2 && t1 == t2
  {
    var s := h1 + "-" + t1;
    assert s[|h1|] == '-' && s[|h2|] == '-';
    assert forall i :: |h1| < i < |s| ==> s[i] == t1[i - |h1| - 1];
    assert forall i :: |h2| < i < |s| ==> s[i] == t2[i - |h2| - 1];
    assert |h1| == |h2|;
    assert h1 == s[..|h1|] && h2 == s[..|h2|];
    assert t1 == s[|h1| + 1..] && t2 == s[|h2| + 1..];
  }

  lemma DigitsHaveNoDash(s: string)
    requires Decimal.AllDigits(s)
    ensures NoDash(s)
  {
    forall i | 0 <= i < |s| ensures s[i] != '-' {
      assert Decimal.IsDigit(s[i]);
    }
  }

  /** A composed id ends in a dash and digits. */
  lemma ComposedTail(id: string) returns (head: string, tail: string)
    requires Composed(id)
    ensures id == head + "-" + tail && Decimal.AllDigits(tail) && tail != ""
  {
    var orderNo, line :| id == ComposeOrderId(orderNo, line);
    head, tail := ComposedParts(orderNo, line);
  }

  lemma ComposedParts(orderNo: string, line: int) returns (head: string, tail: string)
    ensures ComposeOrderId(orderNo, line) == head + "-" + tail && Decimal.AllDigits(tail) && tail != ""
  {
    if line < 0 {
      head, tail := orderNo + "-", Decimal.Padded(-line, 1);
      assert ComposeOrderId(orderNo, line) == orderNo + "-" + ("-" + tail);
    } else {
      head, tail := orderNo, Decimal.Padded(line, 2);
    }
  }

  lemma DuplicateTail(original: string, n: nat)
    ensures DuplicateId(original, n) == original + "-" + ("DUP" + Decimal.Digits(n))
    ensures NoDash("DUP" + Decimal.Digits(n))
  {
    DigitsHaveNoDash(Decimal.Digits(n));
  }

  lemma ComposedIsNoDuplicate(id: string, original: string, n: nat)
    requires Composed(id)
    ensures id != DuplicateId(original, n)
  {
    var head, tail := ComposedTail(id);
    DigitsHaveNoDash(tail);
    DuplicateTail(original, n);
    assert Decimal.IsDigit(tail[0]);
    if id == DuplicateId(original, n) {
      LastDash(head, tail, original, "DUP" + Decimal.Digits(n));
    }
  }

  lemma DuplicateIdInjective(a: string, m: nat, b: string, n: nat)
    requires DuplicateId(a, m) == DuplicateId(b, n)
    ensures a == b && m == n
  {
    DuplicateTail(a, m);
    DuplicateTail(b, n);
    LastDash(a, "DUP" + Decimal.Digits(m), b, "DUP" + Decimal.Digits(n));
    assert ("DUP" + Decimal.Digits(m))[3..] == Decimal.Digits(m);
    assert ("DUP" + Decimal.Digits(n))[3..] == Decimal.Digits(n);
    Decimal.DigitsInjective(m, n);
  }

  lemma {:induction false} CountGrows(ids: seq<string>, i: nat, j: nat, id: string)
    requires i < j <= |ids| && ids[i] == id
    ensures Count(ids[..j], id) > Count(ids[..i], id)
    decreases j
  {
    assert ids[..j][..j - 1] == ids[..j - 1];
    if i < j - 1 {
      CountGrows(ids, i, j - 1, id);
    }
  }

  /** For every list of composed ids, the ids given out are pairwise different. */
  lemma GivenIdsDistinct(composed: seq<string>, i: nat, j: nat)
    requires i < j < |composed| && forall id :: id in composed ==> Composed(id)
    ensures GivenId(composed, i) != GivenId(composed, j)
  {
    var a, b := composed[i], composed[j];
    var m, n := Count(composed[..i], a), Count(composed[..j], b);
    assert a in composed && b in composed;
    if a == b {
      CountGrows(composed, i, j, a);
    }
    if m == 0 && n > 0 {
      ComposedIsNoDuplicate(a, b, n);
    } else if m > 0 && n == 0 {
      ComposedIsNoDuplicate(b, a, m);
    } else if m > 0 && n > 0 && DuplicateId(a, m) == DuplicateId(b, n) {
      DuplicateIdInjective(a, m, b, n);
    }
  }

  // ------------------------------------------------------------------ orders

  datatype OrderItem = OrderItem(
    orderId: string, rowId: string, duplicateOf: Option<string>, fields: map<string, Value>)

  const REF: string := "external_order_ref"
  const LINE: string := "order_line_id"

  const ORDER_NO_MAP: FieldMap := FieldMap("ORDER_NO", REF, ParseStr, true, None)

  /** The order number is required and its parser never yields an empty text. */
  ghost predicate RefMapped(maps: seq<FieldMap>) {
    DistinctTargets(maps)
    && exists m :: m in maps && m.target == REF && m.required
                   && forall raw :: !IsEmpty(raw) ==>
                        m.parser(raw).Parsed? && m.parser(raw).value.VText? && m.parser(raw).value.s != ""
  }

  lemma SignedIsTrimmed(i: int)
    ensures Decimal.Signed(i) != "" && Trimmed(Decimal.Signed(i))
  {
    var s := Decimal.Signed(i);
    var d := Decimal.Digits(if i < 0 then -i else i);
    assert Decimal.IsDigit(d[0]) && Decimal.IsDigit(d[|d| - 1]);
    assert s[|s| - 1] == d[|d| - 1];
  }

  /** The shipped table satisfies this: `str` of a non-empty cell is never blank. */
  lemma ShippedRefMapped(maps: seq<FieldMap>)
    requires DistinctTargets(maps) && ORDER_NO_MAP in maps
    ensures RefMapped(maps)
  {
    forall raw | !IsEmpty(raw) ensures ParseStr(raw).value.s != "" {
      if !raw.RStr? {
        TextIsTrimmed(raw);
      }
    }
  }

  lemma TextIsTrimmed(raw: RawVal)
    requires !raw.RStr?
    ensures Trimmed(Text(raw)) && Text(raw) != ""
  {
    match raw
    case RInt(i) => SignedIsTrimmed(i);
    case RFloat(f) => E.NumberSurvives(f);
    case RList(items) => Bracketed("[", ItemTexts(items), "]");
    case RDict(entries) => Bracketed("{", EntryTexts(entries), "}");
    case _ =>
  }

  lemma Bracketed(a: string, s: string, b: string)
    requires |a| == |b| == 1 && !IsSpace(a[0]) && !IsSpace(b[0])
    ensures Trimmed(a + s + b) && a + s + b != ""
  {
    var t := a + s + b;
    assert t[0] == a[0] && t[|t| - 1] == b[0];
  }

  /** A usable record has a non-empty order number. */
  lemma RefIsText(entity: string, maps: seq<FieldMap>, r: Record)
    requires RefMapped(maps) && Usable(entity, maps, r)
    ensures var v := Get(MapFields(r.payload.value, maps), REF); v.Some? && v.value.VText? && v.value.s != ""
  {
    var m :| m in maps && m.target == REF && m.required
             && forall raw :: !IsEmpty(raw) ==>
                  m.parser(raw).Parsed? && m.parser(raw).value.VText? && m.parser(raw).value.s != "";
    var i :| 0 <= i < |maps| && maps[i] == m;
    FieldFromOwnCell(r.payload.value, maps, i);
    assert !Unusable(r.payload.value, maps[i]);
  }

  predicate Falsy(v: Option<Value>) {
    v.None? || match v.value
      case VText(s) => s == ""
      case VInt(n) => n == 0
      case VFloat(f) => f == Floats.ZERO
      case VBool(b) => !b
      case VMember(m) => m == ""
      case VTexts(ts) => ts == {}
      case VMembers(ms) => ms == {}
      case VRoute(r) => r == []
      case VNumbers(ns) => ns == map[]
      case VDates(ds) => ds == []
      case VWindows(ws) => ws == []
      case VShifts(ss) => ss == []
      case _ => false
  }

  /** `str` of a mapped order number; only texts and integers can be one. */
  function RefText(v: Value): string {
    match v
    case VText(s) => s
    case VInt(n) => Decimal.Signed(n)
    case _ => ""
  }

  /** The id composed from order number and line, unless one of them is missing. */
  function BaseId(fields: map<string, Value>): Option<string> {
    var line := ParseInt(Get(fields, LINE));
    if line.None? || Falsy(Get(fields, REF)) then None
    else Some(ComposeOrderId(RefText(fields[REF]), line.value))
  }

  /** The composed id, an issue about the line number, or neither when the order number is empty. */
  method ComposeId(entity: string, record: Record, fields: map<string, Value>)
    returns (id: Option<string>, issues: seq<Issue>)
    ensures AllAbout(issues, record.externalId)
    ensures id == BaseId(fields) && (id.Some? ==> Composed(id.value) && issues == [])
    ensures issues == LineIssues(entity, record, fields)
  {
    var line := ParseInt(Get(fields, LINE));
    if line.None? {
      return None, [Issue(entity, record.externalId, Some(LINE), INVALID_VALUE)];
    }
    if Falsy(Get(fields, REF)) {
      return None, [];
    }
    return Some(ComposeOrderId(RefText(fields[REF]), line.value)), [];
  }

  const ORDER_ID: string := "order_id"
  const ATTRIBUTES: string := "attributes"

  /** The attributes of a dataclass: those that its constructor needs and those that have defaults. */
  datatype Class = Class(needed: set<string>, optional: set<string>)

  /** The constructor raises when a needed attribute is missing or an unknown one is given. */
  predicate Constructible(cls: Class, given: set<string>) {
    cls.needed <= given <= cls.needed + cls.optional
  }

  /** The keywords for an order: its fields and its id, and the tag of a copy. */
  function OrderKeywords(fields: map<string, Value>, copy: bool): set<string> {
    fields.Keys + {ORDER_ID} + (if copy then {ATTRIBUTES} else {})
  }

  /** Which records became items, and which issue accounts for each record that did not. */
  datatype Ledger = Ledger(kept: seq<nat>, skipped: seq<(nat, nat)>)

  ghost predicate Balanced(l: Ledger, records: seq<Record>, n: nat, rows: seq<string>, issues: seq<Issue>)
    requires n <= |records|
  {
    && |l.kept| + |l.skipped| == n && |l.kept| == |rows|
    && (forall i :: 0 <= i < n ==> i in l.kept || exists k :: 0 <= k < |l.skipped| && l.skipped[k].0 == i)
    && (forall k :: 0 <= k < |l.kept| ==> l.kept[k] < n && rows[k] == records[l.kept[k]].externalId)
    && (forall k :: 0 <= k < |l.skipped| ==>
          && l.skipped[k].0 < n && l.skipped[k].1 < |issues|
          && issues[l.skipped[k].1].externalId == records[l.skipped[k].0].externalId)
    && (forall j, k :: 0 <= j < k < |l.skipped| ==> l.skipped[j].1 < l.skipped[k].1)
  }

  function Keep(l: Ledger, i: nat): Ledger {
    l.(kept := l.kept + [i])
  }

  function Skip(l: Ledger, i: nat, issue: nat): Ledger {
    l.(skipped := l.skipped + [(i, issue)])
  }

  lemma KeepBalances(l: Ledger, records: seq<Record>, n: nat, rows: seq<string>, issues: seq<Issue>, more: seq<Issue>)
    requires n < |records| && Balanced(l, records, n, rows, issues)
    ensures Balanced(Keep(l, n), records, n + 1, rows + [records[n].externalId], issues + more)
  {
    var l' := Keep(l, n);
    forall i | 0 <= i < n + 1 ensures i in l'.kept || exists k :: 0 <= k < |l'.skipped| && l'.skipped[k].0 == i {
      assert l'.kept[|l.kept|] == n;
      assert i < n ==> i in l.kept || exists k :: 0 <= k < |l.skipped| && l.skipped[k].0 == i;
    }
  }

  lemma SkipBalances(l: Ledger, records: seq<Record>, n: nat, rows: seq<string>, issues: seq<Issue>, more: seq<Issue>)
    requires n < |records| && Balanced(l, records, n, rows, issues)
    requires more != [] && AllAbout(more, records[n].externalId)
    ensures Balanced(Skip(l, n, |issues|), records, n + 1, rows, issues + more)
  {
    var l' := Skip(l, n, |issues|);
    assert more[0] in more && (issues + more)[|issues|] == more[0];
    forall i | 0 <= i < n + 1 ensures i in l'.kept || exists k :: 0 <= k < |l'.skipped| && l'.skipped[k].0 == i {
      assert l'.skipped[|l.skipped|].0 == n;
      if i < n && i !in l.kept {
        var k :| 0 <= k < |l.skipped| && l.skipped[k].0 == i;
        assert l'.skipped[k].0 == i;
      }
    }
  }

  ghost function Rows(items: seq<OrderItem>): seq<string> {
    seq(|items|, i requires 0 <= i < |items| => items[i].rowId)
  }

  /** Items carry the ids given out to their composed records, in order. */
  ghost predicate Numbered(items: seq<OrderItem>, composed: seq<string>, at: seq<nat>) {
    && |at| == |items|
    && (forall k :: 0 <= k < |items| ==> at[k] < |composed| && items[k].orderId == GivenId(composed, at[k]))
    && (forall j, k :: 0 <= j < k < |at| ==> at[j] < at[k])
  }

  lemma NumberedGrows(items: seq<OrderItem>, composed: seq<string>, at: seq<nat>, id: string)
    requires Numbered(items, composed, at)
    ensures Numbered(items, composed + [id], at)
  {
    forall k | 0 <= k < |items| ensures GivenId(composed + [id], at[k]) == GivenId(composed, at[k]) {
      assert (composed + [id])[..at[k]] == composed[..at[k]];
    }
  }

  ghost predicate CountsSeen(seen: map<string, nat>, composed: seq<string>) {
    forall id :: (id in seen <==> Count(composed, id) > 0) && (id in seen ==> seen[id] + 1 == Count(composed, id))
  }

  /** Give the next composed record its id and record that it was seen. */
  method NextId(id: string, seen: map<string, nat>, ghost composed: seq<string>)
    returns (given: string, seen': map<string, nat>, duplicate: bool)
    requires CountsSeen(seen, composed)
    ensures CountsSeen(seen', composed + [id])
    ensures given == GivenId(composed + [id], |composed|)
    ensures duplicate <==> id in composed
  {
    assert (composed + [id])[..|composed|] == composed;
    CountMember(composed, id);
    if id in seen {
      seen' := seen[id := seen[id] + 1];
      return DuplicateId(id, seen'[id]), seen', true;
    }
    return id, seen[id := 0], false;
  }

  lemma {:induction false} CountMember(ids: seq<string>, id: string)
    ensures Count(ids, id) > 0 <==> id in ids
  {
    if ids != [] {
      CountMember(ids[..|ids| - 1], id);
      assert ids == ids[..|ids| - 1] + [ids[|ids| - 1]];
    }
  }

  /**
   * Every record becomes exactly one item or is accounted for by an issue of its own that names it, and
   * the items' order ids are pairwise different.
   */
  method NormalizeOrders(maps: seq<FieldMap>, cls: Class, records: seq<Record>)
    returns (items: seq<OrderItem>, issues: seq<Issue>, recordsIn: nat, ghost ledger: Ledger,
             ghost composed: seq<string>, ghost at: seq<nat>)
    requires RefMapped(maps)
    ensures recordsIn == |records| && |items| <= recordsIn
    ensures (items, issues, composed) == OrdersOf(maps, cls, records)
    ensures Balanced(ledger, records, |records|, Rows(items), issues)
    ensures forall id :: id in composed ==> Composed(id)
    ensures Numbered(items, composed, at)
    ensures forall i, j :: 0 <= i < j < |items| ==> items[i].orderId != items[j].orderId
  {
    items, issues, recordsIn := [], [], 0;
    ledger, composed, at := Ledger([], []), [], [];
    var seen: map<string, nat> := map[];
    for i := 0 to |records|
      invariant recordsIn == i
      invariant (items, issues, composed) == OrdersOf(maps, cls, records[..i])
      invariant Balanced(ledger, records, i, Rows(items), issues)
      invariant forall id :: id in composed ==> Composed(id)
      invariant Numbered(items, composed, at) && CountsSeen(seen, composed)
    {
      OneMoreOrder(maps, cls, records, i);
      var record := records[i];
      recordsIn := recordsIn + 1;
      var item, found, seen', id := NormalizeOrder(maps, cls, record, seen, composed);
      ledger, at := RecordAccounted(ledger, records, i, items, issues, found, composed, at, item, id);
      items, issues, seen := items + AsSeq(item), issues + found, seen';
      composed := composed + AsSeq(id);
    }
    assert records[..|records|] == records;
    NumberedDistinct(items, composed, at);
  }

  /** The next record in the ledger: its item is numbered, or its first issue accounts for it. */
  lemma RecordAccounted(l: Ledger, records: seq<Record>, i: nat, items: seq<OrderItem>, issues: seq<Issue>,
                        found: seq<Issue>, composed: seq<string>, at: seq<nat>, item: Option<OrderItem>,
                        id: Option<string>)
    returns (l': Ledger, at': seq<nat>)
    requires i < |records| && Balanced(l, records, i, Rows(items), issues) && Numbered(items, composed, at)
    requires AllAbout(found, records[i].externalId) && (item.None? ==> found != [])
    requires item.Some? ==> id.Some? && item.value.rowId == records[i].externalId
                            && item.value.orderId == GivenId(composed + [id.value], |composed|)
    ensures Balanced(l', records, i + 1, Rows(items + AsSeq(item)), issues + found)
    ensures Numbered(items + AsSeq(item), composed + AsSeq(id), at')
  {
    if item.Some? {
      KeepBalances(l, records, i, Rows(items), issues, found);
      NumberedNext(items, composed, at, id.value, item.value);
      l', at' := Keep(l, i), at + [|composed|];
    } else {
      assert items + AsSeq(item) == items;
      SkipBalances(l, records, i, Rows(items), issues, found);
      l', at' := Skip(l, i, |issues|), at;
      if id.Some? {
        NumberedGrows(items, composed, at, id.value);
      } else {
        assert composed + AsSeq(id) == composed;
      }
    }
  }

  lemma NumberedDistinct(items: seq<OrderItem>, composed: seq<string>, at: seq<nat>)
    requires Numbered(items, composed, at) && forall id :: id in composed ==> Composed(id)
    ensures forall i, j :: 0 <= i < j < |items| ==> items[i].orderId != items[j].orderId
  {
    forall i, j | 0 <= i < j < |items| ensures items[i].orderId != items[j].orderId {
      GivenIdsDistinct(composed, at[i], at[j]);
    }
  }

  lemma NumberedNext(items: seq<OrderItem>, composed: seq<string>, at: seq<nat>, id: string, item: OrderItem)
    requires Numbered(items, composed, at) && item.orderId == GivenId(composed + [id], |composed|)
    ensures Numbered(items + [item], composed + [id], at + [|composed|])
    ensures Rows(items + [item]) == Rows(items) + [item.rowId]
  {
    NumberedGrows(items, composed, at, id);
  }

  /** What one record yields: an item or none, its issues, and the id it adds to those seen. */
  datatype Outcome<T, K> = Outcome(item: Option<T>, issues: seq<Issue>, id: Option<K>)

  /** What one record yields after the records whose composed ids are `composed`. */
  function OutcomeOf(maps: seq<FieldMap>, cls: Class, r: Record, composed: seq<string>): Outcome<OrderItem, string> {
    var mapped := RecordIssues("order", maps, r);
    if !Usable("order", maps, r) then Outcome(None, mapped, None)
    else
      var fields := MapFields(r.payload.value, maps);
      match BaseId(fields)
      case None => Outcome(None, mapped + LineIssues("order", r, fields), None)
      case Some(id) => ComposedOutcome(cls, r, fields, mapped, id, composed)
  }

  function ComposedOutcome(cls: Class, r: Record, fields: map<string, Value>, mapped: seq<Issue>, id: string,
                           composed: seq<string>): Outcome<OrderItem, string>
  {
    var copy := id in composed;
    var copies := if copy then [Issue("order", r.externalId, Some(ORDER_ID), DUPLICATE_ID)] else [];
    if !Constructible(cls, OrderKeywords(fields, copy))
    then Outcome(None, mapped + copies + [Issue("order", r.externalId, None, MALFORMED_RECORD)], Some(id))
    else Outcome(Some(OrderItem(GivenId(composed + [id], |composed|), r.externalId,
                                if copy then Some(id) else None, fields)),
                 mapped + copies, Some(id))
  }

  function LineIssues(entity: string, r: Record, fields: map<string, Value>): seq<Issue> {
    if ParseInt(Get(fields, LINE)).None? then [Issue(entity, r.externalId, Some(LINE), INVALID_VALUE)] else []
  }

  function AsSeq<T>(o: Option<T>): seq<T> {
    if o.Some? then [o.value] else []
  }

  /** What a list of records yields, record by record. */
  function OrdersOf(maps: seq<FieldMap>, cls: Class, rs: seq<Record>): (seq<OrderItem>, seq<Issue>, seq<string>) {
    if rs == [] then ([], [], [])
    else
      var front := OrdersOf(maps, cls, rs[..|rs| - 1]);
      var o := OutcomeOf(maps, cls, rs[|rs| - 1], front.2);
      (front.0 + AsSeq(o.item), front.1 + o.issues,
       front.2 + AsSeq(o.id))
  }

  lemma OneMoreOrder(maps: seq<FieldMap>, cls: Class, rs: seq<Record>, i: nat)
    requires i < |rs|
    ensures var front := OrdersOf(maps, cls, rs[..i]);
            var o := OutcomeOf(maps, cls, rs[i], front.2);
            OrdersOf(maps, cls, rs[..i + 1])
            == (front.0 + AsSeq(o.item), front.1 + o.issues,
                front.2 + AsSeq(o.id))
  {
    assert rs[..i + 1][..i] == rs[..i];
  }

  method NormalizeOrder(maps: seq<FieldMap>, cls: Class, record: Record, seen: map<string, nat>,
                        ghost composed: seq<string>)
    returns (item: Option<OrderItem>, issues: seq<Issue>, seen': map<string, nat>, ghost id: Option<string>)
    requires RefMapped(maps) && CountsSeen(seen, composed)
    ensures AllAbout(issues, record.externalId)
    ensures item.None? ==> issues != []
    ensures OutcomeOf(maps, cls, record, composed) == Outcome(item, issues, id)
    ensures item.Some? ==> id.Some?
    ensures id.Some? ==> Composed(id.value)
    ensures CountsSeen(seen', composed + AsSeq(id))
    ensures item.Some? ==>
              && item.value.rowId == record.externalId
              && item.value.orderId == GivenId(composed + [id.value], |composed|)
  {
    seen', id := seen, None;
    assert composed + AsSeq<string>(None) == composed;
    var fields;
    fields, issues := MapRecord("order", maps, record);
    UnusableIsReported("order", maps, record);
    if fields.None? {
      return None, issues, seen, None;
    }
    RefIsText("order", maps, record);
    var base, more := ComposeId("order", record, fields.value);
    issues := issues + more;
    if base.None? {
      return None, issues, seen, None;
    }
    assert issues == RecordIssues("order", maps, record);
    item, issues, seen' := FinishOrder(cls, record, fields.value, issues, base.value, seen, composed);
    id := base;
  }

  /** The second half: number the copy, then construct the order. */
  method FinishOrder(cls: Class, record: Record, fields: map<string, Value>, mapped: seq<Issue>, base: string,
                     seen: map<string, nat>, ghost composed: seq<string>)
    returns (item: Option<OrderItem>, issues: seq<Issue>, seen': map<string, nat>)
    requires CountsSeen(seen, composed) && AllAbout(mapped, record.externalId)
    ensures ComposedOutcome(cls, record, fields, mapped, base, composed) == Outcome(item, issues, Some(base))
    ensures CountsSeen(seen', composed + [base])
    ensures AllAbout(issues, record.externalId) && (item.None? ==> issues != [])
  {
    var given, duplicate;
    given, seen', duplicate := NextId(base, seen, composed);
    issues := mapped;
    if duplicate {
      issues := issues + [Issue("order", record.externalId, Some(ORDER_ID), DUPLICATE_ID)];
    }
    if !Constructible(cls, OrderKeywords(fields, duplicate)) {
      issues := issues + [Issue("order", record.externalId, None, MALFORMED_RECORD)];
      return None, issues, seen';
    }
    item := Some(OrderItem(given, record.externalId, if duplicate then Some(base) else None, fields));
  }

  lemma IdIsMapped(entity: string, maps: seq<FieldMap>, idField: string, r: Record)
    requires IdMapped(maps, idField) && Usable(entity, maps, r)
    ensures idField in MapFields(r.payload.value, maps)
  {
    var m :| m in maps && m.target == idField && m.required
             && forall raw :: !IsEmpty(raw) ==> !m.parser(raw).UnknownCode?;
    var i :| 0 <= i < |maps| && maps[i] == m;
    FieldFromOwnCell(r.payload.value, maps, i);
    assert !Unusable(r.payload.value, maps[i]);
  }

  /** The table fills the identifier whenever a record is usable. */
  ghost predicate IdMapped(maps: seq<FieldMap>, idField: string) {
    DistinctTargets(maps)
    && exists m :: m in maps && m.target == idField && m.required
                   && forall raw :: !IsEmpty(raw) ==> !m.parser(raw).UnknownCode?
  }

  datatype MasterItem = MasterItem(id: Value, rowId: string, fields: map<string, Value>)

  /** What one master record yields when the identifiers `ids` have been seen; one that cannot be built is seen too. */
  function MasterOutcome(entity: string, maps: seq<FieldMap>, cls: Class, idField: string, r: Record, ids: seq<Value>):
    Outcome<MasterItem, Value>
  {
    var mapped := RecordIssues(entity, maps, r);
    if !Usable(entity, maps, r) then Outcome(None, mapped, None)
    else
      var fields := MapFields(r.payload.value, maps);
      match Get(fields, idField)
      case None => Outcome(None, mapped, None)
      case Some(id) =>
        if id in ids then Outcome(None, mapped + [Issue(entity, r.externalId, Some(idField), DUPLICATE_ID)], None)
        else if !Constructible(cls, fields.Keys)
        then Outcome(None, mapped + [Issue(entity, r.externalId, None, MALFORMED_RECORD)], Some(id))
        else Outcome(Some(MasterItem(id, r.externalId, fields)), mapped, Some(id))
  }

  /** The items, all issues, and the identifiers seen. */
  function MastersOf(entity: string, maps: seq<FieldMap>, cls: Class, idField: string, rs: seq<Record>):
    (seq<MasterItem>, seq<Issue>, seq<Value>)
  {
    if rs == [] then ([], [], [])
    else
      var front := MastersOf(entity, maps, cls, idField, rs[..|rs| - 1]);
      var o := MasterOutcome(entity, maps, cls, idField, rs[|rs| - 1], front.2);
      (front.0 + AsSeq(o.item), front.1 + o.issues, front.2 + AsSeq(o.id))
  }

  lemma OneMoreMaster(entity: string, maps: seq<FieldMap>, cls: Class, idField: string, rs: seq<Record>, i: nat)
    requires i < |rs|
    ensures var front := MastersOf(entity, maps, cls, idField, rs[..i]);
            var o := MasterOutcome(entity, maps, cls, idField, rs[i], front.2);
            MastersOf(entity, maps, cls, idField, rs[..i + 1])
            == (front.0 + AsSeq(o.item), front.1 + o.issues, front.2 + AsSeq(o.id))
  {
    assert rs[..i + 1][..i] == rs[..i];
  }

  /** The next record in the ledger, whatever the entity: one more row, or an issue of its own. */
  lemma RowAccounted(l: Ledger, records: seq<Record>, i: nat, rows: seq<string>, issues: seq<Issue>, found: seq<Issue>,
                     kept: bool)
    returns (l': Ledger)
    requires i < |records| && Balanced(l, records, i, rows, issues)
    requires AllAbout(found, records[i].externalId) && (!kept ==> found != [])
    ensures Balanced(l', records, i + 1, rows + (if kept then [records[i].externalId] else []), issues + found)
  {
    if kept {
      KeepBalances(l, records, i, rows, issues, found);
      l' := Keep(l, i);
    } else {
      assert rows + [] == rows;
      SkipBalances(l, records, i, rows, issues, found);
      l' := Skip(l, i, |issues|);
    }
  }

  /** The identifiers seen. */
  ghost predicate Lists(ids: seq<Value>, seen: set<Value>) {
    forall v :: v in ids <==> v in seen
  }

  lemma ListsMore(ids: seq<Value>, seen: set<Value>, id: Option<Value>)
    requires Lists(ids, seen)
    ensures Lists(ids + AsSeq(id), seen + Single(id))
  {
    if id.None? {
      assert ids + AsSeq(id) == ids;
    }
  }

  function Single<T>(o: Option<T>): set<T> {
    if o.Some? then {o.value} else {}
  }

  ghost function MasterRows(items: seq<MasterItem>): seq<string> {
    seq(|items|, i requires 0 <= i < |items| => items[i].rowId)
  }

  lemma MasterRowsGrow(items: seq<MasterItem>, item: Option<MasterItem>)
    ensures MasterRows(items + AsSeq(item)) == MasterRows(items) + (if item.Some? then [item.value.rowId] else [])
  {
  }

  /** The items' identifiers are among those seen, and pairwise different. */
  ghost predicate DistinctMasters(items: seq<MasterItem>, seen: set<Value>) {
    && (forall i :: 0 <= i < |items| ==> items[i].id in seen)
    && (forall i, j :: 0 <= i < j < |items| ==> items[i].id != items[j].id)
  }

  lemma OneMoreDistinctMaster(items: seq<MasterItem>, seen: set<Value>, item: Option<MasterItem>, id: Option<Value>)
    requires DistinctMasters(items, seen) && (id.Some? ==> id.value !in seen)
    requires item.Some? ==> id == Some(item.value.id)
    ensures DistinctMasters(items + AsSeq(item), seen + Single(id))
  {
  }

  /** Masters: later copies of an identifier are skipped, each with its issue. */
  method NormalizeSimple(entity: string, maps: seq<FieldMap>, cls: Class, idField: string, records: seq<Record>)
    returns (items: seq<MasterItem>, issues: seq<Issue>, recordsIn: nat, ghost ledger: Ledger, ghost ids: seq<Value>)
    requires IdMapped(maps, idField)
    ensures recordsIn == |records|
    ensures (items, issues, ids) == MastersOf(entity, maps, cls, idField, records)
    ensures Balanced(ledger, records, |records|, MasterRows(items), issues)
    ensures forall i, j :: 0 <= i < j < |items| ==> items[i].id != items[j].id
  {
    items, issues, recordsIn := [], [], 0;
    ledger, ids := Ledger([], []), [];
    var seen: set<Value> := {};
    for i := 0 to |records|
      invariant recordsIn == i
      invariant (items, issues, ids) == MastersOf(entity, maps, cls, idField, records[..i])
      invariant Balanced(ledger, records, i, MasterRows(items), issues)
      invariant Lists(ids, seen) && DistinctMasters(items, seen)
    {
      OneMoreMaster(entity, maps, cls, idField, records, i);
      recordsIn := recordsIn + 1;
      var item, found, id := NormalizeMaster(entity, maps, cls, idField, records[i], seen, ids);
      ledger := RowAccounted(ledger, records, i, MasterRows(items), issues, found, item.Some?);
      MasterRowsGrow(items, item);
      OneMoreDistinctMaster(items, seen, item, id);
      ListsMore(ids, seen, id);
      items, issues, ids := items + AsSeq(item), issues + found, ids + AsSeq(id);
      seen := seen + Single(id);
    }
    assert records[..|records|] == records;
  }

  /** One master; `id` is the identifier it adds to those seen. */
  method NormalizeMaster(entity: string, maps: seq<FieldMap>, cls: Class, idField: string, record: Record,
                         seen: set<Value>, ghost ids: seq<Value>)
    returns (item: Option<MasterItem>, issues: seq<Issue>, id: Option<Value>)
    requires IdMapped(maps, idField) && Lists(ids, seen)
    ensures Outcome(item, issues, id) == MasterOutcome(entity, maps, cls, idField, record, ids)
    ensures AllAbout(issues, record.externalId) && (item.None? ==> issues != [])
    ensures id.Some? ==> id.value !in seen
    ensures item.Some? ==> id == Some(item.value.id) && item.value.rowId == record.externalId
  {
    var fields;
    fields, issues := MapRecord(entity, maps, record);
    UnusableIsReported(entity, maps, record);
    if fields.None? {
      return None, issues, None;
    }
    IdIsMapped(entity, maps, idField, record);
    if fields.value[idField] in seen {
      return None, issues + [Issue(entity, record.externalId, Some(idField), DUPLICATE_ID)], None;
    }
    id := Some(fields.value[idField]);
    if !Constructible(cls, fields.value.Keys) {
      return None, issues + [Issue(entity, record.externalId, None, MALFORMED_RECORD)], id;
    }
    item := Some(MasterItem(id.value, record.externalId, fields.value));
  }

  const OPERATION_ID: string := "operation_id"

  /** An operation with the id of the order line it names, composed as orders compose theirs. */
  datatype OperationItem = OperationItem(id: Value, orderId: string, rowId: string, fields: map<string, Value>)

  ghost function OperationRows(items: seq<OperationItem>): seq<string> {
    seq(|items|, i requires 0 <= i < |items| => items[i].rowId)
  }

  /** The order number and the line only serve to compose the order's id. */
  function WithoutLine(fields: map<string, Value>): map<string, Value> {
    fields - {REF, LINE}
  }

  /** What one operation record yields when the ids `ids` have been seen. */
  function OperationOutcome(maps: seq<FieldMap>, cls: Class, r: Record, ids: seq<Value>):
    Outcome<OperationItem, Value>
  {
    var mapped := RecordIssues("operation", maps, r);
    if !Usable("operation", maps, r) then Outcome(None, mapped, None)
    else
      var fields := MapFields(r.payload.value, maps);
      match BaseId(fields)
      case None => Outcome(None, mapped + LineIssues("operation", r, fields), None)
      case Some(base) => TiedOutcome(cls, r, fields, mapped, base, ids)
  }

  function TiedOutcome(cls: Class, r: Record, fields: map<string, Value>, mapped: seq<Issue>, base: string,
                       ids: seq<Value>):
    Outcome<OperationItem, Value>
  {
    match Get(fields, OPERATION_ID)
    case None => Outcome(None, mapped, None)
    case Some(id) =>
      if id in ids
      then Outcome(None, mapped + [Issue("operation", r.externalId, Some(OPERATION_ID), DUPLICATE_ID)], None)
      else if !Constructible(cls, WithoutLine(fields).Keys + {ORDER_ID})
      then Outcome(None, mapped + [Issue("operation", r.externalId, None, MALFORMED_RECORD)], Some(id))
      else Outcome(Some(OperationItem(id, base, r.externalId, WithoutLine(fields))), mapped, Some(id))
  }

  function OperationsOf(maps: seq<FieldMap>, cls: Class, rs: seq<Record>):
    (seq<OperationItem>, seq<Issue>, seq<Value>)
  {
    if rs == [] then ([], [], [])
    else
      var front := OperationsOf(maps, cls, rs[..|rs| - 1]);
      var o := OperationOutcome(maps, cls, rs[|rs| - 1], front.2);
      (front.0 + AsSeq(o.item), front.1 + o.issues, front.2 + AsSeq(o.id))
  }

  lemma OneMoreOperation(maps: seq<FieldMap>, cls: Class, rs: seq<Record>, i: nat)
    requires i < |rs|
    ensures var front := OperationsOf(maps, cls, rs[..i]);
            var o := OperationOutcome(maps, cls, rs[i], front.2);
            OperationsOf(maps, cls, rs[..i + 1])
            == (front.0 + AsSeq(o.item), front.1 + o.issues, front.2 + AsSeq(o.id))
  {
    assert rs[..i + 1][..i] == rs[..i];
  }

  lemma OperationRowsGrow(items: seq<OperationItem>, item: Option<OperationItem>)
    ensures OperationRows(items + AsSeq(item)) == OperationRows(items) + (if item.Some? then [item.value.rowId] else [])
  {
  }

  ghost predicate DistinctOperations(items: seq<OperationItem>, seen: set<Value>) {
    && (forall i :: 0 <= i < |items| ==> items[i].id in seen)
    && (forall i, j :: 0 <= i < j < |items| ==> items[i].id != items[j].id)
  }

  lemma OneMoreDistinct(items: seq<OperationItem>, seen: set<Value>, item: Option<OperationItem>, id: Option<Value>)
    requires DistinctOperations(items, seen) && (id.Some? ==> id.value !in seen)
    requires item.Some? ==> id == Some(item.value.id)
    ensures DistinctOperations(items + AsSeq(item), seen + Single(id))
  {
  }

  /** Operations: mapped, tied to their order line, later copies skipped. */
  method NormalizeOperations(maps: seq<FieldMap>, cls: Class, records: seq<Record>)
    returns (items: seq<OperationItem>, issues: seq<Issue>, recordsIn: nat, ghost ledger: Ledger, ghost ids: seq<Value>)
    requires RefMapped(maps) && IdMapped(maps, OPERATION_ID)
    ensures recordsIn == |records|
    ensures (items, issues, ids) == OperationsOf(maps, cls, records)
    ensures Balanced(ledger, records, |records|, OperationRows(items), issues)
    ensures forall i, j :: 0 <= i < j < |items| ==> items[i].id != items[j].id
  {
    items, issues, recordsIn := [], [], 0;
    ledger, ids := Ledger([], []), [];
    var seen: set<Value> := {};
    for i := 0 to |records|
      invariant recordsIn == i
      invariant (items, issues, ids) == OperationsOf(maps, cls, records[..i])
      invariant Balanced(ledger, records, i, OperationRows(items), issues)
      invariant Lists(ids, seen) && DistinctOperations(items, seen)
    {
      OneMoreOperation(maps, cls, records, i);
      recordsIn := recordsIn + 1;
      var item, found, id := NormalizeOperation(maps, cls, records[i], seen, ids);
      ledger := RowAccounted(ledger, records, i, OperationRows(items), issues, found, item.Some?);
      OperationRowsGrow(items, item);
      OneMoreDistinct(items, seen, item, id);
      ListsMore(ids, seen, id);
      items, issues, ids := items + AsSeq(item), issues + found, ids + AsSeq(id);
      seen := seen + Single(id);
    }
    assert records[..|records|] == records;
  }

  method NormalizeOperation(maps: seq<FieldMap>, cls: Class, record: Record, seen: set<Value>, ghost ids: seq<Value>)
    returns (item: Option<OperationItem>, issues: seq<Issue>, id: Option<Value>)
    requires RefMapped(maps) && IdMapped(maps, OPERATION_ID) && Lists(ids, seen)
    ensures Outcome(item, issues, id) == OperationOutcome(maps, cls, record, ids)
    ensures AllAbout(issues, record.externalId) && (item.None? ==> issues != [])
    ensures id.Some? ==> id.value !in seen
    ensures item.Some? ==> id == Some(item.value.id) && item.value.rowId == record.externalId
  {
    var fields;
    fields, issues := MapRecord("operation", maps, record);
    UnusableIsReported("operation", maps, record);
    if fields.None? {
      return None, issues, None;
    }
    RefIsText("operation", maps, record);
    IdIsMapped("operation", maps, OPERATION_ID, record);
    var base, more := ComposeId("operation", record, fields.value);
    if base.None? {
      return None, issues + more, None;
    }
    item, issues, id := FinishOperation(cls, record, fields.value, issues, base.value, seen, ids);
  }

  method FinishOperation(cls: Class, record: Record, fields: map<string, Value>, mapped: seq<Issue>, base: string,
                         seen: set<Value>, ghost ids: seq<Value>)
    returns (item: Option<OperationItem>, issues: seq<Issue>, id: Option<Value>)
    requires OPERATION_ID in fields && Lists(ids, seen) && AllAbout(mapped, record.externalId)
    ensures Outcome(item, issues, id) == TiedOutcome(cls, record, fields, mapped, base, ids)
    ensures AllAbout(issues, record.externalId) && (item.None? ==> issues != [])
    ensures id.Some? ==> id.value !in seen
    ensures item.Some? ==> id == Some(item.value.id) && item.value.rowId == record.externalId
  {
    if fields[OPERATION_ID] in seen {
      return None, mapped + [Issue("operation", record.externalId, Some(OPERATION_ID), DUPLICATE_ID)], None;
    }
    id := Some(fields[OPERATION_ID]);
    var kwargs := WithoutLine(fields);
    if !Constructible(cls, kwargs.Keys + {ORDER_ID}) {
      return None, mapped + [Issue("operation", record.externalId, None, MALFORMED_RECORD)], id;
    }
    return Some(OperationItem(id.value, base, record.externalId, kwargs)), mapped, id;
  }
}

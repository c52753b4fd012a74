/**
 * The flat text formats of the ERP export: what the mock connector prints and what the parsers read
 * back (backend/app/integration/mock_connector.py, parsers.py, field_maps.py, codes.py).
 */
module ErpFormats {
  import opened Prelude
  import opened Sorting
  import Decimal
  import opened Floats
  import IsoTime

  const LIST_SEPARATOR: char := ';'
  const ROUTE_SEPARATOR: char := '>'

  type Stamp = (IsoTime.Date, IsoTime.Time)

  datatype Window = Window(start: Stamp, end: Stamp, reason: string)

  /** `TimeWindow` refuses an end before its start. */
  type TimeWindow = w: Window | IsoTime.StampLeq(w.start, w.end)
    witness Window((IsoTime.Ymd(1, 1, 1), MIDNIGHT), (IsoTime.Ymd(1, 1, 1), MIDNIGHT), "")

  /** 0 is Monday. */
  type Weekday = d: int | 0 <= d < 7

  datatype Shift = Shift(name: string, start: IsoTime.Time, end: IsoTime.Time, days: seq<int>)

  type WeekShift = s: Shift | forall d :: d in s.days ==> 0 <= d < 7
    witness Shift("", MIDNIGHT, MIDNIGHT, [])

  // -------------------------------------------------------- join and split

  function Join(parts: seq<string>, sep: char): string {
    if parts == [] then "" else if |parts| == 1 then parts[0] else parts[0] + [sep] + Join(parts[1..], sep)
  }

  /** `text.split(sep)`: never empty. */
  function Split(s: string, sep: char): (r: seq<string>)
    ensures r != []
    ensures forall p :: p in r ==> sep !in p
  {
    if s == "" then [""]
    else
      var rest := Split(s[1..], sep);
      if s[0] == sep then [""] + rest else [[s[0]] + rest[0]] + rest[1..]
  }

  lemma {:induction false} SplitPlain(a: string, sep: char)
    requires sep !in a
    ensures Split(a, sep) == [a]
  {
    if a != "" {
      SplitPlain(a[1..], sep);
      assert a == [a[0]] + a[1..];
    }
  }

  lemma {:induction false} SplitFirst(a: string, sep: char, rest: string)
    requires sep !in a
    ensures Split(a + [sep] + rest, sep) == [a] + Split(rest, sep)
  {
    var s := a + [sep] + rest;
    if a == "" {
      assert s[1..] == rest;
    } else {
      SplitFirst(a[1..], sep, rest);
      assert s[1..] == a[1..] + [sep] + rest;
      assert a == [a[0]] + a[1..];
    }
  }

  lemma {:induction false} SplitJoin(parts: seq<string>, sep: char)
    requires parts != [] && forall p :: p in parts ==> sep !in p
    ensures Split(Join(parts, sep), sep) == parts
  {
    if |parts| == 1 {
      SplitPlain(parts[0], sep);
    } else {
      SplitJoin(parts[1..], sep);
      SplitFirst(parts[0], sep, Join(parts[1..], sep));
    }
  }

  // ------------------------------------------------------------ string lists

  /** Strip the parts and drop the blank ones. */
  function Tokens(parts: seq<string>): (r: seq<string>)
    ensures forall t :: t in r ==> t != "" && Trimmed(t)
  {
    if parts == [] then []
    else if Strip(parts[0]) == "" then Tokens(parts[1..])
    else [Strip(parts[0])] + Tokens(parts[1..])
  }

  function ParseStrList(text: string): seq<string> {
    Tokens(Split(text, LIST_SEPARATOR))
  }

  /** The values in any order; the printer sorts them. */
  function PrintStrSet(values: seq<string>): string {
    Join(Sort(StrLeq, values), LIST_SEPARATOR)
  }

  function ParseStrSet(text: string): set<string> {
    set t | t in ParseStrList(text)
  }

  predicate Clean(v: string) {
    v != "" && Trimmed(v) && ';' !in v
  }

  lemma {:induction false} TokensOfClean(parts: seq<string>)
    requires forall p :: p in parts ==> p != "" && Trimmed(p)
    ensures Tokens(parts) == parts
  {
    if parts != [] {
      assert parts[0] in parts && forall p :: p in parts[1..] ==> p in parts;
      TokensOfClean(parts[1..]);
      assert parts == [parts[0]] + parts[1..];
    }
  }

  lemma {:induction false} TokensAvoid(parts: seq<string>, c: char)
    requires forall p :: p in parts ==> c !in p
    ensures forall t :: t in Tokens(parts) ==> c !in t
  {
    if parts != [] {
      TokensAvoid(parts[1..], c);
    }
  }

  /** A printed set reads back as itself exactly when no value is blank, padded or holds the separator. */
  lemma StrSetSurvivesExactly(values: seq<string>)
    ensures ParseStrSet(PrintStrSet(values)) == (set v | v in values) <==> forall v :: v in values ==> Clean(v)
  {
    if forall v :: v in values ==> Clean(v) {
      CleanListSurvives(values);
    } else {
      var v :| v in values && !Clean(v);
      ParsedIsClean(PrintStrSet(values));
      assert v !in ParseStrSet(PrintStrSet(values));
    }
  }

  lemma CleanListSurvives(values: seq<string>)
    requires forall v :: v in values ==> Clean(v)
    ensures forall v :: v in ParseStrList(PrintStrSet(values)) <==> v in values
  {
    var sorted := Sort(StrLeq, values);
    SortMembers(StrLeq, values);
    if values == [] {
      assert Tokens([""]) == [];
    } else {
      SplitJoin(sorted, LIST_SEPARATOR);
      TokensOfClean(sorted);
    }
  }

  /** Whatever the text, no parsed value is blank, padded or holds the separator. */
  lemma ParsedIsClean(text: string)
    ensures forall v :: v in ParseStrList(text) ==> Clean(v)
  {
    TokensAvoid(Split(text, LIST_SEPARATOR), LIST_SEPARATOR);
  }

  // ------------------------------------------------------------- optional text

  /** `value or ""`, then the parser's "empty means missing". */
  function PrintText(v: Option<string>): string {
    v.GetOr("")
  }

  function ParseText(text: string): Option<string> {
    if Strip(text) == "" then None else Some(Strip(text))
  }

  lemma TextSurvivesExactly(v: Option<string>)
    ensures ParseText(PrintText(v)) == v <==> v.None? || (v.value != "" && Trimmed(v.value))
  {
  }

  // --------------------------------------------------------------- enum codes

  /** A vocabulary: ERP code and enum value, in the order of the table. */
  type Table = seq<(string, string)>

  /** The inverted table: the first code wins when several map to one value. */
  method Invert(codes: Table) returns (out: map<string, string>)
    ensures out.Keys == set e | e in codes :: e.1
    ensures forall i :: 0 <= i < |codes| && (forall j :: 0 <= j < i ==> codes[j].1 != codes[i].1) ==>
              out[codes[i].1] == codes[i].0
    ensures forall v :: v in out ==> (out[v], v) in codes
  {
    out := map[];
    for i := 0 to |codes|
      invariant out.Keys == set e | e in codes[..i] :: e.1
      invariant forall k :: 0 <= k < i && (forall j :: 0 <= j < k ==> codes[j].1 != codes[k].1) ==>
                  out[codes[k].1] == codes[k].0
      invariant forall v :: v in out ==> (out[v], v) in codes
    {
      assert codes[..i + 1] == codes[..i] + [codes[i]];
      if codes[i].1 !in out {
        out := out[codes[i].1 := codes[i].0];
        assert (codes[i].0, codes[i].1) == codes[i];
      }
    }
    assert codes[..|codes|] == codes;
  }

  /** The last entry of the table with this code, ignoring case. */
  function ByCode(codes: Table, token: string): Option<string> {
    if codes == [] then None
    else if Upper(codes[|codes| - 1].0) == token then Some(codes[|codes| - 1].1)
    else ByCode(codes[..|codes| - 1], token)
  }

  function ByValue(codes: Table, token: string): Option<string> {
    if codes == [] then None
    else if Upper(codes[|codes| - 1].1) == token then Some(codes[|codes| - 1].1)
    else ByValue(codes[..|codes| - 1], token)
  }

  /** None when the code is not in the vocabulary. */
  function ParseEnum(codes: Table, text: string): Option<string> {
    var token := Upper(Strip(text));
    if ByCode(codes, token).Some? then ByCode(codes, token) else ByValue(codes, token)
  }

  predicate Plain(c: string) {
    c != "" && Trimmed(c) && Upper(c) == c && ';' !in c && '>' !in c
  }

  ghost predicate Vocabulary(codes: Table) {
    && (forall e :: e in codes ==> Plain(e.0))
    && (forall i, j :: 0 <= i < j < |codes| ==> codes[i].0 != codes[j].0)
  }

  lemma {:induction false} ByCodeFinds(codes: Table, i: nat)
    requires Vocabulary(codes) && i < |codes|
    ensures ByCode(codes, codes[i].0) == Some(codes[i].1)
    decreases codes
  {
    assert codes[|codes| - 1] in codes && codes[i] in codes;
    if i < |codes| - 1 {
      assert forall e :: e in codes[..|codes| - 1] ==> e in codes;
      ByCodeFinds(codes[..|codes| - 1], i);
    }
  }

  /** Every value printed through the inverted table is read back as itself. */
  lemma EnumSurvives(codes: Table, code: string, value: string)
    requires Vocabulary(codes) && (code, value) in codes
    ensures ParseEnum(codes, code) == Some(value)
  {
    var i :| 0 <= i < |codes| && codes[i] == (code, value);
    ByCodeFinds(codes, i);
    assert Plain(codes[i].0);
  }

  /** The vocabularies that the export uses. */
  datatype CodeTable = PROCESS | ORDER_STATUS | OPERATION_STATUS | MACHINE_STATUS | MATERIAL_STATUS | QUALITY_STATUS
                     | SHIPPING_STATUS

  function TableSize(t: CodeTable): nat {
    match t
    case PROCESS => 11
    case ORDER_STATUS => 15
    case OPERATION_STATUS => 8
    case MACHINE_STATUS => 5
    case MATERIAL_STATUS => 5
    case QUALITY_STATUS => 6
    case SHIPPING_STATUS => 3
  }

  function CodesIn(t: CodeTable): (codes: Table)
    ensures |codes| == TableSize(t)
  {
    match t
    case PROCESS => PROCESS_TYPE_CODES
    case ORDER_STATUS => ORDER_STATUS_CODES
    case OPERATION_STATUS => OPERATION_STATUS_CODES
    case MACHINE_STATUS => MACHINE_STATUS_CODES
    case MATERIAL_STATUS => MATERIAL_STATUS_CODES
    case QUALITY_STATUS => QUALITY_STATUS_CODES
    case SHIPPING_STATUS => SHIPPING_STATUS_CODES
  }

  const PROCESS_TYPE_CODES: Table := [
    ("CNC", "cnc_machining"), ("AM", "additive_3d_printing"), ("SUP", "support_removal"), ("DEB", "deburring"),
    ("FIN", "finishing"), ("HT", "heat_treatment"), ("SRF", "surface_treatment"), ("INS", "inspection"),
    ("ASM", "assembly"), ("PCK", "packing"), ("OTH", "other")]

  const ORDER_STATUS_CODES: Table := [
    ("NEW", "new"), ("REL", "released"), ("PLN", "planned"), ("SCH", "scheduled"), ("MTW", "material_waiting"),
    ("TLW", "tooling_waiting"), ("WIP", "in_production"), ("PCM", "partially_completed"),
    ("QIN", "quality_inspection"), ("RWK", "rework"), ("CMP", "completed"), ("PKD", "packed"), ("SHP", "shipped"),
    ("HLD", "on_hold"), ("CAN", "cancelled")]

  const OPERATION_STATUS_CODES: Table := [
    ("PND", "pending"), ("RDY", "ready"), ("SCH", "scheduled"), ("WIP", "in_progress"),
    ("CMP", "completed"), ("HLD", "on_hold"), ("RWK", "rework"), ("CAN", "cancelled")]

  const MACHINE_STATUS_CODES: Table := [
    ("AVL", "available"), ("RUN", "running"), ("DWN", "down"), ("MNT", "maintenance"), ("OFF", "offline")]

  const MATERIAL_STATUS_CODES: Table := [
    ("AVL", "available"), ("PRT", "partial"), ("UNA", "unavailable"), ("ORD", "on_order"), ("UNK", "unknown")]

  const QUALITY_STATUS_CODES: Table := [
    ("NON", "none"), ("PND", "pending"), ("PAS", "passed"), ("FAL", "failed"), ("RWK", "rework"), ("HLD", "hold")]

  const SHIPPING_STATUS_CODES: Table := [("NS", "not_shipped"), ("PS", "partial"), ("SH", "shipped")]

  // ------------------------------------------------------------------- routes

  function Replaced(s: string, from: char, to: char): (r: string)
    ensures |r| == |s|
  {
    seq(|s|, i requires 0 <= i < |s| => if s[i] == from then to else s[i])
  }

  function ParseAll(codes: Table, tokens: seq<string>): Option<seq<string>> {
    if tokens == [] then Some([])
    else
      var head, rest := ParseEnum(codes, tokens[0]), ParseAll(codes, tokens[1..]);
      if head.Some? && rest.Some? then Some([head.value] + rest.value) else None
  }

  /** `"CNC>DEB>INS"` or `;`-separated. */
  function ParseRoute(codes: Table, text: string): Option<seq<string>> {
    ParseAll(codes, ParseStrList(Replaced(text, ROUTE_SEPARATOR, LIST_SEPARATOR)))
  }

  lemma {:induction false} ReplacedJoin(parts: seq<string>, from: char, to: char)
    requires forall p :: p in parts ==> from !in p
    ensures Replaced(Join(parts, from), from, to) == Join(parts, to)
  {
    if parts != [] {
      assert parts[0] in parts;
      assert Replaced(parts[0], from, to) == parts[0];
      ReplacedJoin(parts[1..], from, to);
      var rest := Join(parts[1..], from);
      if |parts| > 1 {
        assert Replaced(parts[0] + [from] + rest, from, to)
            == Replaced(parts[0], from, to) + [to] + Replaced(rest, from, to);
      }
    }
  }

  lemma {:induction false} ParseAllSurvives(codes: Table, printed: seq<string>, values: seq<string>)
    requires Vocabulary(codes) && |printed| == |values|
    requires forall i :: 0 <= i < |values| ==> (printed[i], values[i]) in codes
    ensures ParseAll(codes, printed) == Some(values)
  {
    if printed != [] {
      EnumSurvives(codes, printed[0], values[0]);
      ParseAllSurvives(codes, printed[1..], values[1..]);
      assert values == [values[0]] + values[1..];
    }
  }

  /** A route printed code by code is read back in order, whatever its length and repetitions. */
  lemma RouteSurvives(codes: Table, places: seq<nat>)
    requires Vocabulary(codes) && forall p :: p in places ==> p < |codes|
    ensures ParseRoute(codes, Join(CodesOf(codes, places), ROUTE_SEPARATOR)) == Some(ValuesOf(codes, places))
  {
    var printed, route := CodesOf(codes, places), ValuesOf(codes, places);
    forall i | 0 <= i < |route| ensures (printed[i], route[i]) in codes {
      assert places[i] in places && codes[places[i]] == (printed[i], route[i]);
    }
    forall p | p in printed ensures Plain(p) {
      var i :| 0 <= i < |printed| && printed[i] == p;
      assert (printed[i], route[i]) in codes;
    }
    ReplacedJoin(printed, ROUTE_SEPARATOR, LIST_SEPARATOR);
    if printed == [] {
      assert Tokens([""]) == [];
    } else {
      SplitJoin(printed, LIST_SEPARATOR);
    }
    TokensOfClean(printed);
    ParseAllSurvives(codes, printed, route);
  }

  /** Members of a table by their places: their codes and their values. */
  function CodesOf(codes: Table, places: seq<nat>): (r: seq<string>)
    requires forall p :: p in places ==> p < |codes|
    ensures |r| == |places|
  {
    seq(|places|, i requires 0 <= i < |places| => assert places[i] in places; codes[places[i]].0)
  }

  function ValuesOf(codes: Table, places: seq<nat>): (r: seq<string>)
    requires forall p :: p in places ==> p < |codes|
    ensures |r| == |places|
  {
    seq(|places|, i requires 0 <= i < |places| => assert places[i] in places; codes[places[i]].1)
  }

  predicate IsCode(codes: Table, t: string) {
    exists e :: e in codes && e.0 == t
  }

  lemma {:induction false} ParseAllCodes(codes: Table, tokens: seq<string>)
    requires Vocabulary(codes) && forall t :: t in tokens ==> IsCode(codes, t)
    ensures ParseAll(codes, tokens).Some? && |ParseAll(codes, tokens).value| == |tokens|
    ensures forall i :: 0 <= i < |tokens| ==> (tokens[i], ParseAll(codes, tokens).value[i]) in codes
  {
    if tokens != [] {
      assert tokens[0] in tokens && forall t :: t in tokens[1..] ==> t in tokens;
      var e :| e in codes && e.0 == tokens[0];
      assert e == (tokens[0], e.1);
      EnumSurvives(codes, tokens[0], e.1);
      ParseAllCodes(codes, tokens[1..]);
    }
  }

  /** A code stands for one value. */
  lemma OneValue(codes: Table, a: (string, string), b: (string, string))
    requires Vocabulary(codes) && a in codes && b in codes && a.0 == b.0
    ensures a.1 == b.1
  {
    EnumSurvives(codes, a.0, a.1);
    EnumSurvives(codes, b.0, b.1);
  }

  lemma PrintedCodes(codes: Table, places: seq<nat>)
    requires Vocabulary(codes) && forall p :: p in places ==> p < |codes|
    ensures forall t :: t in CodesOf(codes, places) ==> Plain(t) && IsCode(codes, t)
  {
    var printed := CodesOf(codes, places);
    forall t | t in printed ensures Plain(t) && IsCode(codes, t) {
      var i :| 0 <= i < |printed| && printed[i] == t;
      assert places[i] in places && codes[places[i]] in codes;
    }
  }

  /** A set of members printed as sorted codes is read back as the same set. */
  lemma ProcessSetSurvives(codes: Table, places: seq<nat>)
    requires Vocabulary(codes) && forall p :: p in places ==> p < |codes|
    ensures var r := ParseRoute(codes, PrintStrSet(CodesOf(codes, places)));
            r.Some? && (set v | v in r.value) == set v | v in ValuesOf(codes, places)
  {
    var printed, values := CodesOf(codes, places), ValuesOf(codes, places);
    var sorted := Sort(StrLeq, printed);
    SortMembers(StrLeq, printed);
    PrintedCodes(codes, places);
    JoinedCodes(sorted);
    ParseAllCodes(codes, sorted);
    var route := ParseAll(codes, sorted).value;
    assert forall i :: 0 <= i < |places| ==> places[i] in places && codes[places[i]] == (printed[i], values[i]);
    SameValues(codes, sorted, route, printed, values);
  }

  /** The same codes in any order stand for the same values. */
  lemma SameValues(codes: Table, c1: seq<string>, v1: seq<string>, c2: seq<string>, v2: seq<string>)
    requires Vocabulary(codes) && |c1| == |v1| && |c2| == |v2| && forall c :: c in c1 <==> c in c2
    requires forall i :: 0 <= i < |c1| ==> (c1[i], v1[i]) in codes
    requires forall i :: 0 <= i < |c2| ==> (c2[i], v2[i]) in codes
    ensures (set v | v in v1) == (set v | v in v2)
  {
    forall i | 0 <= i < |v1| ensures v1[i] in v2 {
      assert c1[i] in c2;
      var j :| 0 <= j < |c2| && c2[j] == c1[i];
      OneValue(codes, (c1[i], v1[i]), (c2[j], v2[j]));
    }
    forall j | 0 <= j < |v2| ensures v2[j] in v1 {
      assert c2[j] in c1;
      var i :| 0 <= i < |c1| && c1[i] == c2[j];
      OneValue(codes, (c1[i], v1[i]), (c2[j], v2[j]));
    }
  }

  lemma JoinedCodes(tokens: seq<string>)
    requires forall t :: t in tokens ==> Plain(t)
    ensures ParseStrList(Replaced(Join(tokens, LIST_SEPARATOR), ROUTE_SEPARATOR, LIST_SEPARATOR)) == tokens
  {
    JoinAvoids(tokens, LIST_SEPARATOR, ROUTE_SEPARATOR);
    var text := Join(tokens, LIST_SEPARATOR);
    assert Replaced(text, ROUTE_SEPARATOR, LIST_SEPARATOR) == text;
    if tokens == [] {
      assert Tokens([""]) == [];
    } else {
      SplitJoin(tokens, LIST_SEPARATOR);
    }
    TokensOfClean(tokens);
  }

  // ------------------------------------------------------------------ numbers

  function WithoutCommas(s: string): string {
    if s == "" then "" else (if s[0] == ',' then "" else s[..1]) + WithoutCommas(s[1..])
  }

  lemma {:induction false} NoCommas(s: string)
    requires ',' !in s
    ensures WithoutCommas(s) == s
  {
    if s != "" {
      NoCommas(s[1..]);
      assert s == s[..1] + s[1..];
    }
  }

  /** `parse_float` of a text: stripped, without thousands separators. */
  function ParseNumber(text: string): Option<Float> {
    ReadFloat(WithoutCommas(Strip(text)))
  }

  lemma NumeralIsClean(s: string)
    requires Numeral(s)
    ensures Clean(s) && WithoutCommas(s) == s && Strip(s) == s && '=' !in s && 'x' !in s
  {
    forall c | c in s ensures NumeralChar(c) {
      var i :| 0 <= i < |s| && s[i] == c;
    }
    NoCommas(s);
  }

  /** A float printed with `str` reads back as itself. */
  lemma NumberSurvives(x: Float)
    ensures Clean(Repr(x)) && '=' !in Repr(x) && ParseNumber(Repr(x)) == Some(x)
  {
    ReprSurvives(x);
    NumeralIsClean(Repr(x));
  }

  // -------------------------------------------------------------- percentages

  /** A ratio as a percentage with two decimals. */
  function PrintPercent(v: Float): string {
    TwoPlaces(Times100(v))
  }

  /** Efficiencies: not negative, no upper bound. */
  function PercentOf(n: Option<Float>): Option<Float> {
    if n.None? || n.value.mantissa < 0 then None else Some(RoundPlaces(Over100(n.value), 12))
  }

  /** Ratios: between 0 and 100 percent. */
  function RatioOf(n: Option<Float>): Option<Float> {
    if n.None? || n.value.mantissa < 0 || !AtMost(n.value, 100) then None else Some(RoundPlaces(Over100(n.value), 12))
  }

  lemma {:induction false} NormalMoved(m: int, e: int)
    ensures m != 0 ==> Normal(m, e - 2) == Number(Normal(m, e).mantissa, Normal(m, e).exponent - 2)
    decreases Abs(m)
  {
    if m != 0 && m % 10 == 0 {
      NormalMoved(m / 10, e + 1);
    }
  }

  /** A percentage with two decimals is the ratio rounded to four. */
  lemma PercentIsRounded(v: Float)
    ensures Over100(RoundPlaces(Times100(v), 2)) == RoundPlaces(v, 4)
  {
    NormalMoved(InUnits(v, 4), -2);
    assert v.mantissa != 0 ==> InUnits(Times100(v), 2) == InUnits(v, 4);
  }

  lemma PercentReads(v: Float)
    ensures ParseNumber(PrintPercent(v)) == Some(RoundPlaces(Times100(v), 2))
  {
    TwoPlacesReads(Times100(v));
    NumeralIsClean(PrintPercent(v));
  }

  /** Hundredfold numbers compare with a hundredfold limit. */
  lemma AtMostHundredfold(v: Float)
    ensures AtMost(Times100(v), 100) <==> AtMost(v, 1)
  {
    var e := v.exponent;
    if e < -2 {
      assert Pow10(-e) == 10 * Pow10(-e - 1) && Pow10(-e - 1) == 10 * Pow10(-e - 2);
    } else if e < 0 {
      assert Pow10(1) == 10 && Pow10(2) == 10 * Pow10(1);
    } else {
      assert Pow10(e + 2) == 10 * Pow10(e + 1) && Pow10(e + 1) == 10 * Pow10(e);
      TimesHundred(v.mantissa, Pow10(e));
    }
  }

  lemma TimesHundred(m: int, p: nat)
    ensures m * (10 * (10 * p)) == 100 * (m * p)
  {
  }

  lemma RoundedSign(v: Float, places: nat)
    ensures v.mantissa >= 0 ==> RoundPlaces(v, places).mantissa >= 0
    ensures v.mantissa < 0 ==> RoundPlaces(v, places).mantissa <= 0
  {
    UnitsKeepSign(v, places);
  }

  /** A percentage survives exactly when the ratio has at most four decimals and its parser's range admits it. */
  lemma PercentSurvivesExactly(v: Float)
    ensures PercentOf(ParseNumber(PrintPercent(v))) == Some(v) <==> v.exponent >= -4 && v.mantissa >= 0
    ensures RatioOf(ParseNumber(PrintPercent(v))) == Some(v) <==> v.exponent >= -4 && v.mantissa >= 0 && AtMost(v, 1)
    ensures Clean(PrintPercent(v))
  {
    PercentReads(v);
    TwoPlacesReads(Times100(v));
    NumeralIsClean(PrintPercent(v));
    PercentIsRounded(v);
    RoundPlacesKeeps(v, 4);
    RoundedSign(Times100(v), 2);
    RoundedTwice(v);
    if v.exponent >= -4 {
      RoundPlacesKeeps(Times100(v), 2);
      AtMostHundredfold(v);
    }
  }

  lemma RoundedTwice(v: Float)
    ensures RoundPlaces(RoundPlaces(v, 4), 12) == RoundPlaces(v, 4)
  {
    RoundPlacesKeeps(RoundPlaces(v, 4), 12);
  }

  // -------------------------------------------------------------------- sizes

  type Size = (Float, Float, Float)

  const TIMES: char := '\U{D7}'

  function PrintSize(s: Size): string {
    Join([General(s.0), General(s.1), General(s.2)], 'x')
  }

  /** `LxWxH`, with blank parts dropped. */
  function ParseSize(text: string): Option<Size> {
    var parts := Tokens(Split(Replaced(Lower(text), TIMES, 'x'), 'x'));
    if |parts| != 3 then None
    else match (ParseNumber(parts[0]), ParseNumber(parts[1]), ParseNumber(parts[2]))
      case (Some(a), Some(b), Some(c)) => Some((a, b, c))
      case _ => None
  }

  lemma GeneralReads(x: Float)
    ensures Clean(General(x)) && 'x' !in General(x)
    ensures ParseNumber(General(x)) == Some(x) <==> Abs(x.mantissa) < SIGNIFICANT
    ensures ParseNumber(General(x)).Some?
  {
    GeneralSurvivesExactly(x);
    NumeralIsClean(General(x));
    ShownReads(SixDigits(x), 6, "");
  }

  lemma LowerIsPlain(s: string)
    requires Numeral(s)
    ensures Lower(s) == s && TIMES !in s
  {
    forall i | 0 <= i < |s| ensures NumeralChar(s[i]) {
    }
  }

  lemma SizeTextParts(s: Size)
    ensures Replaced(Lower(PrintSize(s)), TIMES, 'x') == PrintSize(s)
    ensures Tokens(Split(PrintSize(s), 'x')) == [General(s.0), General(s.1), General(s.2)]
  {
    var parts := [General(s.0), General(s.1), General(s.2)];
    forall p | p in parts ensures Numeral(p) && Clean(p) && 'x' !in p && Lower(p) == p && TIMES !in p {
      GeneralSurvivesExactly(s.0);
      GeneralSurvivesExactly(s.1);
      GeneralSurvivesExactly(s.2);
      NumeralIsClean(p);
      LowerIsPlain(p);
    }
    SplitJoin(parts, 'x');
    TokensOfClean(parts);
    PlainJoin(parts);
  }

  /** Joining texts without letters or multiplication signs gives another that case and replacement leave alone. */
  lemma {:induction false} PlainJoin(parts: seq<string>)
    requires forall p :: p in parts ==> Lower(p) == p && TIMES !in p
    ensures Replaced(Lower(Join(parts, 'x')), TIMES, 'x') == Join(parts, 'x')
  {
    if parts != [] {
      assert parts[0] in parts;
      PlainJoin(parts[1..]);
      if |parts| == 1 {
        PlainText(parts[0]);
      } else {
        PlainAppend(parts[0], Join(parts[1..], 'x'));
      }
    }
  }

  lemma PlainText(s: string)
    requires Lower(s) == s && TIMES !in s
    ensures Replaced(Lower(s), TIMES, 'x') == s
  {
  }

  lemma PlainAppend(s: string, rest: string)
    requires Lower(s) == s && TIMES !in s && Replaced(Lower(rest), TIMES, 'x') == rest
    ensures Replaced(Lower(s + ['x'] + rest), TIMES, 'x') == s + ['x'] + rest
  {
    var t := s + ['x'] + rest;
    forall i | 0 <= i < |t| ensures Replaced(Lower(t), TIMES, 'x')[i] == t[i] {
      if i < |s| {
        assert Lower(s)[i] == s[i] && s[i] in s;
      } else if i > |s| {
        assert t[i] == rest[i - |s| - 1];
        assert Replaced(Lower(rest), TIMES, 'x')[i - |s| - 1] == rest[i - |s| - 1];
      }
    }
  }

  /** A part size survives exactly when each measure has at most six significant digits. */
  lemma SizeSurvivesExactly(s: Size)
    ensures ParseSize(PrintSize(s)) == Some(s) <==>
      Abs(s.0.mantissa) < SIGNIFICANT && Abs(s.1.mantissa) < SIGNIFICANT && Abs(s.2.mantissa) < SIGNIFICANT
  {
    SizeTextParts(s);
    GeneralReads(s.0);
    GeneralReads(s.1);
    GeneralReads(s.2);
  }

  // -------------------------------------------------------------------- flags

  function PrintFlag(b: bool): string {
    if b then "Y" else "N"
  }

  function ParseFlag(text: string): Option<bool> {
    var token := Lower(Strip(text));
    if token in ["y", "yes", "true", "t", "1", "x"] then Some(true)
    else if token in ["n", "no", "false", "f", "0", ""] then Some(false)
    else None
  }

  lemma FlagSurvives(b: bool)
    ensures Clean(PrintFlag(b)) && ParseFlag(PrintFlag(b)) == Some(b)
  {
    assert Lower("Y") == "y" && Lower("N") == "n";
  }

  // ------------------------------------------------------------- dates, stamps

  const MIDNIGHT: IsoTime.Time := IsoTime.Clock(0, 0, 0, 0)

  /** `parse_datetime` of a text: a final `Z` means UTC, and a date means its midnight. */
  function ParseStamp(text: string): Option<Stamp> {
    var t := Strip(text);
    var s := if t != "" && t[|t| - 1] == 'Z' then t[..|t| - 1] + IsoTime.UTC_SUFFIX else t;
    if IsoTime.ReadStamp(s).Some? then IsoTime.ReadStamp(s)
    else if IsoTime.ReadDate(s).Some? then Some((IsoTime.ReadDate(s).value, MIDNIGHT))
    else None
  }

  /** `parse_date` of a text: its first ten characters. */
  function ParseDate(text: string): Option<IsoTime.Date> {
    var t := Strip(text);
    IsoTime.ReadDate(if |t| > 10 then t[..10] else t)
  }

  lemma StampTextReads(d: IsoTime.Date, t: IsoTime.Time)
    ensures Trimmed(IsoTime.StampText(d, t)) && IsoTime.StampText(d, t) != ""
    ensures ParseStamp(IsoTime.StampText(d, t)) == Some((d, t))
  {
    var year, s := Decimal.Padded(d.year, 4), IsoTime.StampText(d, t);
    assert Decimal.IsDigit(year[0]) && s[0] == year[0];
    assert s[|s| - 1] == IsoTime.UTC_SUFFIX[5];
    IsoTime.StampSurvives(d, t);
  }

  lemma DateTextReads(d: IsoTime.Date)
    ensures Strip(IsoTime.DateText(d)) == IsoTime.DateText(d) != "" && ParseDate(IsoTime.DateText(d)) == Some(d)
  {
    var year, day, s := Decimal.Padded(d.year, 4), Decimal.Padded(d.day, 2), IsoTime.DateText(d);
    assert Decimal.IsDigit(year[0]) && s[0] == year[0];
    assert Decimal.IsDigit(day[|day| - 1]) && s[|s| - 1] == day[|day| - 1];
    IsoTime.DateSurvives(d);
  }

  // -------------------------------------------------------------------- codes

  predicate Letters(c: string) {
    c != "" && forall i :: 0 <= i < |c| ==> 'A' <= c[i] <= 'Z'
  }

  lemma LettersArePlain(c: string)
    requires Letters(c)
    ensures Plain(c)
  {
    assert Upper(c) == c;
  }

  /** A table of different codes, all of them upper-case letters, is a vocabulary. */
  lemma LetterTable(codes: Table)
    requires forall i :: 0 <= i < |codes| ==> Letters(codes[i].0)
    requires forall i, j :: 0 <= i < j < |codes| ==> codes[i].0 != codes[j].0
    ensures Vocabulary(codes)
  {
    forall e | e in codes ensures Plain(e.0) {
      var i :| 0 <= i < |codes| && codes[i] == e;
      LettersArePlain(codes[i].0);
    }
  }

  lemma TablesAreVocabularies(t: CodeTable)
    ensures Vocabulary(CodesIn(t))
  {
    TablesAreLetters(t);
    TablesDiffer(t);
    LetterTable(CodesIn(t));
  }

  lemma TablesAreLetters(t: CodeTable)
    ensures forall i :: 0 <= i < |CodesIn(t)| ==> Letters(CodesIn(t)[i].0)
  {
    match t
    case PROCESS =>
    case ORDER_STATUS =>
    case OPERATION_STATUS =>
    case MACHINE_STATUS =>
    case MATERIAL_STATUS =>
    case QUALITY_STATUS =>
    case SHIPPING_STATUS =>
  }

  /** No two codes share a value, so the inverted table gives every member its own code. */
  lemma TableValuesDiffer(t: CodeTable)
    ensures forall i, j :: 0 <= i < j < |CodesIn(t)| ==> CodesIn(t)[i].1 != CodesIn(t)[j].1
  {
    match t
    case PROCESS =>
    case ORDER_STATUS =>
    case OPERATION_STATUS =>
    case MACHINE_STATUS =>
    case MATERIAL_STATUS =>
    case QUALITY_STATUS =>
    case SHIPPING_STATUS =>
  }

  lemma TablesDiffer(t: CodeTable)
    ensures forall i, j :: 0 <= i < j < |CodesIn(t)| ==> CodesIn(t)[i].0 != CodesIn(t)[j].0
  {
    match t
    case PROCESS =>
    case ORDER_STATUS =>
    case OPERATION_STATUS =>
    case MACHINE_STATUS =>
    case MATERIAL_STATUS =>
    case QUALITY_STATUS =>
    case SHIPPING_STATUS =>
  }

  // --------------------------------------------------------------- cycle maps

  type Cycle = (string, Float)

  function CycleText(c: Cycle): string {
    c.0 + "=" + Repr(c.1)
  }

  function CycleTexts(cs: seq<Cycle>): seq<string> {
    seq(|cs|, i requires 0 <= i < |cs| => CycleText(cs[i]))
  }

  predicate CycleLeq(a: Cycle, b: Cycle) { StrLeq(a.0, b.0) }

  function PrintCycles(cs: seq<Cycle>): string {
    Join(CycleTexts(Sort(CycleLeq, cs)), LIST_SEPARATOR)
  }

  /** None when an item has no `=` or its number does not parse. */
  function ParseCycles(items: seq<string>): Option<map<string, Float>> {
    if items == [] then Some(map[])
    else
      var front, item := ParseCycles(items[..|items| - 1]), Partition(items[|items| - 1], '=');
      if front.None? || item.None? || ParseNumber(item.value.1).None? then None
      else Some(front.value[Strip(item.value.0) := ParseNumber(item.value.1).value])
  }

  function ParseFloatMap(text: string): Option<map<string, Float>> {
    ParseCycles(ParseStrList(text))
  }

  function AsMap(cs: seq<Cycle>): map<string, Float> {
    if cs == [] then map[] else AsMap(cs[..|cs| - 1])[cs[|cs| - 1].0 := cs[|cs| - 1].1]
  }

  predicate CleanKey(k: string) {
    Trimmed(k) && ';' !in k && '=' !in k
  }

  lemma CycleTextIsClean(c: Cycle)
    requires CleanKey(c.0)
    ensures Clean(CycleText(c))
  {
    NumberSurvives(c.1);
    KeyAndText(c.0, Repr(c.1));
  }

  lemma KeyAndText(k: string, n: string)
    requires CleanKey(k) && Clean(n)
    ensures Clean(k + "=" + n)
  {
    var t := k + "=" + n;
    assert t[|t| - 1] == n[|n| - 1];
    assert k != "" ==> t[0] == k[0];
  }

  lemma CycleSurvives(c: Cycle)
    requires CleanKey(c.0)
    ensures var item := Partition(CycleText(c), '=');
            item.Some? && Strip(item.value.0) == c.0 && ParseNumber(item.value.1) == Some(c.1)
  {
    assert CycleText(c) == c.0 + ['='] + Repr(c.1);
    PartitionAt(c.0, '=', Repr(c.1));
    NumberSurvives(c.1);
  }

  lemma {:induction false} ParseCyclesSurvives(cs: seq<Cycle>)
    requires forall c :: c in cs ==> CleanKey(c.0)
    ensures ParseCycles(CycleTexts(cs)) == Some(AsMap(cs))
  {
    if cs != [] {
      var front, last := cs[..|cs| - 1], cs[|cs| - 1];
      assert last in cs && forall c :: c in front ==> c in cs;
      ParseCyclesSurvives(front);
      var texts := CycleTexts(cs);
      assert texts[..|cs| - 1] == CycleTexts(front) && texts[|cs| - 1] == CycleText(last);
      CycleSurvives(last);
    }
  }

  ghost predicate DistinctKeys(cs: seq<Cycle>) {
    forall i, j :: 0 <= i < j < |cs| ==> cs[i].0 != cs[j].0
  }

  lemma {:induction false} AsMapHas(cs: seq<Cycle>)
    ensures AsMap(cs).Keys == set c | c in cs :: c.0
    ensures DistinctKeys(cs) ==> forall c :: c in cs ==> AsMap(cs)[c.0] == c.1
  {
    if cs != [] {
      AsMapHas(cs[..|cs| - 1]);
      assert cs == cs[..|cs| - 1] + [cs[|cs| - 1]];
    }
  }

  lemma {:induction false} ParsedKeysAreClean(items: seq<string>)
    requires forall t :: t in items ==> LIST_SEPARATOR !in t
    ensures ParseCycles(items).Some? ==> forall k :: k in ParseCycles(items).value ==> CleanKey(k)
  {
    if items != [] {
      assert items[|items| - 1] in items && forall t :: t in items[..|items| - 1] ==> t in items;
      ParsedKeysAreClean(items[..|items| - 1]);
      PartitionAvoids(items[|items| - 1], '=');
    }
  }

  lemma SortKeepsMap(cs: seq<Cycle>)
    requires DistinctKeys(cs)
    ensures DistinctKeys(Sort(CycleLeq, cs)) && AsMap(Sort(CycleLeq, cs)) == AsMap(cs)
  {
    SortKeepsDistinct(cs);
    SortKeepsMembers(cs);
    SameMembersSameMap(Sort(CycleLeq, cs), cs);
  }

  lemma SortKeepsMembers(cs: seq<Cycle>)
    ensures forall c :: c in Sort(CycleLeq, cs) <==> c in cs
  {
    SortMembers(CycleLeq, cs);
    var sorted := Sort(CycleLeq, cs);
    forall c ensures c in sorted <==> c in cs {
      assert c in sorted <==> c in multiset(sorted);
    }
  }

  lemma SameMembersSameMap(a: seq<Cycle>, b: seq<Cycle>)
    requires DistinctKeys(a) && DistinctKeys(b) && forall c :: c in a <==> c in b
    ensures AsMap(a) == AsMap(b)
  {
    AsMapHas(a);
    AsMapHas(b);
    forall k | k in AsMap(a) ensures k in AsMap(b) && AsMap(a)[k] == AsMap(b)[k] {
      var c :| c in a && c.0 == k;
    }
    forall k | k in AsMap(b) ensures k in AsMap(a) {
      var c :| c in b && c.0 == k;
    }
  }

  lemma {:induction false} InsertKeepsDistinct(c: Cycle, cs: seq<Cycle>)
    requires DistinctKeys(cs) && forall d :: d in cs ==> d.0 != c.0
    ensures DistinctKeys(Insert(CycleLeq, c, cs))
    ensures forall d :: d in Insert(CycleLeq, c, cs) <==> d == c || d in cs
  {
    if cs != [] && !CycleLeq(c, cs[0]) {
      assert forall d :: d in cs[1..] ==> d in cs;
      InsertKeepsDistinct(c, cs[1..]);
      var rest := Insert(CycleLeq, c, cs[1..]);
      assert cs == [cs[0]] + cs[1..];
      FirstStaysDistinct(cs[0], rest);
    } else {
      FirstStaysDistinct(c, cs);
    }
  }

  lemma FirstStaysDistinct(c: Cycle, cs: seq<Cycle>)
    requires DistinctKeys(cs) && forall d :: d in cs ==> d.0 != c.0
    ensures DistinctKeys([c] + cs) && forall d :: d in [c] + cs <==> d == c || d in cs
  {
    forall k | 0 <= k < |cs| ensures cs[k].0 != c.0 {
      assert cs[k] in cs;
    }
  }

  lemma {:induction false} SortKeepsDistinct(cs: seq<Cycle>)
    requires DistinctKeys(cs)
    ensures DistinctKeys(Sort(CycleLeq, cs))
  {
    if cs != [] {
      SortKeepsDistinct(cs[1..]);
      SortMembers(CycleLeq, cs[1..]);
      InsertKeepsDistinct(cs[0], Sort(CycleLeq, cs[1..]));
    }
  }

  /** A machine-to-minutes map survives exactly when no key is padded or holds `;` or `=`. */
  lemma CyclesSurviveExactly(cs: seq<Cycle>)
    requires DistinctKeys(cs)
    ensures ParseFloatMap(PrintCycles(cs)) == Some(AsMap(cs)) <==> forall c :: c in cs ==> CleanKey(c.0)
  {
    var sorted := Sort(CycleLeq, cs);
    SortMembers(CycleLeq, cs);
    SortKeepsMap(cs);
    if forall c :: c in cs ==> CleanKey(c.0) {
      var texts := CycleTexts(sorted);
      forall t | t in texts ensures Clean(t) {
        var i :| 0 <= i < |texts| && texts[i] == t;
        assert sorted[i] in sorted;
        CycleTextIsClean(sorted[i]);
      }
      if texts == [] {
        assert Tokens([""]) == [];
      } else {
        SplitJoin(texts, LIST_SEPARATOR);
      }
      TokensOfClean(texts);
      ParseCyclesSurvives(sorted);
    } else {
      var c :| c in cs && !CleanKey(c.0);
      AsMapHas(cs);
      TokensAvoid(Split(PrintCycles(cs), LIST_SEPARATOR), LIST_SEPARATOR);
      ParsedKeysAreClean(ParseStrList(PrintCycles(cs)));
    }
  }

  // ----------------------------------------------------------------- weekdays

  const WEEKDAY_NAMES: seq<string> := ["MON", "TUE", "WED", "THU", "FRI", "SAT", "SUN"]

  function DayNames(days: seq<Weekday>): seq<string> {
    seq(|days|, i requires 0 <= i < |days| => WEEKDAY_NAMES[days[i]])
  }

  function PrintDays(days: seq<Weekday>): string {
    Join(DayNames(days), ',')
  }

  function DayOf(token: string): Option<int> {
    if token == "MON" then Some(0) else if token == "TUE" then Some(1) else if token == "WED" then Some(2)
    else if token == "THU" then Some(3) else if token == "FRI" then Some(4) else if token == "SAT" then Some(5)
    else if token == "SUN" then Some(6) else None
  }

  /** A token is the first three characters, in upper case: a number or a name. */
  function ParseDay(part: string): Option<int> {
    var t := Upper(Strip(part));
    var token := if |t| > 3 then t[..3] else t;
    if Decimal.AllDigits(token) && token != "" then Some(Decimal.ReadDigits(token)) else DayOf(token)
  }

  /** The set of days named; None when a token is unknown or out of range. */
  function ParseDayTokens(parts: seq<string>): Option<set<int>> {
    if parts == [] then Some({})
    else
      var front := ParseDayTokens(parts[..|parts| - 1]);
      if front.None? then None
      else if Strip(parts[|parts| - 1]) == "" then front
      else
        var day := ParseDay(parts[|parts| - 1]);
        if day.None? || day.value > 6 then None else Some(front.value + {day.value})
  }

  /** The days of a set in order, as `tuple(sorted(days))`. */
  function Ascending(days: set<int>, from: nat): seq<Weekday>
    decreases 7 - from
  {
    if from >= 7 then [] else (if from in days then [from as Weekday] else []) + Ascending(days, from + 1)
  }

  /** A shift's weekdays; an empty text means the default, Monday to Friday. */
  function ParseShiftDays(text: string): Option<seq<Weekday>> {
    if Strip(text) == "" then Some([0, 1, 2, 3, 4])
    else
      var days := ParseDayTokens(Split(Replaced(text, LIST_SEPARATOR, ','), ','));
      if days.None? then None else Some(Ascending(days.value, 0))
  }

  lemma DayNameSurvives(d: Weekday)
    ensures ParseDay(WEEKDAY_NAMES[d]) == Some(d) && Strip(WEEKDAY_NAMES[d]) != ""
    ensures forall c :: c in WEEKDAY_NAMES[d] ==> c != ',' && c != LIST_SEPARATOR
  {
    var t := WEEKDAY_NAMES[d];
    assert |t| == 3 && Trimmed(t);
    assert Upper(t) == t;
    assert !Decimal.IsDigit(t[0]);
    assert !Decimal.AllDigits(t);
  }

  lemma OneMoreDay(parts: seq<string>, part: string, days: set<int>, d: Weekday)
    requires ParseDayTokens(parts) == Some(days) && Strip(part) != "" && ParseDay(part) == Some(d)
    ensures ParseDayTokens(parts + [part]) == Some(days + {d as int})
  {
    assert (parts + [part])[..|parts|] == parts;
  }

  ghost function DaySet(days: seq<Weekday>): set<int> {
    set i | 0 <= i < |days| :: days[i] as int
  }

  lemma {:induction false} DayNamesSurvive(days: seq<Weekday>)
    ensures ParseDayTokens(DayNames(days)) == Some(DaySet(days))
  {
    if days != [] {
      var front, last := days[..|days| - 1], days[|days| - 1];
      DayNamesSurvive(front);
      DayNameSurvives(last);
      OneMoreDay(DayNames(front), WEEKDAY_NAMES[last], DaySet(front), last);
      LastDayName(days);
      LastInDaySet(days);
    } else {
      assert DayNames(days) == [] && DaySet(days) == {};
    }
  }

  lemma LastDayName(days: seq<Weekday>)
    requires days != []
    ensures DayNames(days) == DayNames(days[..|days| - 1]) + [WEEKDAY_NAMES[days[|days| - 1]]]
  {
  }

  lemma LastInDaySet(days: seq<Weekday>)
    requires days != []
    ensures DaySet(days) == DaySet(days[..|days| - 1]) + {days[|days| - 1] as int}
  {
    var front := days[..|days| - 1];
    forall d ensures d in DaySet(days) <==> d in DaySet(front) || d == days[|days| - 1] {
      if d in DaySet(front) {
        var i :| 0 <= i < |front| && front[i] as int == d;
        assert days[i] as int == d;
      }
    }
  }

  predicate StrictlyAscending(days: seq<Weekday>) {
    forall i, j :: 0 <= i < j < |days| ==> days[i] < days[j]
  }

  lemma {:induction false} AscendingMembers(days: set<int>, from: nat)
    ensures StrictlyAscending(Ascending(days, from))
    ensures forall d: Weekday :: d in Ascending(days, from) <==> d in days && d >= from
    decreases 7 - from
  {
    if from < 7 {
      AscendingMembers(days, from + 1);
      var rest := Ascending(days, from + 1);
      assert Ascending(days, from) == (if from in days then [from as Weekday] else []) + rest;
      forall i | 0 <= i < |rest| ensures rest[i] as int > from {
        assert rest[i] in rest;
      }
    }
  }

  /** A strictly ascending list is determined by its members. */
  lemma {:induction false} AscendingUnique(a: seq<Weekday>, b: seq<Weekday>)
    requires StrictlyAscending(a) && StrictlyAscending(b) && forall d :: d in a <==> d in b
    ensures a == b
    decreases |a|
  {
    assert a != [] ==> a[0] in a;
    assert b != [] ==> b[0] in b;
    if a != [] {
      var i :| 0 <= i < |b| && b[i] == a[0];
      var j :| 0 <= j < |a| && a[j] == b[0];
      assert a[0] == b[0];
      forall d ensures d in a[1..] <==> d in b[1..] {
        assert d in a <==> d == a[0] || d in a[1..];
        assert d in b <==> d == b[0] || d in b[1..];
      }
      AscendingUnique(a[1..], b[1..]);
    }
  }

  /** A non-empty list of weekdays reads back as its days in order, without repetitions. */
  lemma PrintedDaysParse(days: seq<Weekday>)
    requires days != []
    ensures ParseShiftDays(PrintDays(days)) == Some(Ascending(DaySet(days), 0))
  {
    var names := DayNames(days);
    forall p | p in names ensures ',' !in p && LIST_SEPARATOR !in p {
      var i :| 0 <= i < |names| && names[i] == p;
      DayNameSurvives(days[i]);
    }
    SplitJoin(names, ',');
    JoinAvoids(names, ',', LIST_SEPARATOR);
    assert Replaced(PrintDays(days), LIST_SEPARATOR, ',') == PrintDays(days);
    DayNameSurvives(days[0]);
    DayNameStarts(days[0]);
    JoinStarts(names, ',');
    DayNamesSurvive(days);
  }

  lemma DayNameStarts(d: Weekday)
    ensures WEEKDAY_NAMES[d] != "" && !IsSpace(WEEKDAY_NAMES[d][0])
  {
  }

  /**
   * A shift's weekdays survive exactly when they are non-empty and strictly ascending; in particular a
   * shift without weekdays comes back as Monday to Friday.
   */
  lemma ShiftDaysSurviveExactly(days: seq<Weekday>)
    ensures ParseShiftDays(PrintDays(days)) == Some(days) <==> days != [] && StrictlyAscending(days)
    ensures days == [] ==> ParseShiftDays(PrintDays(days)) == Some([0, 1, 2, 3, 4])
  {
    if days == [] {
      assert PrintDays(days) == "";
    } else {
      PrintedDaysParse(days);
      AscendingMembers(DaySet(days), 0);
      if StrictlyAscending(days) {
        AscendingUnique(Ascending(DaySet(days), 0), days);
      }
    }
  }

  lemma {:induction false} JoinAvoids(parts: seq<string>, sep: char, c: char)
    requires sep != c && forall p :: p in parts ==> c !in p
    ensures c !in Join(parts, sep)
  {
    if parts != [] {
      assert parts[0] in parts && forall p :: p in parts[1..] ==> p in parts;
      JoinAvoids(parts[1..], sep, c);
    }
  }

  /** A joined text that begins with a visible character is not blank. */
  lemma JoinStarts(parts: seq<string>, sep: char)
    requires parts != [] && parts[0] != "" && !IsSpace(parts[0][0])
    ensures Strip(Join(parts, sep)) != ""
  {
    var s := Join(parts, sep);
    assert s != "" && s[0] == parts[0][0];
    assert StripLeft(s) == s;
    StripRightKeepsHead(s);
  }
}

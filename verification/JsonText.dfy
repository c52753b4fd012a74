/** Values of the domain model and of JSON; a JSON value is a domain value of a restricted shape. */
module Values {
  import opened Decimal
  import opened IsoTime
  import opened Prelude

  predicate NumberChar(c: char) {
    IsDigit(c) || c in "+-.e"
  }

  /** A float is kept as the text `repr` gives it; it never reads as an integer. */
  predicate FloatToken(s: string) {
    && s != "" && (IsDigit(s[0]) || s[0] == '-')
    && (forall i :: 0 <= i < |s| ==> NumberChar(s[i]))
    && !IsIntText(s)
  }

  lemma ZeroIsFloat()
    ensures FloatToken("0.0")
  {
    assert "0.0"[1] == '.';
  }

  type Float = s: string | FloatToken(s) witness (ZeroIsFloat(); "0.0")

  const ZERO: Float := (ZeroIsFloat(); "0.0")

  /** Integers up to this size are floats without loss, and print with a single decimal. */
  const EXACT: int := 0x20_0000_0000_0000

  lemma WholeIsFloat(i: int)
    ensures FloatToken(Signed(i) + ".0")
  {
    var s := Signed(i) + ".0";
    var d := Digits(if i < 0 then -i else i);
    assert s[|s| - 2] == '.';
    assert IsDigit(d[0]) && (s[0] == d[0] || s[0] == '-');
    forall k | 0 <= k < |s| ensures NumberChar(s[k]) {
      assert k < |Signed(i)| ==> s[k] == '-' || s[k] in d;
    }
    var body := if s[0] == '-' then s[1..] else s;
    assert body[|body| - 2] == '.' && !IsDigit('.');
  }

  /** `float(i)`, for integers of exact size. */
  function WholeFloat(i: int): Float {
    WholeIsFloat(i);
    Signed(i) + ".0"
  }

  /** What `tzinfo` says: nothing, UTC, or another offset in minutes. */
  datatype Zone = Naive | Utc | Offset(minutes: int)

  /** A datetime is given by its UTC reading and the zone it is shown in. */
  datatype Value =
    | VNone
    | VBool(b: bool)
    | VInt(i: int)
    | VFloat(f: Float)
    | VStr(s: string)
    | VEnum(enum: string, member: string)
    | VDateTime(utcDate: Date, utcTime: Time, zone: Zone)
    | VDate(date: Date)
    | VTime(time: Time)
    | VList(items: seq<Value>)
    | VTuple(parts: seq<Value>)
    | VSet(elements: set<Value>)
    | VDict(entries: map<string, Value>)
    | VData(name: string, fields: map<string, Value>)

  /** The results of `to_jsonable`; members of a `StrEnum` are strings and stay themselves. */
  predicate IsJson(j: Value) {
    match j
    case VNone | VBool(_) | VInt(_) | VFloat(_) | VStr(_) | VEnum(_, _) => true
    case VList(items) => forall i :: 0 <= i < |items| ==> IsJson(items[i])
    case VDict(entries) => forall k :: k in entries ==> IsJson(entries[k])
    case _ => false
  }

  /** A JSON value up to string equality: an enum member equals its value. */
  function Plain(j: Value): Value {
    match j
    case VEnum(_, member) => VStr(member)
    case VList(items) => VList(seq(|items|, i requires 0 <= i < |items| => Plain(items[i])))
    case VDict(entries) => VDict(map k | k in entries :: Plain(entries[k]))
    case _ => j
  }

  /** The members of a set in some order, each once. */
  ghost function Listed<T(!new)>(s: set<T>): (xs: seq<T>)
    ensures multiset(xs) == multiset(s)
    ensures forall x :: x in xs <==> x in s
  {
    if s == {} then []
    else
      var x :| x in s;
      var rest := Listed(s - {x});
      assert s == s - {x} + {x};
      [x] + rest
  }
}

/** JSON text as `json.dumps` writes it with sorted keys, and a reader for that text. */
module JsonText {
  import opened Decimal
  import opened Prelude
  import opened Sorting
  import opened Values

  /** Separators and whether characters outside ASCII are escaped. */
  datatype Style = Style(comma: string, colon: string, ascii: bool)

  const COMPACT: Style := Style(",", ":", false)
  const SPACED: Style := Style(", ", ": ", true)

  predicate KnownStyle(st: Style) {
    st == COMPACT || st == SPACED
  }

  // ------------------------------------------------------------------ strings

  function HexChar(d: nat): char
    requires d < 16
  {
    if d < 10 then '0' + (d as char) else 'a' + ((d - 10) as char)
  }

  predicate IsHex(c: char) {
    '0' <= c <= '9' || 'a' <= c <= 'f'
  }

  function HexValue(c: char): (d: nat)
    requires IsHex(c)
    ensures d < 16
  {
    if c <= '9' then (c as int) - ('0' as int) else (c as int) - ('a' as int) + 10
  }

  function Unit(n: nat): (s: string)
    requires n < 0x10000
    ensures |s| == 6
  {
    "\\u" + [HexChar(n / 4096), HexChar(n / 256 % 16), HexChar(n / 16 % 16), HexChar(n % 16)]
  }

  function ReadUnit(s: string): Option<(nat, string)> {
    if |s| >= 6 && s[0] == '\\' && s[1] == 'u' && IsHex(s[2]) && IsHex(s[3]) && IsHex(s[4]) && IsHex(s[5])
    then Some((((HexValue(s[2]) * 16 + HexValue(s[3])) * 16 + HexValue(s[4])) * 16 + HexValue(s[5]), s[6..]))
    else None
  }

  lemma HexReads(d: nat)
    requires d < 16
    ensures IsHex(HexChar(d)) && HexValue(HexChar(d)) == d
  {
  }

  lemma HexDigits(n: nat)
    requires n < 0x10000
    ensures ((n / 4096 * 16 + n / 256 % 16) * 16 + n / 16 % 16) * 16 + n % 16 == n
  {
    assert n / 256 / 16 == n / 4096 && n / 16 / 16 == n / 256;
  }

  lemma UnitReads(n: nat, rest: string)
    requires n < 0x10000
    ensures ReadUnit(Unit(n) + rest) == Some((n, rest))
  {
    var s := Unit(n) + rest;
    assert s[6..] == rest;
    HexReads(n / 4096);
    HexReads(n / 256 % 16);
    HexReads(n / 16 % 16);
    HexReads(n % 16);
    HexDigits(n);
    assert s[2] == HexChar(n / 4096) && s[3] == HexChar(n / 256 % 16);
    assert s[4] == HexChar(n / 16 % 16) && s[5] == HexChar(n % 16);
  }

  const SHORT: map<char, char> :=
    map['\"' := '\"', '\\' := '\\', '\n' := 'n', '\r' := 'r', '\t' := 't', 8 as char := 'b', 12 as char := 'f']

  /** Two `\u` units beyond the basic plane. */
  function Pair(n: nat): string
    requires 0x10000 <= n < 0x110000
  {
    Unit(0xd800 + (n - 0x10000) / 0x400) + Unit(0xdc00 + (n - 0x10000) % 0x400)
  }

  function Escape(c: char, ascii: bool): (s: string)
    ensures s != ""
  {
    var n := c as int;
    if c in SHORT then ['\\', SHORT[c]]
    else if n >= 0x10000 && ascii then Pair(n)
    else if n < 0x20 || (ascii && n > 0x7e) then Unit(n)
    else [c]
  }

  function EscapeAll(s: string, ascii: bool): string {
    if s == "" then "" else Escape(s[0], ascii) + EscapeAll(s[1..], ascii)
  }

  function Quote(s: string, ascii: bool): string {
    "\"" + EscapeAll(s, ascii) + "\""
  }

  function Unescape(c: char): Option<char> {
    if c == '\"' || c == '\\' then Some(c)
    else if c == 'n' then Some('\n')
    else if c == 'r' then Some('\r')
    else if c == 't' then Some('\t')
    else if c == 'b' then Some(8 as char)
    else if c == 'f' then Some(12 as char)
    else None
  }

  predicate Scalar(n: nat) {
    n < 0xd800 || 0xe000 <= n < 0x110000
  }

  /** One character of a string body. */
  function ReadChar(s: string): (r: Option<(char, string)>)
    ensures r.Some? ==> |r.value.1| < |s|
  {
    if s == "" || s[0] == '\"' then None
    else if s[0] != '\\' then Some((s[0], s[1..]))
    else if |s| >= 2 && s[1] != 'u' then
      var c := Unescape(s[1]);
      if c.Some? then Some((c.value, s[2..])) else None
    else
      match ReadUnit(s)
      case None => None
      case Some((n, rest)) =>
        if Scalar(n) then Some((n as char, rest))
        else
          match ReadUnit(rest)
          case None => None
          case Some((m, rest')) =>
            if n < 0xdc00 && 0xdc00 <= m < 0xe000
            then Some(((0x10000 + (n - 0xd800) * 0x400 + (m - 0xdc00)) as char, rest'))
            else None
  }

  /** Outside the basic plane: a surrogate pair. */
  lemma PairReads(c: char, rest: string)
    requires 0x10000 <= c as int
    ensures ReadChar(Pair(c as int) + rest) == Some((c, rest)) && Pair(c as int)[0] == '\\'
  {
    var n := c as int - 0x10000;
    var hi, lo := 0xd800 + n / 0x400, 0xdc00 + n % 0x400;
    assert Pair(c as int) + rest == Unit(hi) + (Unit(lo) + rest);
    UnitReads(hi, Unit(lo) + rest);
    UnitReads(lo, rest);
  }

  lemma CharReads(c: char, ascii: bool, rest: string)
    ensures ReadChar(Escape(c, ascii) + rest) == Some((c, rest))
    ensures Escape(c, ascii)[0] != '\"'
  {
    var s, n := Escape(c, ascii) + rest, c as int;
    if c in SHORT {
      assert s[2..] == rest;
    } else if n >= 0x10000 && ascii {
      PairReads(c, rest);
    } else if n < 0x20 || (ascii && n > 0x7e) {
      UnitReads(n, rest);
    } else {
      assert s[1..] == rest;
    }
  }

  /** A string body up to and including the closing quote. */
  function ReadChars(s: string): (r: Option<(string, string)>)
    ensures r.Some? ==> |r.value.1| < |s|
    decreases |s|
  {
    if s == "" then None
    else if s[0] == '\"' then Some(("", s[1..]))
    else
      match ReadChar(s)
      case None => None
      case Some((c, rest)) =>
        match ReadChars(rest)
        case None => None
        case Some((cs, rest')) => Some(([c] + cs, rest'))
  }

  lemma {:induction false} CharsRead(s: string, ascii: bool, rest: string)
    ensures ReadChars(EscapeAll(s, ascii) + "\"" + rest) == Some((s, rest))
    decreases |s|
  {
    if s == "" {
      EndRead(rest);
    } else {
      CharsRead(s[1..], ascii, rest);
      EscapedHead(s, ascii, rest);
      OneMoreChar(s[0], ascii, EscapeAll(s[1..], ascii) + "\"" + rest, s[1..], rest);
      assert [s[0]] + s[1..] == s;
    }
  }

  lemma EndRead(rest: string)
    ensures ReadChars(EscapeAll("", true) + "\"" + rest) == Some(("", rest))
    ensures EscapeAll("", true) == EscapeAll("", false)
  {
    var t := "\"" + rest;
    assert "" + "\"" + rest == t && t[0] == '\"' && t[1..] == rest;
  }

  lemma EscapedHead(s: string, ascii: bool, rest: string)
    requires s != ""
    ensures EscapeAll(s, ascii) + "\"" + rest == Escape(s[0], ascii) + (EscapeAll(s[1..], ascii) + "\"" + rest)
  {
  }

  lemma OneMoreChar(c: char, ascii: bool, t: string, cs: string, rest: string)
    requires ReadChars(t) == Some((cs, rest))
    ensures ReadChars(Escape(c, ascii) + t) == Some(([c] + cs, rest))
  {
    CharReads(c, ascii, t);
    assert (Escape(c, ascii) + t)[0] == Escape(c, ascii)[0];
  }

  // ------------------------------------------------------------------ numbers

  function NumberPrefix(s: string): (n: nat)
    ensures n <= |s|
    ensures forall i :: 0 <= i < n ==> NumberChar(s[i])
    ensures n < |s| ==> !NumberChar(s[n])
  {
    if s == "" || !NumberChar(s[0]) then 0 else 1 + NumberPrefix(s[1..])
  }

  /** The text that follows a value cannot continue a number. */
  predicate Ends(rest: string) {
    rest == "" || !NumberChar(rest[0])
  }

  lemma {:induction false} PrefixFound(token: string, rest: string)
    requires (forall i :: 0 <= i < |token| ==> NumberChar(token[i])) && Ends(rest)
    ensures NumberPrefix(token + rest) == |token|
  {
    if token != "" {
      assert (token + rest)[1..] == token[1..] + rest;
      PrefixFound(token[1..], rest);
    } else {
      assert token + rest == rest;
    }
  }

  function ReadNumber(s: string): (r: Option<(Value, string)>)
    ensures r.Some? ==> |r.value.1| < |s|
  {
    var n := NumberPrefix(s);
    if n == 0 then None
    else if IsIntText(s[..n]) then Some((VInt(ReadInt(s[..n])), s[n..]))
    else if FloatToken(s[..n]) then Some((VFloat(s[..n]), s[n..]))
    else None
  }

  lemma IntReads(i: int, rest: string)
    requires Ends(rest)
    ensures ReadNumber(Signed(i) + rest) == Some((VInt(i), rest))
  {
    ReadIntOfSigned(i);
    PrefixFound(Signed(i), rest);
    assert (Signed(i) + rest)[..|Signed(i)|] == Signed(i) && (Signed(i) + rest)[|Signed(i)|..] == rest;
  }

  lemma FloatReads(f: Float, rest: string)
    requires Ends(rest)
    ensures ReadNumber(f + rest) == Some((VFloat(f), rest))
  {
    PrefixFound(f, rest);
    assert (f + rest)[..|f|] == f && (f + rest)[|f|..] == rest;
  }

  // ------------------------------------------------------------------- values

  function Joined(parts: seq<string>, sep: string): string {
    if parts == [] then ""
    else if |parts| == 1 then parts[0]
    else parts[0] + sep + Joined(parts[1..], sep)
  }

  ghost function SortedKeys(m: map<string, Value>): (ks: seq<string>)
    ensures forall i :: 0 <= i < |ks| ==> ks[i] in m
  {
    SortMembers(StrLeq, Listed(m.Keys));
    var ks := Sort(StrLeq, Listed(m.Keys));
    assert forall i :: 0 <= i < |ks| ==> ks[i] in ks;
    ks
  }

  lemma SortedKeysMembers(m: map<string, Value>)
    ensures forall k :: k in m ==> k in SortedKeys(m)
  {
    SortMembers(StrLeq, Listed(m.Keys));
  }

  function Entry(k: string, text: string, st: Style): string {
    Quote(k, st.ascii) + (st.colon + text)
  }

  function Entries(ks: seq<string>, texts: seq<string>, st: Style): (es: seq<string>)
    requires |ks| == |texts|
    ensures |es| == |ks|
    decreases |ks|
  {
    if ks == [] then [] else [Entry(ks[0], texts[0], st)] + Entries(ks[1..], texts[1..], st)
  }

  ghost function Render(j: Value, st: Style): string
    requires IsJson(j)
  {
    match j
    case VNone => "null"
    case VBool(b) => if b then "true" else "false"
    case VInt(i) => Signed(i)
    case VFloat(f) => f
    case VStr(s) => Quote(s, st.ascii)
    case VEnum(_, member) => Quote(member, st.ascii)
    case VList(items) =>
      "[" + Joined(seq(|items|, i requires 0 <= i < |items| => Render(items[i], st)), st.comma) + "]"
    case VDict(entries) =>
      var ks := SortedKeys(entries);
      "{" + Joined(Entries(ks, seq(|ks|, i requires 0 <= i < |ks| => Render(entries[ks[i]], st)), st), st.comma) + "}"
  }

  /** A separator may be followed by one space. */
  function Skip(s: string): (r: string)
    ensures |r| <= |s|
  {
    if s != "" && s[0] == ' ' then s[1..] else s
  }

  function Word(s: string, word: string, v: Value): (r: Option<(Value, string)>)
    requires word != ""
    ensures r.Some? ==> |r.value.1| < |s|
  {
    if word <= s then Some((v, s[|word|..])) else None
  }

  function ReadValue(s: string): (r: Option<(Value, string)>)
    ensures r.Some? ==> |r.value.1| < |s|
    decreases |s|, 0
  {
    if s == "" then None
    else if IsDigit(s[0]) || s[0] == '-' then ReadNumber(s)
    else if s[0] == 'n' then Word(s, "null", VNone)
    else if s[0] == 't' then Word(s, "true", VBool(true))
    else if s[0] == 'f' then Word(s, "false", VBool(false))
    else if s[0] == '\"' then
      match ReadChars(s[1..])
      case None => None
      case Some((cs, rest)) => Some((VStr(cs), rest))
    else if s[0] == '[' then
      if |s| >= 2 && s[1] == ']' then Some((VList([]), s[2..]))
      else
        match ReadItems(s[1..])
        case None => None
        case Some((items, rest)) => Some((VList(items), rest))
    else if s[0] == '{' then
      if |s| >= 2 && s[1] == '}' then Some((VDict(map[]), s[2..]))
      else
        match ReadEntries(s[1..])
        case None => None
        case Some((entries, rest)) => Some((VDict(entries), rest))
    else None
  }

  function ReadItems(s: string): (r: Option<(seq<Value>, string)>)
    ensures r.Some? ==> |r.value.1| < |s|
    decreases |s|, 1
  {
    match ReadValue(s)
    case None => None
    case Some((v, rest)) =>
      if rest != "" && rest[0] == ']' then Some(([v], rest[1..]))
      else if rest != "" && rest[0] == ',' then
        match ReadItems(Skip(rest[1..]))
        case None => None
        case Some((vs, rest')) => Some(([v] + vs, rest'))
      else None
  }

  /** Among equal keys the last one counts. */
  function ReadEntries(s: string): (r: Option<(map<string, Value>, string)>)
    ensures r.Some? ==> |r.value.1| < |s|
    decreases |s|, 1
  {
    if s == "" || s[0] != '\"' then None
    else
      match ReadChars(s[1..])
      case None => None
      case Some((k, afterKey)) =>
        if afterKey == "" || afterKey[0] != ':' then None
        else
          match ReadValue(Skip(afterKey[1..]))
          case None => None
          case Some((v, rest)) =>
            if rest != "" && rest[0] == '}' then Some((map[k := v], rest[1..]))
            else if rest != "" && rest[0] == ',' then
              match ReadEntries(Skip(rest[1..]))
              case None => None
              case Some((m, rest')) => Some((map[k := v] + m, rest'))
            else None
  }

  /** `json.loads`: one value and nothing after it. */
  function Loads(s: string): Option<Value> {
    match ReadValue(s)
    case None => None
    case Some((v, rest)) => if rest == "" then Some(v) else None
  }

  // -------------------------------------------------------- print, then parse

  /** `text` is read as `v` whatever follows it. */
  ghost predicate Reads(text: string, v: Value) {
    && text != "" && text[0] != ' ' && text[0] != ']'
    && (forall rest :: Ends(rest) ==> ReadValue(text + rest) == Some((v, rest)))
  }

  lemma SeparatorSkipped(comma: string, more: string)
    requires (comma == "," || comma == ", ") && more != "" && more[0] != ' '
    ensures Ends(comma + more) && (comma + more)[0] == ',' && Skip((comma + more)[1..]) == more
  {
    if comma == "," {
      assert (comma + more)[1..] == more;
    } else {
      assert (comma + more)[1..] == " " + more;
      assert (" " + more)[1..] == more;
    }
  }

  lemma LastItemRead(text: string, v: Value, rest: string)
    requires Reads(text, v)
    ensures ReadItems(text + ("]" + rest)) == Some(([v], rest))
  {
    assert Ends("]" + rest) && ("]" + rest)[1..] == rest;
    assert ReadValue(text + ("]" + rest)) == Some((v, "]" + rest));
  }

  lemma NextItemRead(text: string, v: Value, comma: string, more: string, vs: seq<Value>, rest: string)
    requires Reads(text, v) && (comma == "," || comma == ", ") && more != "" && more[0] != ' '
    requires ReadItems(more) == Some((vs, rest))
    ensures ReadItems(text + (comma + more)) == Some(([v] + vs, rest))
  {
    SeparatorSkipped(comma, more);
    assert ReadValue(text + (comma + more)) == Some((v, comma + more));
  }

  lemma JoinedStep(texts: seq<string>, sep: string, tail: string)
    requires texts != []
    ensures |texts| == 1 ==> Joined(texts, sep) + tail == texts[0] + tail
    ensures |texts| > 1 ==> Joined(texts, sep) + tail == texts[0] + (sep + (Joined(texts[1..], sep) + tail))
    ensures texts[0] != "" ==> Joined(texts, sep) != "" && Joined(texts, sep)[0] == texts[0][0]
  {
  }

  lemma {:induction false} ItemsRead(texts: seq<string>, vs: seq<Value>, comma: string, rest: string)
    requires |texts| == |vs| > 0 && (comma == "," || comma == ", ")
    requires forall i :: 0 <= i < |vs| ==> Reads(texts[i], vs[i])
    ensures ReadItems(Joined(texts, comma) + ("]" + rest)) == Some((vs, rest))
    decreases |texts|
  {
    assert Reads(texts[0], vs[0]);
    JoinedStep(texts, comma, "]" + rest);
    if |texts| == 1 {
      LastItemRead(texts[0], vs[0], rest);
      assert vs == [vs[0]];
    } else {
      ItemsRead(texts[1..], vs[1..], comma, rest);
      assert Reads(texts[1], vs[1]);
      JoinedStep(texts[1..], comma, "]" + rest);
      NextItemRead(texts[0], vs[0], comma, Joined(texts[1..], comma) + ("]" + rest), vs[1..], rest);
      assert vs == [vs[0]] + vs[1..];
    }
  }

  /** The dictionary of the pairs, later ones winning. */
  function Zip(ks: seq<string>, vs: seq<Value>): map<string, Value>
    requires |ks| == |vs|
    decreases |ks|
  {
    if ks == [] then map[] else map[ks[0] := vs[0]] + Zip(ks[1..], vs[1..])
  }

  /** Pairs taken from a dictionary give back that part of it. */
  lemma {:induction false} ZipOf(ks: seq<string>, vs: seq<Value>, m: map<string, Value>)
    requires |ks| == |vs|
    requires forall i :: 0 <= i < |ks| ==> ks[i] in m && vs[i] == m[ks[i]]
    ensures forall k :: k in Zip(ks, vs) <==> k in ks
    ensures forall k :: k in Zip(ks, vs) ==> k in m && Zip(ks, vs)[k] == m[k]
    decreases |ks|
  {
    if ks != [] {
      ZipOf(ks[1..], vs[1..], m);
      assert ks == [ks[0]] + ks[1..];
    }
  }

  lemma ColonSkipped(st: Style, body: string)
    requires KnownStyle(st) && body != "" && body[0] != ' '
    ensures (st.colon + body)[0] == ':' && Skip((st.colon + body)[1..]) == body
  {
    if st == COMPACT {
      assert (st.colon + body)[1..] == body;
    } else {
      assert (st.colon + body)[1..] == " " + body;
      assert (" " + body)[1..] == body;
    }
  }

  lemma KeyRead(k: string, ascii: bool, body: string)
    ensures var s := Quote(k, ascii) + body;
            s[0] == '\"' && ReadChars(s[1..]) == Some((k, body))
  {
    CharsRead(k, ascii, body);
    QuotedTail(EscapeAll(k, ascii), body);
  }

  lemma QuotedTail(text: string, body: string)
    ensures ("\"" + text + "\"" + body)[0] == '\"' && ("\"" + text + "\"" + body)[1..] == text + "\"" + body
  {
  }

  /** The reader's steps over one entry, up to what follows it. */
  lemma EntryRead(k: string, text: string, st: Style, tail: string)
    requires KnownStyle(st) && text != "" && text[0] != ' '
    ensures var s, after := Entry(k, text, st) + tail, st.colon + (text + tail);
            && s[0] == '\"' && ReadChars(s[1..]) == Some((k, after))
            && after[0] == ':' && Skip(after[1..]) == text + tail
  {
    KeyRead(k, st.ascii, st.colon + (text + tail));
    ColonSkipped(st, text + tail);
    assert Entry(k, text, st) + tail == Quote(k, st.ascii) + (st.colon + (text + tail));
  }

  lemma LastEntryRead(k: string, text: string, v: Value, st: Style, rest: string)
    requires KnownStyle(st) && Reads(text, v)
    ensures ReadEntries(Entry(k, text, st) + ("}" + rest)) == Some((map[k := v], rest))
  {
    var tail := "}" + rest;
    assert Ends(tail) && tail[1..] == rest;
    EntryRead(k, text, st, tail);
    assert ReadValue(text + tail) == Some((v, tail));
  }

  lemma EntryThenMore(s: string, k: string, after: string, v: Value, tail: string, m: map<string, Value>, rest: string)
    requires s != "" && s[0] == '\"' && ReadChars(s[1..]) == Some((k, after))
    requires after != "" && after[0] == ':' && ReadValue(Skip(after[1..])) == Some((v, tail))
    requires tail != "" && tail[0] == ',' && ReadEntries(Skip(tail[1..])) == Some((m, rest))
    ensures ReadEntries(s) == Some((map[k := v] + m, rest))
  {
  }

  lemma NextEntryRead(k: string, text: string, v: Value, st: Style, more: string, m: map<string, Value>, rest: string)
    requires KnownStyle(st) && Reads(text, v) && more != "" && more[0] != ' '
    requires ReadEntries(more) == Some((m, rest))
    ensures ReadEntries(Entry(k, text, st) + (st.comma + more)) == Some((map[k := v] + m, rest))
  {
    var tail := st.comma + more;
    SeparatorSkipped(st.comma, more);
    EntryRead(k, text, st, tail);
    assert ReadValue(text + tail) == Some((v, tail));
    EntryThenMore(Entry(k, text, st) + tail, k, st.colon + (text + tail), v, tail, m, rest);
  }

  lemma EntryHead(k: string, text: string, st: Style)
    ensures Entry(k, text, st) != "" && Entry(k, text, st)[0] == '\"'
  {
  }

  lemma {:induction false} EntriesRead(ks: seq<string>, texts: seq<string>, vs: seq<Value>, st: Style, rest: string)
    requires |ks| == |texts| == |vs| > 0 && KnownStyle(st)
    requires forall i :: 0 <= i < |vs| ==> Reads(texts[i], vs[i])
    ensures ReadEntries(Joined(Entries(ks, texts, st), st.comma) + ("}" + rest)) == Some((Zip(ks, vs), rest))
    decreases |ks|
  {
    var es := Entries(ks, texts, st);
    assert es[0] == Entry(ks[0], texts[0], st);
    JoinedStep(es, st.comma, "}" + rest);
    assert Reads(texts[0], vs[0]);
    if |ks| == 1 {
      LastEntryRead(ks[0], texts[0], vs[0], st, rest);
      assert Zip(ks, vs) == map[ks[0] := vs[0]];
    } else {
      EntriesRead(ks[1..], texts[1..], vs[1..], st, rest);
      var es' := Entries(ks[1..], texts[1..], st);
      assert es[1..] == es' && es'[0] == Entry(ks[1], texts[1], st);
      EntryHead(ks[1], texts[1], st);
      JoinedStep(es', st.comma, "}" + rest);
      NextEntryRead(ks[0], texts[0], vs[0], st, Joined(es', st.comma) + ("}" + rest), Zip(ks[1..], vs[1..]), rest);
    }
  }

  lemma WordReads(word: string, v: Value)
    requires || (word == "null" && v == VNone)
             || (word == "true" && v == VBool(true))
             || (word == "false" && v == VBool(false))
    ensures Reads(word, v)
  {
    forall rest | Ends(rest) ensures ReadValue(word + rest) == Some((v, rest)) {
      assert word <= word + rest && (word + rest)[|word|..] == rest;
    }
  }

  /** A text that starts like a number is read as one. */
  lemma NumberStarts(s: string)
    requires s != "" && (IsDigit(s[0]) || s[0] == '-')
    ensures ReadValue(s) == ReadNumber(s)
  {
  }

  lemma IntValueReads(i: int)
    ensures Reads(Signed(i), VInt(i))
  {
    ReadIntOfSigned(i);
    forall rest | Ends(rest) ensures ReadValue(Signed(i) + rest) == Some((VInt(i), rest)) {
      IntReads(i, rest);
      NumberStarts(Signed(i) + rest);
    }
  }

  lemma FloatValueReads(f: Float)
    ensures Reads(f, VFloat(f))
  {
    forall rest | Ends(rest) ensures ReadValue(f + rest) == Some((VFloat(f), rest)) {
      FloatReads(f, rest);
      NumberStarts(f + rest);
    }
  }

  lemma QuoteStarts(text: string, s: string, rest: string)
    requires text != "" && text[0] == '\"' && ReadChars(text[1..]) == Some((s, rest))
    ensures ReadValue(text) == Some((VStr(s), rest))
  {
  }

  lemma StringReads(s: string, ascii: bool)
    ensures Reads(Quote(s, ascii), VStr(s))
  {
    forall rest | Ends(rest) ensures ReadValue(Quote(s, ascii) + rest) == Some((VStr(s), rest)) {
      KeyRead(s, ascii, rest);
      QuoteStarts(Quote(s, ascii) + rest, s, rest);
    }
  }

  /** Opening bracket, a body that starts an element, and the closing bracket with what follows. */
  lemma Bracketed(open: string, body: string, close: string, rest: string)
    requires |open| == |close| == 1
    ensures var s := open + body + close + rest;
            s[0] == open[0] && s[1..] == body + (close + rest) && (body == "" ==> s[1] == close[0] && s[2..] == rest)
  {
    var s := open + body + close + rest;
    assert s == open + (body + (close + rest));
    if body == "" {
      assert s == open + (close + rest);
    }
  }

  lemma OpenedDict(s: string, m: map<string, Value>, rest: string)
    requires |s| >= 2 && s[0] == '{' && s[1] != '}' && ReadEntries(s[1..]) == Some((m, rest))
    ensures ReadValue(s) == Some((VDict(m), rest))
  {
    assert !IsDigit(s[0]) && s[0] != '-';
  }

  lemma ListRead(texts: seq<string>, vs: seq<Value>, comma: string, rest: string)
    requires |texts| == |vs| && (comma == "," || comma == ", ")
    requires forall i :: 0 <= i < |vs| ==> Reads(texts[i], vs[i])
    ensures ReadValue("[" + Joined(texts, comma) + "]" + rest) == Some((VList(vs), rest))
  {
    var body := Joined(texts, comma);
    var s := "[" + body + "]" + rest;
    Bracketed("[", body, "]", rest);
    if vs != [] {
      ItemsRead(texts, vs, comma, rest);
      assert Reads(texts[0], vs[0]);
      JoinedStep(texts, comma, "]" + rest);
      assert s[1] == s[1..][0] == body[0];
    }
  }

  lemma DictRead(ks: seq<string>, texts: seq<string>, vs: seq<Value>, st: Style, rest: string)
    requires |ks| == |texts| == |vs| && KnownStyle(st)
    requires forall i :: 0 <= i < |vs| ==> Reads(texts[i], vs[i])
    ensures ReadValue("{" + Joined(Entries(ks, texts, st), st.comma) + "}" + rest) == Some((VDict(Zip(ks, vs)), rest))
  {
    var es := Entries(ks, texts, st);
    var body := Joined(es, st.comma);
    var s := "{" + body + "}" + rest;
    Bracketed("{", body, "}", rest);
    if ks != [] {
      EntriesRead(ks, texts, vs, st, rest);
      EntryHead(ks[0], texts[0], st);
      assert es[0] == Entry(ks[0], texts[0], st);
      JoinedStep(es, st.comma, "}" + rest);
      assert s[1] == s[1..][0] == body[0];
      OpenedDict(s, Zip(ks, vs), rest);
    } else {
      assert Zip(ks, vs) == map[];
    }
  }

  lemma ListReads(texts: seq<string>, vs: seq<Value>, comma: string)
    requires |texts| == |vs| && (comma == "," || comma == ", ")
    requires forall i :: 0 <= i < |vs| ==> Reads(texts[i], vs[i])
    ensures Reads("[" + Joined(texts, comma) + "]", VList(vs))
  {
    forall rest | Ends(rest) ensures ReadValue("[" + Joined(texts, comma) + "]" + rest) == Some((VList(vs), rest)) {
      ListRead(texts, vs, comma, rest);
    }
  }

  lemma DictReads(ks: seq<string>, texts: seq<string>, vs: seq<Value>, st: Style)
    requires |ks| == |texts| == |vs| && KnownStyle(st)
    requires forall i :: 0 <= i < |vs| ==> Reads(texts[i], vs[i])
    ensures Reads("{" + Joined(Entries(ks, texts, st), st.comma) + "}", VDict(Zip(ks, vs)))
  {
    forall rest | Ends(rest)
      ensures ReadValue("{" + Joined(Entries(ks, texts, st), st.comma) + "}" + rest) == Some((VDict(Zip(ks, vs)), rest))
    {
      DictRead(ks, texts, vs, st, rest);
    }
  }

  lemma ZippedDict(entries: map<string, Value>, vs: seq<Value>)
    requires |vs| == |SortedKeys(entries)|
    requires forall i :: 0 <= i < |vs| ==> vs[i] == Plain(entries[SortedKeys(entries)[i]])
    ensures VDict(Zip(SortedKeys(entries), vs)) == Plain(VDict(entries))
  {
    var m := Plain(VDict(entries)).entries;
    SortedKeysMembers(entries);
    ZipOf(SortedKeys(entries), vs, m);
    SameDict(Zip(SortedKeys(entries), vs), m);
  }

  lemma SameDict(a: map<string, Value>, b: map<string, Value>)
    requires forall k :: k in a ==> k in b && a[k] == b[k]
    requires forall k :: k in b ==> k in a
    ensures a == b
  {
  }

  /** Reading back what was written gives the value, an enum member as its string. */
  lemma {:induction false} RenderReads(j: Value, st: Style)
    requires IsJson(j) && KnownStyle(st)
    ensures Reads(Render(j, st), Plain(j))
    decreases j
  {
    match j
    case VNone => WordReads("null", j);
    case VBool(b) => WordReads(Render(j, st), j);
    case VInt(i) => IntValueReads(i);
    case VFloat(f) => FloatValueReads(f);
    case VStr(s) => StringReads(s, st.ascii);
    case VEnum(_, member) => StringReads(member, st.ascii);
    case VList(items) =>
      var texts := seq(|items|, i requires 0 <= i < |items| => Render(items[i], st));
      forall i | 0 <= i < |items| ensures Reads(texts[i], Plain(j).items[i]) {
        RenderReads(items[i], st);
      }
      ListReads(texts, Plain(j).items, st.comma);
    case VDict(entries) =>
      var ks := SortedKeys(entries);
      var texts := seq(|ks|, i requires 0 <= i < |ks| => Render(entries[ks[i]], st));
      var vs := seq(|ks|, i requires 0 <= i < |ks| => Plain(entries[ks[i]]));
      forall i | 0 <= i < |ks| ensures Reads(texts[i], vs[i]) {
        RenderReads(entries[ks[i]], st);
      }
      DictReads(ks, texts, vs, st);
      ZippedDict(entries, vs);
  }

  /** So the two texts of a value lose nothing but the classes of enum members. */
  lemma LoadsRender(j: Value, st: Style)
    requires IsJson(j) && KnownStyle(st)
    ensures Loads(Render(j, st)) == Some(Plain(j))
  {
    RenderReads(j, st);
    assert Render(j, st) + "" == Render(j, st) && Ends("");
  }

  lemma SameTextSamePlain(j: Value, k: Value, st: Style)
    requires IsJson(j) && IsJson(k) && KnownStyle(st)
    ensures Render(j, st) == Render(k, st) ==> Plain(j) == Plain(k)
  {
    LoadsRender(j, st);
    LoadsRender(k, st);
  }
}

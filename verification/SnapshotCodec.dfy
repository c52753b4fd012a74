/** The type-directed snapshot codec (backend/app/db/snapshot_codec.py). */
module SnapshotCodec {
  import opened Decimal
  import opened IsoTime
  import opened JsonText
  import opened Prelude
  import opened Sorting
  import opened Values

  // ----------------------------------------------------------------- encoding

  predicate Hidden(name: string) {
    name != "" && name[0] == '_'
  }

  /** No naive datetime outside the underscore fields. */
  predicate Encodable(v: Value) {
    match v
    case VDateTime(_, _, zone) => zone != Naive
    case VList(items) => forall i :: 0 <= i < |items| ==> Encodable(items[i])
    case VTuple(parts) => forall i :: 0 <= i < |parts| ==> Encodable(parts[i])
    case VSet(elements) => forall x :: x in elements ==> Encodable(x)
    case VDict(entries) => forall k :: k in entries ==> Encodable(entries[k])
    case VData(_, fields) => forall k :: k in fields && !Hidden(k) ==> Encodable(fields[k])
    case _ => true
  }

  function TypeName(j: Value): string {
    match j
    case VNone => "NoneType"
    case VBool(_) => "bool"
    case VInt(_) => "int"
    case VFloat(_) => "float"
    case VStr(_) => "str"
    case VEnum(enum, _) => enum
    case VList(_) => "list"
    case VDict(_) => "dict"
    case _ => "object"
  }

  /** The order of `_sort_key`: type name first, then the spaced JSON text. */
  ghost predicate KeyLeq(a: Value, b: Value) {
    var ka, kb := KeyText(a), KeyText(b);
    StrLess(TypeName(a), TypeName(b)) || (TypeName(a) == TypeName(b) && StrLeq(ka, kb))
  }

  ghost function KeyText(j: Value): string {
    if IsJson(j) then Render(j, SPACED) else ""
  }

  lemma KeyOrder()
    ensures Preorder(KeyLeq)
  {
    StrLeqOrder();
  }

  /** The encoding; only for values without a naive datetime (`to_jsonable` refuses the others). */
  ghost function ToJson(v: Value): Value
    decreases v
  {
    match v
    case VDateTime(d, t, _) => VStr(StampText(d, t))
    case VDate(d) => VStr(DateText(d))
    case VTime(t) => VStr(TimeText(t))
    case VData(_, fields) => VDict(map k | k in fields && !Hidden(k) :: ToJson(fields[k]))
    case VSet(elements) =>
      var xs := Listed(elements);
      VList(Sort(KeyLeq, seq(|xs|, i requires 0 <= i < |xs| => assert xs[i] in xs; ToJson(xs[i]))))
    case VList(items) => VList(seq(|items|, i requires 0 <= i < |items| => ToJson(items[i])))
    case VTuple(parts) => VList(seq(|parts|, i requires 0 <= i < |parts| => ToJson(parts[i])))
    case VDict(entries) => VDict(map k | k in entries :: ToJson(entries[k]))
    case _ => v
  }

  ghost function Each(xs: seq<Value>): (js: seq<Value>)
    ensures |js| == |xs| && forall i :: 0 <= i < |xs| ==> js[i] == ToJson(xs[i])
  {
    seq(|xs|, i requires 0 <= i < |xs| => ToJson(xs[i]))
  }

  // ----------------------------------------------------------------- decoding

  datatype Field = Field(hint: Hint, default: Option<Value>)

  /** A hint; `HData` carries the dataclass it names, `HAny` is `Any`. */
  datatype Hint =
    | HAny
    | HBool
    | HInt
    | HFloat
    | HStr
    | HEnum(enum: string, members: set<string>)
    | HDateTime
    | HDate
    | HTime
    | HOptional(inner: Hint)
    | HList(item: Hint)
    | HSet(element: Hint)
    | HTupleOf(part: Hint)
    | HTuple(parts: seq<Hint>)
    | HDict(entry: Hint)
    | HData(name: string, fields: map<string, Field>)

  /** `True` is the integer 1. */
  function Number(j: Value): int
    requires j.VInt? || j.VBool?
  {
    if j.VInt? then j.i else if j.b then 1 else 0
  }

  predicate ExactInt(j: Value) {
    j.VBool? || (j.VInt? && -EXACT <= j.i <= EXACT)
  }

  function DecodeStamp(s: string): Option<Value> {
    match ReadStamp(s)
    case Some((d, t)) => Some(VDateTime(d, t, Utc))
    case None => None
  }

  function AsList(vs: Option<seq<Value>>): Option<Value> {
    if vs.Some? then Some(VList(vs.value)) else None
  }

  function AsTuple(vs: Option<seq<Value>>): Option<Value> {
    if vs.Some? then Some(VTuple(vs.value)) else None
  }

  function AsSet(vs: Option<seq<Value>>): Option<Value> {
    if vs.Some? then Some(VSet(set v | v in vs.value)) else None
  }

  function AsDict(m: Option<map<string, Value>>): Option<Value> {
    if m.Some? then Some(VDict(m.value)) else None
  }

  function AsData(name: string, m: Option<map<string, Value>>): Option<Value> {
    if m.Some? then Some(VData(name, m.value)) else None
  }

  function DecodeScalar(j: Value, h: Hint): Option<Value> {
    match h
    case HBool => if j.VBool? then Some(j) else None
    case HInt => if j.VInt? || j.VBool? then Some(VInt(Number(j))) else None
    case HFloat =>
      if j.VFloat? then Some(j)
      else if ExactInt(j) then Some(VFloat(WholeFloat(Number(j))))
      else None
    case HStr => if j.VStr? then Some(j) else None
    case HEnum(enum, members) =>
      if j.VStr? && j.s in members then Some(VEnum(enum, j.s))
      else if j.VEnum? && j.member in members then Some(VEnum(enum, j.member))
      else None
    case HDateTime => if j.VStr? then DecodeStamp(j.s) else None
    case HDate => if j.VStr? && ReadDate(j.s).Some? then Some(VDate(ReadDate(j.s).value)) else None
    case HTime => if j.VStr? && ReadTime(j.s).Some? then Some(VTime(ReadTime(j.s).value)) else None
    case _ => None
  }

  /** A comprehension fails when one of its elements does. */
  function AllSome(rs: seq<Option<Value>>): Option<seq<Value>> {
    if forall i :: 0 <= i < |rs| ==> rs[i].Some?
    then Some(seq(|rs|, i requires 0 <= i < |rs| => rs[i].value))
    else None
  }

  function AllEntries(rs: map<string, Option<Value>>): Option<map<string, Value>> {
    if forall k :: k in rs ==> rs[k].Some? then Some(map k | k in rs :: rs[k].value) else None
  }

  /** `decode_value`; `None` stands for any exception. */
  function Decode(j: Value, h: Hint): Option<Value>
    decreases j, h, 1
  {
    match h
    case HAny => Some(j)
    case HOptional(inner) => if j == VNone then Some(VNone) else Decode(j, inner)
    case HList(item) =>
      if j.VList? then AsList(AllSome(DecodeItems(j, item))) else None
    case HSet(element) =>
      if j.VList? then AsSet(AllSome(DecodeItems(j, element))) else None
    case HTupleOf(part) =>
      if j.VList? then AsTuple(AllSome(DecodeItems(j, part))) else None
    case HTuple(parts) =>
      if j.VList? && |j.items| == |parts| then AsTuple(AllSome(DecodeParts(j, h))) else None
    case HDict(entry) =>
      if j.VDict? then AsDict(AllEntries(DecodeEntries(j, entry))) else None
    case HData(name, fields) =>
      if j.VDict? then AsData(name, AllEntries(DecodeFields(j, h))) else None
    case _ => DecodeScalar(j, h)
  }

  function DecodeItems(j: Value, item: Hint): (rs: seq<Option<Value>>)
    requires j.VList?
    ensures |rs| == |j.items| && forall i :: 0 <= i < |rs| ==> rs[i] == Decode(j.items[i], item)
    decreases j, item, 0
  {
    seq(|j.items|, i requires 0 <= i < |j.items| => Decode(j.items[i], item))
  }

  function DecodeParts(j: Value, h: Hint): (rs: seq<Option<Value>>)
    requires j.VList? && h.HTuple? && |j.items| == |h.parts|
    ensures |rs| == |j.items| && forall i :: 0 <= i < |rs| ==> rs[i] == Decode(j.items[i], h.parts[i])
    decreases j, h, 0
  {
    seq(|j.items|, i requires 0 <= i < |j.items| => Decode(j.items[i], h.parts[i]))
  }

  function DecodeEntries(j: Value, entry: Hint): (rs: map<string, Option<Value>>)
    requires j.VDict?
    ensures rs.Keys == j.entries.Keys && forall k :: k in rs ==> rs[k] == Decode(j.entries[k], entry)
    decreases j, entry, 0
  {
    map k | k in j.entries :: Decode(j.entries[k], entry)
  }

  /** Unknown keys are ignored; a field that is not given takes its default, if it has one. */
  function DecodeFields(j: Value, h: Hint): (rs: map<string, Option<Value>>)
    requires j.VDict? && h.HData?
    ensures rs.Keys == h.fields.Keys
    ensures forall k :: k in rs ==>
              rs[k] == if Given(j.entries, k) then Decode(j.entries[k], h.fields[k].hint) else h.fields[k].default
    decreases j, h, 0
  {
    map k | k in h.fields ::
      if Given(j.entries, k) then Decode(j.entries[k], h.fields[k].hint) else h.fields[k].default
  }

  /** The constructor gets a keyword argument for this field; otherwise its default applies. */
  predicate Given(data: map<string, Value>, k: string) {
    k in data && !Hidden(k)
  }

  /** The loop of `decode_dataclass` over the fields in declaration order. */
  method DecodeDataclass(j: Value, name: string, fields: map<string, Field>, order: seq<string>)
    returns (r: Option<Value>)
    requires forall k :: k in fields <==> k in order
    ensures r == Decode(j, HData(name, fields))
  {
    if !j.VDict? {
      return None;
    }
    var kwargs: map<string, Value> := map[];
    for n := 0 to |order|
      invariant forall k :: k in kwargs <==> k in order[..n] && Given(j.entries, k)
      invariant forall k :: k in kwargs ==> Decode(j.entries[k], fields[k].hint) == Some(kwargs[k])
    {
      var f := order[n];
      if !Hidden(f) && f in j.entries {
        var v := Decode(j.entries[f], fields[f].hint);
        if v.None? {
          assert Given(j.entries, f);
          return None;
        }
        kwargs := kwargs[f := v.value];
      }
    }
    if k :| k in fields && k !in kwargs && fields[k].default.None? {
      assert !Given(j.entries, k);
      return None;
    }
    assert forall k :: k in fields ==> (k in kwargs <==> Given(j.entries, k));
    r := Some(VData(name, map k | k in fields :: if k in kwargs then kwargs[k] else fields[k].default.value));
    AllEntriesOf(DecodeFields(j, HData(name, fields)), r.value.fields);
  }

  lemma AllSomeOf(rs: seq<Option<Value>>, vs: seq<Value>)
    requires |rs| == |vs| && forall i :: 0 <= i < |rs| ==> rs[i] == Some(vs[i])
    ensures AllSome(rs) == Some(vs)
  {
    assert AllSome(rs).value == vs;
  }

  lemma AllEntriesOf(rs: map<string, Option<Value>>, m: map<string, Value>)
    requires rs.Keys == m.Keys && forall k :: k in rs ==> rs[k] == Some(m[k])
    ensures AllEntries(rs) == Some(m)
  {
    assert AllEntries(rs).value == m;
  }

  // --------------------------------------------------- what a round trip keeps

  /** JSON values without enum members, what an `Any` field may hold and get back. */
  predicate PlainJson(v: Value) {
    match v
    case VNone | VBool(_) | VInt(_) | VFloat(_) | VStr(_) => true
    case VList(items) => forall i :: 0 <= i < |items| ==> PlainJson(items[i])
    case VDict(entries) => forall k :: k in entries ==> PlainJson(entries[k])
    case _ => false
  }

  predicate ScalarTyped(v: Value, h: Hint) {
    match h
    case HBool => v.VBool?
    case HInt => v.VInt? || v.VBool?
    case HFloat => v.VFloat? || ExactInt(v)
    case HStr => v.VStr?
    case HEnum(enum, members) => v.VEnum? && v.enum == enum && v.member in members
    case HDateTime => v.VDateTime? && v.zone != Naive
    case HDate => v.VDate?
    case HTime => v.VTime?
    case _ => false
  }

  /** The value fits its annotation; set members that are equal up to their zone are one member. */
  ghost predicate WellTyped(v: Value, h: Hint)
    decreases v, h
  {
    match h
    case HAny => PlainJson(v)
    case HOptional(inner) => v == VNone || WellTyped(v, inner)
    case HList(item) => v.VList? && forall i :: 0 <= i < |v.items| ==> WellTyped(v.items[i], item)
    case HSet(element) =>
      && v.VSet? && (forall x :: x in v.elements ==> WellTyped(x, element))
      && (forall x, y :: x in v.elements && y in v.elements && Norm(x, element) == Norm(y, element) ==> x == y)
    case HTupleOf(part) => v.VTuple? && forall i :: 0 <= i < |v.parts| ==> WellTyped(v.parts[i], part)
    case HTuple(parts) =>
      && v.VTuple? && |v.parts| == |parts|
      && (forall i :: 0 <= i < |parts| ==> WellTyped(v.parts[i], parts[i]))
    case HDict(entry) => v.VDict? && forall k :: k in v.entries ==> WellTyped(v.entries[k], entry)
    case HData(name, fields) =>
      && v.VData? && v.name == name && v.fields.Keys == fields.Keys
      && (forall k :: k in fields ==>
           if Hidden(k) then fields[k].default.Some? else WellTyped(v.fields[k], fields[k].hint))
    case _ => ScalarTyped(v, h)
  }

  /** A number where a wider one is expected becomes the wider one; a datetime is shown in UTC. */
  function NormScalar(v: Value, h: Hint): Value {
    match h
    case HInt => if v.VBool? then VInt(Number(v)) else v
    case HFloat => if v.VInt? || v.VBool? then VFloat(WholeFloat(Number(v))) else v
    case HDateTime => if v.VDateTime? then v.(zone := Utc) else v
    case _ => v
  }

  /** The value with its scalars normalised and its underscore fields reset. */
  ghost function Norm(v: Value, h: Hint): Value
    decreases v, h, 1
  {
    match h
    case HOptional(inner) => if v == VNone then v else Norm(v, inner)
    case HList(item) =>
      if v.VList? then VList(seq(|v.items|, i requires 0 <= i < |v.items| => Norm(v.items[i], item))) else v
    case HSet(element) => if v.VSet? then VSet(NormMembers(v, element).Values) else v
    case HTupleOf(part) =>
      if v.VTuple? then VTuple(seq(|v.parts|, i requires 0 <= i < |v.parts| => Norm(v.parts[i], part))) else v
    case HTuple(parts) =>
      if v.VTuple? && |v.parts| == |parts|
      then VTuple(seq(|parts|, i requires 0 <= i < |parts| => Norm(v.parts[i], parts[i]))) else v
    case HDict(entry) => if v.VDict? then VDict(NormEntries(v, entry)) else v
    case HData(_, fields) => if v.VData? then VData(v.name, NormFields(v, h)) else v
    case _ => NormScalar(v, h)
  }

  ghost function NormMembers(v: Value, element: Hint): (m: map<Value, Value>)
    requires v.VSet?
    ensures m.Keys == v.elements && forall x :: x in m ==> m[x] == Norm(x, element)
    decreases v, element, 0
  {
    map x | x in v.elements :: Norm(x, element)
  }

  ghost function NormEntries(v: Value, entry: Hint): (m: map<string, Value>)
    requires v.VDict?
    ensures m.Keys == v.entries.Keys && forall k :: k in m ==> m[k] == Norm(v.entries[k], entry)
    decreases v, entry, 0
  {
    map k | k in v.entries :: Norm(v.entries[k], entry)
  }

  ghost function NormFields(v: Value, h: Hint): (m: map<string, Value>)
    requires v.VData? && h.HData?
    ensures m.Keys == v.fields.Keys
    ensures forall k :: k in m && k in h.fields ==>
              m[k] == if Hidden(k) && h.fields[k].default.Some? then h.fields[k].default.value
                      else Norm(v.fields[k], h.fields[k].hint)
    decreases v, h, 0
  {
    map k | k in v.fields ::
      if k !in h.fields then v.fields[k]
      else if Hidden(k) && h.fields[k].default.Some? then h.fields[k].default.value
      else Norm(v.fields[k], h.fields[k].hint)
  }

  lemma {:induction false} PlainStays(v: Value)
    requires PlainJson(v)
    ensures Encodable(v) && ToJson(v) == v && Plain(v) == v
    decreases v
  {
    match v
    case VList(items) =>
      forall i | 0 <= i < |items|
        ensures Encodable(items[i]) && ToJson(items[i]) == items[i] && Plain(items[i]) == items[i]
      {
        PlainStays(items[i]);
      }
      assert ToJson(v).items == items && Plain(v).items == items;
    case VDict(entries) =>
      forall k | k in entries
        ensures Encodable(entries[k]) && ToJson(entries[k]) == entries[k] && Plain(entries[k]) == entries[k]
      {
        PlainStays(entries[k]);
      }
      assert ToJson(v).entries == entries && Plain(v).entries == entries;
    case _ =>
  }

  /** Well-typed values can always be encoded. */
  lemma {:induction false} TypedEncodable(v: Value, h: Hint)
    requires WellTyped(v, h)
    ensures Encodable(v)
    decreases v, h
  {
    match h
    case HAny => PlainStays(v);
    case HOptional(inner) => if v != VNone { TypedEncodable(v, inner); }
    case HList(item) =>
      forall i | 0 <= i < |v.items| ensures Encodable(v.items[i]) { TypedEncodable(v.items[i], item); }
    case HSet(element) =>
      forall x | x in v.elements ensures Encodable(x) { TypedEncodable(x, element); }
    case HTupleOf(part) =>
      forall i | 0 <= i < |v.parts| ensures Encodable(v.parts[i]) { TypedEncodable(v.parts[i], part); }
    case HTuple(parts) =>
      forall i | 0 <= i < |parts| ensures Encodable(v.parts[i]) { TypedEncodable(v.parts[i], parts[i]); }
    case HDict(entry) =>
      forall k | k in v.entries ensures Encodable(v.entries[k]) { TypedEncodable(v.entries[k], entry); }
    case HData(_, fields) =>
      forall k | k in fields && !Hidden(k) ensures Encodable(v.fields[k]) {
        TypedEncodable(v.fields[k], fields[k].hint);
      }
    case _ =>
  }

  /** Encoding always yields JSON, and yields null for `None` alone. */
  lemma {:induction false} EncodingIsJson(v: Value)
    ensures IsJson(ToJson(v))
    ensures ToJson(v) == VNone <==> v == VNone
    ensures Plain(ToJson(v)) == VNone <==> v == VNone
    decreases v
  {
    match v
    case VList(items) =>
      forall i | 0 <= i < |items| ensures IsJson(ToJson(items[i])) { EncodingIsJson(items[i]); }
    case VTuple(parts) =>
      forall i | 0 <= i < |parts| ensures IsJson(ToJson(parts[i])) { EncodingIsJson(parts[i]); }
    case VSet(elements) =>
      forall x | x in elements ensures IsJson(ToJson(x)) { EncodingIsJson(x); }
      SetIsJson(v);
    case VDict(entries) =>
      forall k | k in entries ensures IsJson(ToJson(entries[k])) { EncodingIsJson(entries[k]); }
    case VData(_, fields) =>
      forall k | k in fields && !Hidden(k) ensures IsJson(ToJson(fields[k])) { EncodingIsJson(fields[k]); }
    case _ =>
  }

  ghost predicate EncodedLeq(a: Value, b: Value) {
    KeyLeq(ToJson(a), ToJson(b))
  }

  lemma {:induction false} InsertEncoded(x: Value, xs: seq<Value>)
    ensures Insert(KeyLeq, ToJson(x), Each(xs)) == Each(Insert(EncodedLeq, x, xs))
  {
    if xs == [] || EncodedLeq(x, xs[0]) {
      InsertEncodedFirst(x, xs);
    } else {
      InsertEncoded(x, xs[1..]);
      InsertEncodedLater(x, xs);
    }
  }

  lemma InsertEncodedFirst(x: Value, xs: seq<Value>)
    requires xs == [] || EncodedLeq(x, xs[0])
    ensures Insert(KeyLeq, ToJson(x), Each(xs)) == Each(Insert(EncodedLeq, x, xs))
  {
    assert Each([x] + xs) == [ToJson(x)] + Each(xs);
  }

  lemma EachSplit(xs: seq<Value>)
    requires xs != []
    ensures Each(xs)[0] == ToJson(xs[0]) && Each(xs)[1..] == Each(xs[1..])
    ensures Each(xs) == [ToJson(xs[0])] + Each(xs[1..])
  {
  }

  lemma InsertEncodedLater(x: Value, xs: seq<Value>)
    requires xs != [] && !EncodedLeq(x, xs[0])
    requires Insert(KeyLeq, ToJson(x), Each(xs[1..])) == Each(Insert(EncodedLeq, x, xs[1..]))
    ensures Insert(KeyLeq, ToJson(x), Each(xs)) == Each(Insert(EncodedLeq, x, xs))
  {
    var rest := Insert(EncodedLeq, x, xs[1..]);
    EachSplit(xs);
    EachSplit([xs[0]] + rest);
  }

  /** Sorting the encodings is encoding the members sorted by their encodings. */
  lemma {:induction false} SortEncoded(xs: seq<Value>)
    ensures Sort(KeyLeq, Each(xs)) == Each(Sort(EncodedLeq, xs))
  {
    if xs != [] {
      SortEncoded(xs[1..]);
      assert Each(xs)[1..] == Each(xs[1..]);
      InsertEncoded(xs[0], Sort(EncodedLeq, xs[1..]));
    }
  }

  lemma SetListed(v: Value)
    requires v.VSet?
    ensures ToJson(v) == VList(Sort(KeyLeq, Each(Listed(v.elements))))
  {
    var zs := Listed(v.elements);
    assert seq(|zs|, i requires 0 <= i < |zs| => assert zs[i] in zs; ToJson(zs[i])) == Each(zs);
  }

  /** A set is encoded as the list of its members in some arrangement. */
  lemma SetArranged(v: Value) returns (xs: seq<Value>)
    requires v.VSet?
    ensures ToJson(v) == VList(Each(xs))
    ensures forall x :: x in xs <==> x in v.elements
  {
    SetListed(v);
    var zs := Listed(v.elements);
    SortEncoded(zs);
    xs := Sort(EncodedLeq, zs);
    SortMembers(EncodedLeq, zs);
  }

  lemma SetIsJson(v: Value)
    requires v.VSet?
    requires forall x :: x in v.elements ==> IsJson(ToJson(x))
    ensures IsJson(ToJson(v))
  {
    var xs := SetArranged(v);
    assert forall i :: 0 <= i < |xs| ==> xs[i] in xs;
  }

  // --------------------------------------------------------------- round trip

  /** What the decoder is given: the encoding itself, or what reading its text back yields. */
  ghost function Sent(v: Value, viaText: bool): Value {
    if viaText then Plain(ToJson(v)) else ToJson(v)
  }

  ghost predicate Trips(v: Value, h: Hint, viaText: bool) {
    Decode(Sent(v, viaText), h) == Some(Norm(v, h))
  }

  lemma ListTrips(v: Value, item: Hint, t: bool)
    requires v.VList? && forall i :: 0 <= i < |v.items| ==> Trips(v.items[i], item, t)
    ensures Trips(v, HList(item), t)
  {
    AllSomeOf(DecodeItems(Sent(v, t), item), Norm(v, HList(item)).items);
  }

  lemma TupleTrips(v: Value, parts: seq<Hint>, t: bool)
    requires v.VTuple? && |v.parts| == |parts| && forall i :: 0 <= i < |parts| ==> Trips(v.parts[i], parts[i], t)
    ensures Trips(v, HTuple(parts), t)
  {
    AllSomeOf(DecodeParts(Sent(v, t), HTuple(parts)), Norm(v, HTuple(parts)).parts);
  }

  lemma TupleOfTrips(v: Value, part: Hint, t: bool)
    requires v.VTuple? && forall i :: 0 <= i < |v.parts| ==> Trips(v.parts[i], part, t)
    ensures Trips(v, HTupleOf(part), t)
  {
    AllSomeOf(DecodeItems(Sent(v, t), part), Norm(v, HTupleOf(part)).parts);
  }

  lemma DictSent(v: Value, t: bool)
    requires v.VDict?
    ensures Sent(v, t).VDict? && Sent(v, t).entries.Keys == v.entries.Keys
    ensures forall k :: k in v.entries ==> Sent(v, t).entries[k] == Sent(v.entries[k], t)
  {
  }

  lemma DictTrips(v: Value, entry: Hint, t: bool)
    requires v.VDict? && forall k :: k in v.entries ==> Trips(v.entries[k], entry, t)
    ensures Trips(v, HDict(entry), t)
  {
    DictSent(v, t);
    AllEntriesOf(DecodeEntries(Sent(v, t), entry), NormEntries(v, entry));
  }

  lemma DataTrips(v: Value, name: string, fields: map<string, Field>, t: bool)
    requires v.VData? && v.name == name && v.fields.Keys == fields.Keys
    requires forall k :: k in fields && Hidden(k) ==> fields[k].default.Some?
    requires forall k :: k in fields && !Hidden(k) ==> Trips(v.fields[k], fields[k].hint, t)
    ensures Trips(v, HData(name, fields), t)
  {
    DataSent(v, t);
    var j, h := Sent(v, t), HData(name, fields);
    var rs, m := DecodeFields(j, h), NormFields(v, h);
    forall k | k in rs ensures rs[k] == Some(m[k]) {
      assert Given(j.entries, k) <==> !Hidden(k);
      if !Hidden(k) {
        assert Trips(v.fields[k], fields[k].hint, t);
      }
    }
    AllEntriesOf(rs, m);
  }

  lemma DataSent(v: Value, t: bool)
    requires v.VData?
    ensures Sent(v, t).VDict?
    ensures Sent(v, t).entries.Keys == set k | k in v.fields && !Hidden(k)
    ensures forall k :: k in Sent(v, t).entries ==> Sent(v, t).entries[k] == Sent(v.fields[k], t)
  {
  }

  lemma SetSent(v: Value, t: bool) returns (xs: seq<Value>)
    requires v.VSet?
    ensures Sent(v, t).VList? && |Sent(v, t).items| == |xs|
    ensures forall i :: 0 <= i < |xs| ==> Sent(v, t).items[i] == Sent(xs[i], t)
    ensures forall x :: x in xs <==> x in v.elements
  {
    xs := SetArranged(v);
  }

  /** The image of a set, listed. */
  lemma ListedImage(xs: seq<Value>, ys: seq<Value>, image: map<Value, Value>)
    requires |xs| == |ys| && forall x :: x in xs <==> x in image
    requires forall i :: 0 <= i < |xs| ==> xs[i] in image && ys[i] == image[xs[i]]
    ensures (set y | y in ys) == image.Values
  {
    forall y ensures y in ys <==> y in image.Values {
      if y in image.Values {
        var x :| x in image && image[x] == y;
        var i :| 0 <= i < |xs| && xs[i] == x;
        assert ys[i] == y;
      }
      if y in ys {
        var i :| 0 <= i < |ys| && ys[i] == y;
        assert image[xs[i]] == y;
      }
    }
  }

  lemma DecodedSet(j: Value, ys: seq<Value>, element: Hint)
    requires j.VList? && |ys| == |j.items|
    requires forall i :: 0 <= i < |ys| ==> Decode(j.items[i], element) == Some(ys[i])
    ensures Decode(j, HSet(element)) == Some(VSet(set y | y in ys))
  {
    AllSomeOf(DecodeItems(j, element), ys);
  }

  ghost function NormEach(xs: seq<Value>, h: Hint): (ys: seq<Value>)
    ensures |ys| == |xs| && forall i :: 0 <= i < |xs| ==> ys[i] == Norm(xs[i], h)
  {
    seq(|xs|, i requires 0 <= i < |xs| => Norm(xs[i], h))
  }

  lemma SetItemsTrip(j: Value, xs: seq<Value>, element: Hint, t: bool)
    requires j.VList? && |j.items| == |xs|
    requires forall i :: 0 <= i < |xs| ==> j.items[i] == Sent(xs[i], t) && Trips(xs[i], element, t)
    ensures Decode(j, HSet(element)) == Some(VSet(set y | y in NormEach(xs, element)))
  {
    DecodedSet(j, NormEach(xs, element), element);
  }

  lemma SetNormalised(v: Value, xs: seq<Value>, element: Hint)
    requires v.VSet? && forall x :: x in xs <==> x in v.elements
    ensures Norm(v, HSet(element)) == VSet(set y | y in NormEach(xs, element))
  {
    assert forall i :: 0 <= i < |xs| ==> xs[i] in xs;
    ListedImage(xs, NormEach(xs, element), NormMembers(v, element));
  }

  lemma SetTrips(v: Value, element: Hint, t: bool)
    requires v.VSet? && forall x :: x in v.elements ==> Trips(x, element, t)
    ensures Trips(v, HSet(element), t)
  {
    var xs := SetSent(v, t);
    forall i | 0 <= i < |xs| ensures Trips(xs[i], element, t) {
      assert xs[i] in xs;
    }
    SetItemsTrip(Sent(v, t), xs, element, t);
    SetNormalised(v, xs, element);
  }

  /** A value that is sent as a text. */
  lemma TextTrips(v: Value, text: string, h: Hint, t: bool)
    requires ToJson(v) == VStr(text) && (h.HDateTime? || h.HDate? || h.HTime?)
    requires DecodeScalar(VStr(text), h) == Some(NormScalar(v, h))
    ensures Trips(v, h, t)
  {
    assert Plain(VStr(text)) == VStr(text);
  }

  lemma StampDecoded(text: string, d: Date, u: Time, zone: Zone)
    requires ReadStamp(text) == Some((d, u))
    ensures DecodeScalar(VStr(text), HDateTime) == Some(NormScalar(VDateTime(d, u, zone), HDateTime))
  {
  }

  lemma StampSent(d: Date, u: Time, zone: Zone)
    ensures ToJson(VDateTime(d, u, zone)) == VStr(StampText(d, u))
  {
  }

  lemma StampTrips(d: Date, u: Time, zone: Zone, t: bool)
    ensures Trips(VDateTime(d, u, zone), HDateTime, t)
  {
    StampSurvives(d, u);
    StampDecoded(StampText(d, u), d, u, zone);
    StampSent(d, u, zone);
    TextTrips(VDateTime(d, u, zone), StampText(d, u), HDateTime, t);
  }

  lemma DateDecoded(text: string, d: Date)
    requires ReadDate(text) == Some(d)
    ensures DecodeScalar(VStr(text), HDate) == Some(NormScalar(VDate(d), HDate))
  {
  }

  lemma DateSent(d: Date)
    ensures ToJson(VDate(d)) == VStr(DateText(d))
  {
  }

  lemma DateTrips(d: Date, t: bool)
    ensures Trips(VDate(d), HDate, t)
  {
    DateSurvives(d);
    DateDecoded(DateText(d), d);
    DateSent(d);
    TextTrips(VDate(d), DateText(d), HDate, t);
  }

  lemma ClockDecoded(text: string, u: Time)
    requires ReadTime(text) == Some(u)
    ensures DecodeScalar(VStr(text), HTime) == Some(NormScalar(VTime(u), HTime))
  {
  }

  lemma ClockSent(u: Time)
    ensures ToJson(VTime(u)) == VStr(TimeText(u))
  {
  }

  lemma ClockTrips(u: Time, t: bool)
    ensures Trips(VTime(u), HTime, t)
  {
    TimeSurvives(u);
    ClockDecoded(TimeText(u), u);
    ClockSent(u);
    TextTrips(VTime(u), TimeText(u), HTime, t);
  }

  lemma TimeTrips(v: Value, h: Hint, t: bool)
    requires ScalarTyped(v, h) && (h.HDateTime? || h.HDate? || h.HTime?)
    ensures Trips(v, h, t)
  {
    match v
    case VDateTime(d, u, zone) => StampTrips(d, u, zone, t);
    case VDate(d) => DateTrips(d, t);
    case VTime(u) => ClockTrips(u, t);
  }

  lemma ScalarTrips(v: Value, h: Hint, t: bool)
    requires ScalarTyped(v, h)
    ensures Trips(v, h, t)
  {
    if h.HDateTime? || h.HDate? || h.HTime? {
      TimeTrips(v, h, t);
    }
  }

  /**
   * The round trip: decoding what was encoded, directly or through its text, gives the value back up to
   * the zone datetimes are shown in and the underscore fields.
   */
  lemma {:induction false} RoundTrip(v: Value, h: Hint, viaText: bool)
    requires WellTyped(v, h)
    ensures Trips(v, h, viaText)
    decreases v, h
  {
    match h
    case HAny => PlainStays(v);
    case HOptional(inner) =>
      if v != VNone {
        RoundTrip(v, inner, viaText);
        EncodingIsJson(v);
      }
    case HList(item) =>
      forall i | 0 <= i < |v.items| ensures Trips(v.items[i], item, viaText) { RoundTrip(v.items[i], item, viaText); }
      ListTrips(v, item, viaText);
    case HSet(element) =>
      forall x | x in v.elements ensures Trips(x, element, viaText) { RoundTrip(x, element, viaText); }
      SetTrips(v, element, viaText);
    case HTupleOf(part) =>
      forall i | 0 <= i < |v.parts| ensures Trips(v.parts[i], part, viaText) { RoundTrip(v.parts[i], part, viaText); }
      TupleOfTrips(v, part, viaText);
    case HTuple(parts) =>
      forall i | 0 <= i < |parts| ensures Trips(v.parts[i], parts[i], viaText) {
        RoundTrip(v.parts[i], parts[i], viaText);
      }
      TupleTrips(v, parts, viaText);
    case HDict(entry) =>
      forall k | k in v.entries ensures Trips(v.entries[k], entry, viaText) { RoundTrip(v.entries[k], entry, viaText); }
      DictTrips(v, entry, viaText);
    case HData(name, fields) =>
      forall k | k in fields && !Hidden(k) ensures Trips(v.fields[k], fields[k].hint, viaText) {
        RoundTrip(v.fields[k], fields[k].hint, viaText);
      }
      DataTrips(v, name, fields, viaText);
    case _ => ScalarTrips(v, h, viaText);
  }

  // -------------------------------------------------------------- canonical text

  /** `dumps`: sorted keys and compact separators. */
  ghost function Dumps(v: Value): string {
    EncodingIsJson(v);
    Render(ToJson(v), COMPACT)
  }

  /** A stored snapshot comes back from its text. */
  lemma TextRoundTrip(v: Value, h: Hint)
    requires WellTyped(v, h)
    ensures Encodable(v)
    ensures Loads(Dumps(v)).Some? && Decode(Loads(Dumps(v)).value, h) == Some(Norm(v, h))
  {
    TypedEncodable(v, h);
    EncodingIsJson(v);
    LoadsRender(ToJson(v), COMPACT);
    RoundTrip(v, h, true);
  }

  /** Values with the same sort key are the same value. */
  lemma SameKeySameValue(x: Value, y: Value, h: Hint)
    requires WellTyped(x, h) && WellTyped(y, h)
    requires KeyLeq(ToJson(x), ToJson(y)) && KeyLeq(ToJson(y), ToJson(x))
    ensures Norm(x, h) == Norm(y, h)
  {
    StrLeqOrder();
    EncodingIsJson(x);
    EncodingIsJson(y);
    assert KeyText(ToJson(x)) == KeyText(ToJson(y));
    SameTextSamePlain(ToJson(x), ToJson(y), SPACED);
    RoundTrip(x, h, true);
    RoundTrip(y, h, true);
  }

  /** So `_sort_key` separates the encoded members of a set. */
  lemma KeySeparates(v: Value, element: Hint, xs: seq<Value>)
    requires WellTyped(v, HSet(element)) && forall x :: x in xs ==> x in v.elements
    ensures Separates(KeyLeq, Each(xs))
  {
    var js := Each(xs);
    forall a, b | a in js && b in js && KeyLeq(a, b) && KeyLeq(b, a) ensures a == b {
      var i :| 0 <= i < |js| && js[i] == a;
      var k :| 0 <= k < |js| && js[k] == b;
      assert xs[i] in xs && xs[k] in xs;
      SameKeySameValue(xs[i], xs[k], element);
    }
  }

  /** A set gets one encoding, in whatever order its members are enumerated. */
  lemma EnumerationFree(v: Value, element: Hint, xs: seq<Value>)
    requires WellTyped(v, HSet(element)) && multiset(xs) == multiset(v.elements)
    ensures ToJson(v) == VList(Sort(KeyLeq, Each(xs)))
  {
    SetListed(v);
    var zs := Listed(v.elements);
    KeySeparates(v, element, zs);
    SameEncodings(zs, xs);
  }

  lemma SameEncodings(xs: seq<Value>, ys: seq<Value>)
    requires multiset(xs) == multiset(ys) && Separates(KeyLeq, Each(xs))
    ensures Sort(KeyLeq, Each(xs)) == Sort(KeyLeq, Each(ys))
  {
    ImagePermuted(x => ToJson(x), xs, ys, Each(xs), Each(ys));
    KeyOrder();
    SortOrderFree(KeyLeq, Each(xs), Each(ys));
  }

  /** Normalising the members of a set keeps them apart. */
  lemma NormApart(v: Value, element: Hint, xs: seq<Value>)
    requires WellTyped(v, HSet(element)) && Distinct(xs) && forall x :: x in xs ==> x in v.elements
    ensures Distinct(NormEach(xs, element))
  {
    forall i, j | 0 <= i < j < |xs| ensures Norm(xs[i], element) != Norm(xs[j], element) {
      assert xs[i] in xs && xs[j] in xs;
    }
  }

  lemma NormDistinct(v: Value, element: Hint)
    requires WellTyped(v, HSet(element))
    ensures multiset(NormEach(Listed(v.elements), element)) == multiset(NormMembers(v, element).Values)
  {
    var xs := Listed(v.elements);
    OnceDistinct(xs, v.elements);
    NormApart(v, element, xs);
    NormListed(v, element, xs);
    DistinctOnce(NormEach(xs, element), NormMembers(v, element).Values);
  }

  lemma NormListed(v: Value, element: Hint, xs: seq<Value>)
    requires v.VSet? && forall x :: x in xs <==> x in v.elements
    ensures forall y :: y in NormEach(xs, element) <==> y in NormMembers(v, element).Values
  {
    assert forall i :: 0 <= i < |xs| ==> xs[i] in xs;
    var ys := NormEach(xs, element);
    ListedImage(xs, ys, NormMembers(v, element));
    assert forall y :: y in ys <==> y in (set y | y in ys);
  }

  lemma SetKeepsEncoding(v: Value, element: Hint)
    requires WellTyped(v, HSet(element))
    requires forall x :: x in v.elements ==> ToJson(Norm(x, element)) == ToJson(x)
    ensures ToJson(Norm(v, HSet(element))) == ToJson(v)
  {
    var xs := Listed(v.elements);
    assert forall i :: 0 <= i < |xs| ==> xs[i] in xs;
    SameEach(xs, element);
    KeySeparates(v, element, xs);
    SetSorted(v, element, NormEach(xs, element));
    SetListed(v);
  }

  /** The encoding of a normalised set, from any separated listing of it. */
  lemma SetSorted(v: Value, element: Hint, ys: seq<Value>)
    requires WellTyped(v, HSet(element)) && ys == NormEach(Listed(v.elements), element)
    requires Separates(KeyLeq, Each(ys))
    ensures ToJson(Norm(v, HSet(element))) == VList(Sort(KeyLeq, Each(ys)))
  {
    NormDistinct(v, element);
    SetListed(Norm(v, HSet(element)));
    SameEncodings(ys, Listed(NormMembers(v, element).Values));
  }

  lemma SameEach(xs: seq<Value>, element: Hint)
    requires forall i :: 0 <= i < |xs| ==> ToJson(Norm(xs[i], element)) == ToJson(xs[i])
    ensures Each(NormEach(xs, element)) == Each(xs)
  {
  }

  lemma SameItems(xs: seq<Value>, ys: seq<Value>)
    requires |xs| == |ys| && forall i :: 0 <= i < |xs| ==> ToJson(xs[i]) == ToJson(ys[i])
    ensures ToJson(VList(xs)) == ToJson(VList(ys)) && ToJson(VTuple(xs)) == ToJson(VTuple(ys))
  {
    assert ToJson(VList(xs)).items == ToJson(VList(ys)).items;
    assert ToJson(VTuple(xs)).items == ToJson(VTuple(ys)).items;
  }

  lemma SameEntries(m: map<string, Value>, n: map<string, Value>)
    requires m.Keys == n.Keys && forall k :: k in m ==> ToJson(m[k]) == ToJson(n[k])
    ensures ToJson(VDict(m)) == ToJson(VDict(n))
  {
    assert ToJson(VDict(m)).entries == ToJson(VDict(n)).entries;
  }

  lemma SameFields(name: string, m: map<string, Value>, n: map<string, Value>)
    requires m.Keys == n.Keys && forall k :: k in m && !Hidden(k) ==> ToJson(m[k]) == ToJson(n[k])
    ensures ToJson(VData(name, m)) == ToJson(VData(name, n))
  {
    assert ToJson(VData(name, m)).entries == ToJson(VData(name, n)).entries;
  }

  /** Every number is of the very type its annotation names. */
  ghost predicate Exact(v: Value, h: Hint)
    decreases v, h
  {
    match h
    case HInt => !v.VBool?
    case HFloat => v.VFloat?
    case HOptional(inner) => v == VNone || Exact(v, inner)
    case HList(item) => v.VList? ==> forall i :: 0 <= i < |v.items| ==> Exact(v.items[i], item)
    case HSet(element) => v.VSet? ==> forall x :: x in v.elements ==> Exact(x, element)
    case HTupleOf(part) => v.VTuple? ==> forall i :: 0 <= i < |v.parts| ==> Exact(v.parts[i], part)
    case HTuple(parts) =>
      (v.VTuple? && |v.parts| == |parts|) ==> forall i :: 0 <= i < |parts| ==> Exact(v.parts[i], parts[i])
    case HDict(entry) => v.VDict? ==> forall k :: k in v.entries ==> Exact(v.entries[k], entry)
    case HData(_, fields) =>
      v.VData? ==> forall k :: k in v.fields && k in fields && !Hidden(k) ==> Exact(v.fields[k], fields[k].hint)
    case _ => true
  }

  /** Zones and underscore fields never reach the text. */
  lemma {:induction false} NormKeepsEncoding(v: Value, h: Hint)
    requires WellTyped(v, h) && Exact(v, h)
    ensures ToJson(Norm(v, h)) == ToJson(v)
    decreases v, h, 1
  {
    match h
    case HOptional(inner) => if v != VNone { NormKeepsEncoding(v, inner); }
    case HList(item) =>
      forall i | 0 <= i < |v.items| { NormKeepsEncoding(v.items[i], item); }
      SameItems(Norm(v, h).items, v.items);
    case HSet(element) =>
      forall x | x in v.elements { NormKeepsEncoding(x, element); }
      SetKeepsEncoding(v, element);
    case HTupleOf(_) => TupleKeepsEncoding(v, h);
    case HTuple(_) => TupleKeepsEncoding(v, h);
    case HDict(_) => DictKeepsEncoding(v, h);
    case HData(_, _) => DictKeepsEncoding(v, h);
    case _ => ScalarKeepsEncoding(v, h);
  }

  lemma ScalarKeepsEncoding(v: Value, h: Hint)
    requires (h.HAny? && PlainJson(v)) || (ScalarTyped(v, h) && Exact(v, h))
    ensures ToJson(Norm(v, h)) == ToJson(v)
  {
  }

  lemma {:induction false} TupleKeepsEncoding(v: Value, h: Hint)
    requires WellTyped(v, h) && Exact(v, h) && (h.HTupleOf? || h.HTuple?)
    ensures ToJson(Norm(v, h)) == ToJson(v)
    decreases v, h, 0
  {
    forall i | 0 <= i < |v.parts| { NormKeepsEncoding(v.parts[i], if h.HTuple? then h.parts[i] else h.part); }
    SameItems(Norm(v, h).parts, v.parts);
  }

  lemma {:induction false} DictKeepsEncoding(v: Value, h: Hint)
    requires WellTyped(v, h) && Exact(v, h) && (h.HDict? || h.HData?)
    ensures ToJson(Norm(v, h)) == ToJson(v)
    decreases v, h, 0
  {
    if h.HDict? {
      forall k | k in v.entries { NormKeepsEncoding(v.entries[k], h.entry); }
      SameEntries(NormEntries(v, h.entry), v.entries);
    } else {
      forall k | k in h.fields && !Hidden(k) { NormKeepsEncoding(v.fields[k], h.fields[k].hint); }
      SameFields(v.name, NormFields(v, h), v.fields);
    }
  }

  /**
   * Different values have different texts, and values of exact number types the same text only if they are
   * the same.
   */
  lemma CanonicalText(v: Value, w: Value, h: Hint)
    requires WellTyped(v, h) && WellTyped(w, h)
    ensures Dumps(v) == Dumps(w) ==> Norm(v, h) == Norm(w, h)
    ensures Exact(v, h) && Exact(w, h) ==> (Dumps(v) == Dumps(w) <==> Norm(v, h) == Norm(w, h))
  {
    SameTextSameValue(v, w, h);
    if Exact(v, h) && Exact(w, h) && Norm(v, h) == Norm(w, h) {
      NormKeepsEncoding(v, h);
      NormKeepsEncoding(w, h);
    }
  }

  lemma SameTextSameValue(v: Value, w: Value, h: Hint)
    requires WellTyped(v, h) && WellTyped(w, h)
    ensures Dumps(v) == Dumps(w) ==> Norm(v, h) == Norm(w, h)
  {
    TextRoundTrip(v, h);
    TextRoundTrip(w, h);
  }

  /** An `Any` field gets its value back exactly when the value was JSON, and through text without enum members. */
  lemma AnySurvivesExactly(v: Value)
    requires Encodable(v)
    ensures Decode(ToJson(v), HAny) == Some(v) <==> IsJson(v)
    ensures Decode(Plain(ToJson(v)), HAny) == Some(v) <==> PlainJson(v)
  {
    EncodingIsJson(v);
    PlainIsPlain(ToJson(v));
    if IsJson(v) {
      JsonStays(v);
    }
    if PlainJson(v) {
      PlainStays(v);
    }
  }

  lemma {:induction false} JsonStays(v: Value)
    requires IsJson(v)
    ensures ToJson(v) == v
    decreases v
  {
    match v
    case VList(items) =>
      forall i | 0 <= i < |items| ensures ToJson(items[i]) == items[i] { JsonStays(items[i]); }
      assert ToJson(v).items == items;
    case VDict(entries) =>
      forall k | k in entries ensures ToJson(entries[k]) == entries[k] { JsonStays(entries[k]); }
      assert ToJson(v).entries == entries;
    case _ =>
  }

  lemma {:induction false} PlainIsPlain(j: Value)
    requires IsJson(j)
    ensures PlainJson(Plain(j))
    decreases j
  {
    match j
    case VList(items) =>
      forall i | 0 <= i < |items| ensures PlainJson(Plain(items[i])) { PlainIsPlain(items[i]); }
    case VDict(entries) =>
      forall k | k in entries ensures PlainJson(Plain(entries[k])) { PlainIsPlain(entries[k]); }
    case _ =>
  }

  // -------------------------------------- where the text is not canonical

  /** Equal numbers of different types have different texts: the text of a float field may hold either. */
  lemma PromotedNumberChangesText()
    ensures WellTyped(VInt(1), HFloat) && WellTyped(VFloat(WholeFloat(1)), HFloat)
    ensures Norm(VInt(1), HFloat) == Norm(VFloat(WholeFloat(1)), HFloat)
    ensures Dumps(VInt(1)) != Dumps(VFloat(WholeFloat(1)))
  {
    assert |WholeFloat(1)| == |Signed(1)| + 2;
  }

  /** Normalising leaves a well-typed value that normalising leaves alone. */
  lemma {:induction false} NormTwice(v: Value, h: Hint)
    requires WellTyped(v, h)
    ensures WellTyped(Norm(v, h), h) && Norm(Norm(v, h), h) == Norm(v, h)
    decreases v, h, 1
  {
    match h
    case HOptional(inner) => if v != VNone { NormTwice(v, inner); }
    case HList(item) =>
      forall i | 0 <= i < |v.items| { NormTwice(v.items[i], item); }
      assert Norm(Norm(v, h), h).items == Norm(v, h).items;
    case HTupleOf(_) => TupleNormTwice(v, h);
    case HTuple(_) => TupleNormTwice(v, h);
    case HSet(element) =>
      forall x | x in v.elements { NormTwice(x, element); }
      SetNormTwice(v, element);
    case HDict(_) => DictNormTwice(v, h);
    case HData(_, _) => DictNormTwice(v, h);
    case _ =>
  }

  lemma {:induction false} TupleNormTwice(v: Value, h: Hint)
    requires WellTyped(v, h) && (h.HTupleOf? || h.HTuple?)
    ensures WellTyped(Norm(v, h), h) && Norm(Norm(v, h), h) == Norm(v, h)
    decreases v, h, 0
  {
    forall i | 0 <= i < |v.parts| { NormTwice(v.parts[i], if h.HTuple? then h.parts[i] else h.part); }
    assert Norm(Norm(v, h), h).parts == Norm(v, h).parts;
  }

  lemma {:induction false} DictNormTwice(v: Value, h: Hint)
    requires WellTyped(v, h) && (h.HDict? || h.HData?)
    ensures WellTyped(Norm(v, h), h) && Norm(Norm(v, h), h) == Norm(v, h)
    decreases v, h, 0
  {
    if h.HDict? {
      forall k | k in v.entries { NormTwice(v.entries[k], h.entry); }
      assert NormEntries(Norm(v, h), h.entry) == NormEntries(v, h.entry);
    } else {
      forall k | k in h.fields && !Hidden(k) { NormTwice(v.fields[k], h.fields[k].hint); }
      assert NormFields(Norm(v, h), h) == NormFields(v, h);
    }
  }

  lemma SetNormTwice(v: Value, element: Hint)
    requires WellTyped(v, HSet(element))
    requires forall x :: x in v.elements ==>
               WellTyped(Norm(x, element), element) && Norm(Norm(x, element), element) == Norm(x, element)
    ensures WellTyped(Norm(v, HSet(element)), HSet(element))
    ensures Norm(Norm(v, HSet(element)), HSet(element)) == Norm(v, HSet(element))
  {
    var w := Norm(v, HSet(element));
    var image := NormMembers(v, element);
    forall y | y in w.elements ensures WellTyped(y, element) && Norm(y, element) == y {
      var x :| x in image && image[x] == y;
    }
    assert NormMembers(w, element).Values == w.elements by {
      forall y | y in w.elements ensures y in NormMembers(w, element).Values {
        assert NormMembers(w, element)[y] == y;
      }
    }
  }

  /** The members of a set whose text normalising leaves alone are each left alone. */
  lemma MemberKept(v: Value, element: Hint, x: Value)
    requires WellTyped(v, HSet(element)) && x in v.elements
    requires Sent(Norm(v, HSet(element)), true) == Sent(v, true)
    ensures Sent(Norm(x, element), true) == Sent(x, true)
  {
    var w := Norm(v, HSet(element));
    var y := OneSent(v, w, x);
    var z := MemberBehind(v, element, y);
    NormTwice(z, element);
    RoundTrip(x, element, true);
    RoundTrip(y, element, true);
  }

  /** Sets with one JSON text hold, for each member, one with the same text. */
  lemma OneSent(v: Value, w: Value, x: Value) returns (y: Value)
    requires v.VSet? && w.VSet? && x in v.elements && Sent(w, true) == Sent(v, true)
    ensures y in w.elements && Sent(y, true) == Sent(x, true)
  {
    var xs := SetSent(v, true);
    var ys := SetSent(w, true);
    var i :| 0 <= i < |xs| && xs[i] == x;
    y := ys[i];
    assert y in ys;
  }

  lemma MemberBehind(v: Value, element: Hint, y: Value) returns (z: Value)
    requires v.VSet? && Norm(v, HSet(element)).VSet? && y in Norm(v, HSet(element)).elements
    ensures z in v.elements && y == Norm(z, element)
  {
    var image := NormMembers(v, element);
    z :| z in image && image[z] == y;
  }

  /** Where normalising does not change the JSON text, there was nothing to promote. */
  lemma {:induction false} KeptIsExact(v: Value, h: Hint)
    requires WellTyped(v, h) && Sent(Norm(v, h), true) == Sent(v, true)
    ensures Exact(v, h)
    decreases v, h
  {
    match h
    case HOptional(inner) => if v != VNone { KeptIsExact(v, inner); }
    case HList(item) =>
      forall i | 0 <= i < |v.items| ensures Exact(v.items[i], item) {
        ItemKept(v, Norm(v, h), i);
        KeptIsExact(v.items[i], item);
      }
    case HTupleOf(part) =>
      forall i | 0 <= i < |v.parts| ensures Exact(v.parts[i], part) {
        PartKept(v, Norm(v, h), i);
        KeptIsExact(v.parts[i], part);
      }
    case HTuple(parts) =>
      forall i | 0 <= i < |parts| ensures Exact(v.parts[i], parts[i]) {
        PartKept(v, Norm(v, h), i);
        KeptIsExact(v.parts[i], parts[i]);
      }
    case HSet(element) =>
      forall x | x in v.elements ensures Exact(x, element) {
        MemberKept(v, element, x);
        KeptIsExact(x, element);
      }
    case HDict(entry) =>
      forall k | k in v.entries ensures Exact(v.entries[k], entry) {
        EntryKept(v, Norm(v, h), k);
        KeptIsExact(v.entries[k], entry);
      }
    case HData(_, fields) =>
      forall k | k in fields && !Hidden(k) ensures Exact(v.fields[k], fields[k].hint) {
        FieldKept(v, Norm(v, h), k);
        KeptIsExact(v.fields[k], fields[k].hint);
      }
    case _ =>
  }

  lemma ItemKept(v: Value, w: Value, i: nat)
    requires v.VList? && w.VList? && i < |v.items| == |w.items| && Sent(v, true) == Sent(w, true)
    ensures Sent(v.items[i], true) == Sent(w.items[i], true)
  {
    assert Sent(v, true).items[i] == Sent(v.items[i], true) && Sent(w, true).items[i] == Sent(w.items[i], true);
  }

  lemma PartKept(v: Value, w: Value, i: nat)
    requires v.VTuple? && w.VTuple? && i < |v.parts| == |w.parts| && Sent(v, true) == Sent(w, true)
    ensures Sent(v.parts[i], true) == Sent(w.parts[i], true)
  {
    assert Sent(v, true).items[i] == Sent(v.parts[i], true) && Sent(w, true).items[i] == Sent(w.parts[i], true);
  }

  lemma EntryKept(v: Value, w: Value, k: string)
    requires v.VDict? && w.VDict? && k in v.entries && k in w.entries && Sent(v, true) == Sent(w, true)
    ensures Sent(v.entries[k], true) == Sent(w.entries[k], true)
  {
    assert Sent(v, true).entries[k] == Sent(v.entries[k], true) && Sent(w, true).entries[k] == Sent(w.entries[k], true);
  }

  lemma FieldKept(v: Value, w: Value, k: string)
    requires v.VData? && w.VData? && k in v.fields && k in w.fields && !Hidden(k) && Sent(v, true) == Sent(w, true)
    ensures Sent(v.fields[k], true) == Sent(w.fields[k], true)
  {
    assert Sent(v, true).entries[k] == Sent(v.fields[k], true) && Sent(w, true).entries[k] == Sent(w.fields[k], true);
  }

  /**
   * The text of a value is the canonical one, that of its normalised form, exactly when no `bool` stands
   * for an `int` and no `int` or `bool` for a `float`.
   */
  lemma CanonicalExactly(v: Value, h: Hint)
    requires WellTyped(v, h)
    ensures Dumps(Norm(v, h)) == Dumps(v) <==> Exact(v, h)
  {
    if Exact(v, h) {
      NormKeepsEncoding(v, h);
    }
    if Dumps(Norm(v, h)) == Dumps(v) {
      EncodingIsJson(v);
      EncodingIsJson(Norm(v, h));
      SameTextSamePlain(ToJson(Norm(v, h)), ToJson(v), COMPACT);
      KeptIsExact(v, h);
    }
  }
}

/**
 * What the codec refuses, what it accepts for each annotation, and how it arranges a set
 * (backend/app/db/snapshot_codec.py).
 */
module SnapshotLaws {
  import opened Decimal
  import opened IsoTime
  import opened JsonText
  import opened Prelude
  import opened Sorting
  import opened Values
  import opened SnapshotCodec

  // ------------------------------------------------------------ what is refused

  /** Directly inside, underscore fields aside. */
  predicate IsChild(v: Value, c: Value) {
    match v
    case VList(items) => c in items
    case VTuple(parts) => c in parts
    case VSet(elements) => c in elements
    case VDict(entries) => exists k :: k in entries && entries[k] == c
    case VData(_, fields) => exists k :: k in fields && (k == "" || k[0] != '_') && fields[k] == c
    case _ => false
  }

  /** From the value inwards, one step at a time. */
  predicate Chain(v: Value, chain: seq<Value>) {
    && chain != [] && chain[0] == v
    && forall i :: 0 < i < |chain| ==> IsChild(chain[i - 1], chain[i])
  }

  predicate EndsNaive(chain: seq<Value>) {
    chain != [] && chain[|chain| - 1].VDateTime? && chain[|chain| - 1].zone == Naive
  }

  lemma {:induction false} NoChainToNaive(v: Value, chain: seq<Value>)
    requires Encodable(v) && Chain(v, chain)
    ensures !EndsNaive(chain)
    decreases |chain|
  {
    if |chain| > 1 {
      assert IsChild(chain[0], chain[1]);
      ChildEncodable(v, chain[1]);
      assert Chain(chain[1], chain[1..]);
      NoChainToNaive(chain[1], chain[1..]);
    }
  }

  lemma ChildEncodable(v: Value, c: Value)
    requires Encodable(v) && IsChild(v, c)
    ensures Encodable(c)
  {
  }

  lemma {:induction false} ChainToNaive(v: Value) returns (chain: seq<Value>)
    requires !Encodable(v)
    ensures Chain(v, chain) && EndsNaive(chain)
    decreases v
  {
    chain := [v];
    if !v.VDateTime? {
      var c := BadChild(v);
      var rest := ChainToNaive(c);
      chain := [v] + rest;
    }
  }

  lemma BadChild(v: Value) returns (c: Value)
    requires !Encodable(v) && !v.VDateTime?
    ensures IsChild(v, c) && !Encodable(c) && c < v
  {
    match v
    case VList(items) =>
      var i :| 0 <= i < |items| && !Encodable(items[i]);
      c := items[i];
    case VTuple(parts) =>
      var i :| 0 <= i < |parts| && !Encodable(parts[i]);
      c := parts[i];
    case VSet(elements) =>
      c :| c in elements && !Encodable(c);
    case VDict(entries) =>
      var k :| k in entries && !Encodable(entries[k]);
      c := entries[k];
    case VData(_, fields) =>
      var k :| k in fields && !Hidden(k) && !Encodable(fields[k]);
      c := fields[k];
  }

  /** A value is refused exactly when a naive datetime stands somewhere in it, outside underscore fields. */
  lemma EncodableExactly(v: Value)
    ensures Encodable(v) <==> forall chain :: Chain(v, chain) ==> !EndsNaive(chain)
  {
    if Encodable(v) {
      forall chain | Chain(v, chain) ensures !EndsNaive(chain) {
        NoChainToNaive(v, chain);
      }
    } else {
      var chain := ChainToNaive(v);
    }
  }

  // ----------------------------------------------------------- what is accepted

  /** What each scalar annotation makes of a JSON value; anything else fails. */
  lemma ScalarReading(j: Value, h: Hint)
    ensures h.HBool? ==> Decode(j, h) == if j.VBool? then Some(j) else None
    ensures h.HStr? ==> Decode(j, h) == if j.VStr? then Some(j) else None
    ensures h.HInt? ==>
              Decode(j, h) == if j.VInt? then Some(j)
                              else if j == VBool(true) then Some(VInt(1))
                              else if j == VBool(false) then Some(VInt(0)) else None
    ensures h.HFloat? ==>
              Decode(j, h) == if j.VFloat? then Some(j)
                              else if j.VInt? && -9007199254740992 <= j.i <= 9007199254740992
                              then Some(VFloat(WholeFloat(j.i)))
                              else if j.VBool? then Some(VFloat(WholeFloat(if j.b then 1 else 0))) else None
    ensures h.HEnum? ==>
              var text := if j.VStr? then Some(j.s) else if j.VEnum? then Some(j.member) else None;
              Decode(j, h) == if text.Some? && text.value in h.members then Some(VEnum(h.enum, text.value)) else None
    ensures h.HDateTime? ==>
              Decode(j, h) == if j.VStr? && ReadStamp(j.s).Some?
                              then Some(VDateTime(ReadStamp(j.s).value.0, ReadStamp(j.s).value.1, Utc)) else None
    ensures h.HDate? ==>
              Decode(j, h) == if j.VStr? && ReadDate(j.s).Some? then Some(VDate(ReadDate(j.s).value)) else None
    ensures h.HTime? ==>
              Decode(j, h) == if j.VStr? && ReadTime(j.s).Some? then Some(VTime(ReadTime(j.s).value)) else None
  {
  }

  /** The values of the scalar annotations; a number may stand where Python would promote it. */
  lemma ScalarsAreTyped(b: bool, i: int, f: Float, s: string, enum: string, members: set<string>, d: Date, t: Time,
                        zone: Zone)
    ensures WellTyped(VBool(b), HBool) && WellTyped(VInt(i), HInt) && WellTyped(VBool(b), HInt)
    ensures WellTyped(VFloat(f), HFloat) && WellTyped(VBool(b), HFloat) && WellTyped(VStr(s), HStr)
    ensures WellTyped(VInt(i), HFloat) <==> -9007199254740992 <= i <= 9007199254740992
    ensures WellTyped(VEnum(enum, s), HEnum(enum, members)) <==> s in members
    ensures WellTyped(VDateTime(d, t, zone), HDateTime) <==> zone != Naive
    ensures WellTyped(VDate(d), HDate) && WellTyped(VTime(t), HTime)
  {
  }

  // ------------------------------------------------------- how a set is arranged

  /** Python's type names in the order of their texts: NoneType, bool, dict, float, int, list, str. */
  function Rank(j: Value): nat {
    match j
    case VNone => 0
    case VBool(_) => 1
    case VDict(_) => 2
    case VFloat(_) => 3
    case VInt(_) => 4
    case VList(_) => 5
    case _ => 6
  }

  predicate NoMember(j: Value) {
    j.VNone? || j.VBool? || j.VDict? || j.VFloat? || j.VInt? || j.VList? || j.VStr?
  }

  lemma KindsInOrder(a: Value, b: Value)
    requires NoMember(a) && NoMember(b) && KeyLeq(a, b)
    ensures Rank(a) <= Rank(b)
    ensures Rank(a) == Rank(b) ==> StrLeq(KeyText(a), KeyText(b))
  {
    FirstLetters(a);
    FirstLetters(b);
    HeadDecides(TypeName(a), TypeName(b));
  }

  lemma HeadDecides(s: string, t: string)
    requires s != "" && t != ""
    ensures StrLess(s, t) ==> s[0] <= t[0]
  {
  }

  /** The names of the types differ in their first letters. */
  lemma FirstLetters(j: Value)
    requires NoMember(j)
    ensures TypeName(j) != "" && TypeName(j)[0] == ['N', 'b', 'd', 'f', 'i', 'l', 's'][Rank(j)]
  {
  }

  /**
   * An encoded set is arranged by the names of its members' types, members of one type by their texts with
   * spaces; members of an enumeration stand under the name of their class.
   */
  lemma EncodedSetOrder(v: Value, i: nat, j: nat)
    requires v.VSet? && i < j < |ToJson(v).items|
    ensures var a, b := ToJson(v).items[i], ToJson(v).items[j];
      && IsJson(a) && IsJson(b)
      && (NoMember(a) && NoMember(b) ==>
            Rank(a) < Rank(b) || (Rank(a) == Rank(b) && StrLeq(Render(a, SPACED), Render(b, SPACED))))
      && (a.VEnum? && b.VEnum? ==>
            StrLess(a.enum, b.enum) || (a.enum == b.enum && StrLeq(Render(a, SPACED), Render(b, SPACED))))
  {
    SetListed(v);
    EncodingIsJson(v);
    KeyOrder();
    SortSorted(KeyLeq, Each(Listed(v.elements)));
    var a, b := ToJson(v).items[i], ToJson(v).items[j];
    assert KeyLeq(a, b);
    if NoMember(a) && NoMember(b) {
      KindsInOrder(a, b);
    }
  }
}

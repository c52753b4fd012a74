/**
 * Which values come back from storage as they were (backend/app/db/snapshot_codec.py).
 */
module SnapshotIdentity {
  import opened Prelude
  import opened Values
  import opened JsonText
  import opened SnapshotCodec

  /**
   * Every number is of the type its annotation names, every datetime is in UTC, and every underscore field
   * holds its default.
   */
  ghost predicate Undisturbed(v: Value, h: Hint)
    decreases v, h
  {
    match h
    case HInt => v.VInt?
    case HFloat => v.VFloat?
    case HDateTime => v.VDateTime? && v.zone == Utc
    case HOptional(inner) => v == VNone || Undisturbed(v, inner)
    case HList(item) => v.VList? && forall i :: 0 <= i < |v.items| ==> Undisturbed(v.items[i], item)
    case HSet(element) => v.VSet? && forall x :: x in v.elements ==> Undisturbed(x, element)
    case HTupleOf(part) => v.VTuple? && forall i :: 0 <= i < |v.parts| ==> Undisturbed(v.parts[i], part)
    case HTuple(parts) =>
      v.VTuple? && |v.parts| == |parts| && forall i :: 0 <= i < |parts| ==> Undisturbed(v.parts[i], parts[i])
    case HDict(entry) => v.VDict? && forall k :: k in v.entries ==> Undisturbed(v.entries[k], entry)
    case HData(_, fields) =>
      v.VData? && forall k :: k in v.fields && k in fields ==>
        if k != "" && k[0] == '_' then fields[k].default == Some(v.fields[k])
        else Undisturbed(v.fields[k], fields[k].hint)
    case _ => true
  }

  /** A well-typed value is its own normal form exactly when nothing in it is disturbed. */
  lemma {:induction false} NormIsIdentityExactly(v: Value, h: Hint)
    requires WellTyped(v, h)
    ensures Norm(v, h) == v <==> Undisturbed(v, h)
    decreases v, h, 1
  {
    match h
    case HOptional(inner) => if v != VNone { NormIsIdentityExactly(v, inner); }
    case HList(item) => ListIdentity(v, item);
    case HSet(element) => SetIdentity(v, element);
    case HTupleOf(_) => TupleIdentity(v, h);
    case HTuple(_) => TupleIdentity(v, h);
    case HDict(entry) => DictIdentity(v, entry);
    case HData(_, _) => DataIdentity(v, h);
    case _ => ScalarIdentity(v, h);
  }

  lemma ScalarIdentity(v: Value, h: Hint)
    requires h.HAny? || ScalarTyped(v, h)
    ensures Norm(v, h) == v <==> Undisturbed(v, h)
  {
  }

  lemma {:induction false} ListIdentity(v: Value, item: Hint)
    requires WellTyped(v, HList(item))
    ensures Norm(v, HList(item)) == v <==> Undisturbed(v, HList(item))
    decreases v, HList(item), 0
  {
    var w := Norm(v, HList(item));
    forall i | 0 <= i < |v.items| ensures w.items[i] == v.items[i] <==> Undisturbed(v.items[i], item) {
      NormIsIdentityExactly(v.items[i], item);
    }
    assert w == v <==> w.items == v.items;
  }

  lemma {:induction false} TupleIdentity(v: Value, h: Hint)
    requires WellTyped(v, h) && (h.HTupleOf? || h.HTuple?)
    ensures Norm(v, h) == v <==> Undisturbed(v, h)
    decreases v, h, 0
  {
    var w := Norm(v, h);
    forall i | 0 <= i < |v.parts|
      ensures w.parts[i] == v.parts[i] <==> Undisturbed(v.parts[i], if h.HTuple? then h.parts[i] else h.part)
    {
      NormIsIdentityExactly(v.parts[i], if h.HTuple? then h.parts[i] else h.part);
    }
    assert w == v <==> w.parts == v.parts;
  }

  lemma {:induction false} DictIdentity(v: Value, entry: Hint)
    requires WellTyped(v, HDict(entry))
    ensures Norm(v, HDict(entry)) == v <==> Undisturbed(v, HDict(entry))
    decreases v, HDict(entry), 0
  {
    var m := NormEntries(v, entry);
    forall k | k in v.entries ensures m[k] == v.entries[k] <==> Undisturbed(v.entries[k], entry) {
      NormIsIdentityExactly(v.entries[k], entry);
    }
    SameMaps(m, v.entries);
  }

  lemma {:induction false} DataIdentity(v: Value, h: Hint)
    requires WellTyped(v, h) && h.HData?
    ensures Norm(v, h) == v <==> Undisturbed(v, h)
    decreases v, h, 0
  {
    var m := NormFields(v, h);
    forall k | k in v.fields
      ensures m[k] == v.fields[k] <==>
                if k != "" && k[0] == '_' then h.fields[k].default == Some(v.fields[k])
                else Undisturbed(v.fields[k], h.fields[k].hint)
    {
      if !Hidden(k) {
        NormIsIdentityExactly(v.fields[k], h.fields[k].hint);
      }
    }
    SameMaps(m, v.fields);
  }

  lemma {:induction false} SetIdentity(v: Value, element: Hint)
    requires WellTyped(v, HSet(element))
    ensures Norm(v, HSet(element)) == v <==> Undisturbed(v, HSet(element))
    decreases v, HSet(element), 0
  {
    forall x | x in v.elements ensures Norm(x, element) == x <==> Undisturbed(x, element) {
      NormIsIdentityExactly(x, element);
    }
    MembersStay(v, element);
  }

  /** A set stays exactly when each of its members does: normalising cannot exchange them. */
  lemma MembersStay(v: Value, element: Hint)
    requires WellTyped(v, HSet(element))
    ensures Norm(v, HSet(element)) == v <==> forall x :: x in v.elements ==> Norm(x, element) == x
  {
    if forall x :: x in v.elements ==> Norm(x, element) == x {
      Fixed(NormMembers(v, element), v.elements);
    } else {
      var x :| x in v.elements && Norm(x, element) != x;
      MemberMoves(v, element, x);
    }
  }

  lemma Fixed(image: map<Value, Value>, elements: set<Value>)
    requires image.Keys == elements && forall x :: x in elements ==> image[x] == x
    ensures image.Values == elements
  {
    forall x ensures x in image.Values <==> x in elements {
      if x in elements {
        assert image[x] == x;
      }
    }
  }

  lemma MemberMoves(v: Value, element: Hint, x: Value)
    requires WellTyped(v, HSet(element)) && x in v.elements && Norm(x, element) != x
    ensures Norm(v, HSet(element)) != v
  {
    var image := NormMembers(v, element);
    assert image[x] in image.Values;
    NormTwice(x, element);
    assert Norm(image[x], element) == Norm(x, element);
    assert image[x] !in v.elements;
  }

  lemma SameMaps<K, V>(m: map<K, V>, n: map<K, V>)
    requires m.Keys == n.Keys
    ensures m == n <==> forall k :: k in n ==> m[k] == n[k]
  {
  }

  /** Exactly the undisturbed values come back from their stored text as they were. */
  lemma ComesBackExactly(v: Value, h: Hint)
    requires WellTyped(v, h)
    ensures Loads(Dumps(v)).Some?
    ensures Decode(Loads(Dumps(v)).value, h) == Some(v) <==> Undisturbed(v, h)
  {
    TextRoundTrip(v, h);
    NormIsIdentityExactly(v, h);
  }
}

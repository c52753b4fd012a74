/**
 * Order ids, read back: which order number and line an id stands for, when two rows get one id, and what
 * becomes of the second (backend/app/integration/codes.py, backend/app/integration/normalizer.py).
 */
module OrderIds {
  import opened Prelude
  import opened Normalizer
  import Decimal
  import Floats

  /** A line is written with two digits at least, and reads back. */
  lemma LineReads(line: int)
    ensures Decimal.IsIntText(LineText(line)) && Decimal.ReadInt(LineText(line)) == line
    ensures 0 <= line <= 99 ==> |LineText(line)| == 2
    ensures line >= 0 ==> Decimal.AllDigits(LineText(line))
    ensures line < 0 ==> LineText(line) == "-" + Decimal.Digits(-line)
  {
    Decimal.DigitsWidth(if line < 0 then -line else line);
    if line < 0 {
      Decimal.ReadDigitsOfDigits(-line);
      assert LineText(line)[1..] == Decimal.Digits(-line);
      Decimal.DigitsWidth(0);
    } else {
      Decimal.ReadDigitsOfPadded(line, 2);
      assert Decimal.IsDigit(LineText(line)[0]);
    }
  }

  /** An id is the order number, a dash and the line. */
  lemma IdReads(orderNo: string, line: int)
    ensures var id, n := ComposeOrderId(orderNo, line), |orderNo|;
      && |id| > n + 1 && id[..n] == orderNo && id[n] == '-'
      && Decimal.IsIntText(id[n + 1..]) && Decimal.ReadInt(id[n + 1..]) == line
      && (0 <= line <= 99 ==> |id| == n + 3)
  {
    LineReads(line);
    assert ComposeOrderId(orderNo, line)[|orderNo| + 1..] == LineText(line);
  }

  /** One order number: one id means one line. */
  lemma SameNumberSameId(orderNo: string, k: int, l: int)
    ensures ComposeOrderId(orderNo, k) == ComposeOrderId(orderNo, l) <==> k == l
  {
    IdReads(orderNo, k);
    IdReads(orderNo, l);
  }

  /** `a`'s id with a negative line is `b`'s id, because `b` ends in the dash that is a sign in `a`. */
  predicate SignReadsAsDash(a: string, k: int, b: string, l: int) {
    b == a + "-" && k <= -10 && l == -k
  }

  /** Exactly when two rows compose one id: the same number and line, or a sign that reads as a dash. */
  lemma SameIdExactly(a: string, k: int, b: string, l: int)
    ensures ComposeOrderId(a, k) == ComposeOrderId(b, l) <==>
              (a == b && k == l) || SignReadsAsDash(a, k, b, l) || SignReadsAsDash(b, l, a, k)
  {
    if k < 0 && l >= 0 {
      MixedSigns(a, k, b, l);
    } else if l < 0 && k >= 0 {
      MixedSigns(b, l, a, k);
    } else {
      SameSigns(a, k, b, l);
    }
  }

  lemma SameSigns(a: string, k: int, b: string, l: int)
    requires k < 0 <==> l < 0
    ensures ComposeOrderId(a, k) == ComposeOrderId(b, l) <==> a == b && k == l
  {
    LineReads(k);
    LineReads(l);
    if ComposeOrderId(a, k) == ComposeOrderId(b, l) {
      if k < 0 {
        DigitsHaveNoDash(Decimal.Digits(-k));
        DigitsHaveNoDash(Decimal.Digits(-l));
        SignFirst(a, k);
        SignFirst(b, l);
        LastDash(a + "-", Decimal.Digits(-k), b + "-", Decimal.Digits(-l));
        assert (a + "-")[..|a|] == a && (b + "-")[..|b|] == b;
        Decimal.DigitsInjective(-k, -l);
      } else {
        DigitsHaveNoDash(LineText(k));
        DigitsHaveNoDash(LineText(l));
        LastDash(a, LineText(k), b, LineText(l));
      }
    }
  }

  lemma SignFirst(a: string, k: int)
    requires k < 0
    ensures ComposeOrderId(a, k) == (a + "-") + "-" + Decimal.Digits(-k)
  {
    LineReads(k);
    assert a + "-" + ("-" + Decimal.Digits(-k)) == (a + "-") + "-" + Decimal.Digits(-k);
  }

  lemma MixedSigns(a: string, k: int, b: string, l: int)
    requires k < 0 <= l
    ensures ComposeOrderId(a, k) == ComposeOrderId(b, l) <==> SignReadsAsDash(a, k, b, l)
  {
    SignFirst(a, k);
    MixedLines(-k, l);
    if ComposeOrderId(a, k) == ComposeOrderId(b, l) {
      LineReads(l);
      DigitsHaveNoDash(Decimal.Digits(-k));
      DigitsHaveNoDash(LineText(l));
      LastDash(a + "-", Decimal.Digits(-k), b, LineText(l));
    }
  }

  /** Digits without padding are a padded line exactly from two digits on. */
  lemma MixedLines(n: nat, line: nat)
    ensures Decimal.Digits(n) == LineText(line) <==> n == line && n >= 10
  {
    Decimal.ReadDigitsOfDigits(n);
    Decimal.ReadDigitsOfPadded(line, 2);
    TwoDigits(n);
  }

  lemma TwoDigits(n: nat)
    ensures |Decimal.Digits(n)| >= 2 <==> n >= 10
    ensures n >= 10 ==> Decimal.Padded(n, 2) == Decimal.Digits(n)
  {
    if n >= 10 {
      assert Decimal.Digits(n) == Decimal.Digits(n / 10) + [Decimal.DigitChar(n % 10)];
    }
  }

  /** Numbers that a table maps as such: whole ones are lines, and an order number is its digits. */
  lemma NumbersAsKeys(fields: map<string, Value>, ref: int, f: Floats.Float)
    ensures ParseInt(Some(VInt(ref))) == Some(ref)
    ensures ParseInt(Some(VFloat(f))) == if f.exponent >= 0 then Some(f.mantissa * Floats.Pow10(f.exponent)) else None
    ensures forall b :: ParseInt(Some(VBool(b))).None?
    ensures Get(fields, REF) == Some(VInt(ref)) && ref != 0 && ParseInt(Get(fields, LINE)).Some? ==>
              BaseId(fields) == Some(ComposeOrderId(Decimal.Signed(ref), ParseInt(Get(fields, LINE)).value))
  {
  }

  // ----------------------------------------------------------- lists of records

  /** The record is a usable order row with this number and this line. */
  predicate Names(maps: seq<FieldMap>, r: Record, orderNo: string, line: int) {
    && Usable("order", maps, r) && orderNo != ""
    && Get(MapFields(r.payload.value, maps), REF) == Some(VText(orderNo))
    && ParseInt(Get(MapFields(r.payload.value, maps), LINE)) == Some(line)
  }

  ghost predicate AllName(maps: seq<FieldMap>, rs: seq<Record>, keys: seq<(string, int)>) {
    |rs| == |keys| && forall i :: 0 <= i < |rs| ==> Names(maps, rs[i], keys[i].0, keys[i].1)
  }

  function IdsOf(keys: seq<(string, int)>): (ids: seq<string>)
    ensures |ids| == |keys|
  {
    seq(|keys|, i requires 0 <= i < |keys| => ComposeOrderId(keys[i].0, keys[i].1))
  }

  lemma LastId(keys: seq<(string, int)>)
    requires keys != []
    ensures var n := |keys| - 1; IdsOf(keys) == IdsOf(keys[..n]) + [ComposeOrderId(keys[n].0, keys[n].1)]
  {
  }

  /** The ids composed so far are those of the rows so far. */
  lemma {:induction false} ComposedSoFar(maps: seq<FieldMap>, cls: Class, rs: seq<Record>, keys: seq<(string, int)>)
    requires AllName(maps, rs, keys)
    ensures OrdersOf(maps, cls, rs).2 == IdsOf(keys)
  {
    if rs != [] {
      var n := |rs| - 1;
      FrontNames(maps, rs, keys);
      ComposedSoFar(maps, cls, rs[..n], keys[..n]);
      OneMoreId(maps, cls, rs, keys[n]);
      LastId(keys);
    }
  }

  lemma FrontNames(maps: seq<FieldMap>, rs: seq<Record>, keys: seq<(string, int)>)
    requires AllName(maps, rs, keys) && rs != []
    ensures var n := |rs| - 1;
      AllName(maps, rs[..n], keys[..n]) && Names(maps, rs[n], keys[n].0, keys[n].1)
  {
  }

  lemma OneMoreId(maps: seq<FieldMap>, cls: Class, rs: seq<Record>, key: (string, int))
    requires rs != [] && Names(maps, rs[|rs| - 1], key.0, key.1)
    ensures OrdersOf(maps, cls, rs).2 == OrdersOf(maps, cls, rs[..|rs| - 1]).2 + [ComposeOrderId(key.0, key.1)]
  {
    NamedId(maps, cls, rs[|rs| - 1], key, OrdersOf(maps, cls, rs[..|rs| - 1]).2);
  }

  lemma NamedId(maps: seq<FieldMap>, cls: Class, r: Record, key: (string, int), ids: seq<string>)
    requires Names(maps, r, key.0, key.1)
    ensures OutcomeOf(maps, cls, r, ids).id == Some(ComposeOrderId(key.0, key.1))
  {
  }

  predicate HasDuplicateIssue<T, K>(o: Outcome<T, K>) {
    exists i :: i in o.issues && i.code == DUPLICATE_ID
  }

  /** No mapping issue is about a duplicate. */
  lemma {:induction false} MappingFindsNoDuplicates(entity: string, id: string, p: Payload, maps: seq<FieldMap>)
    ensures forall i :: i in MapIssues(entity, id, p, maps) ==> i.code != DUPLICATE_ID
  {
    if maps != [] {
      MappingFindsNoDuplicates(entity, id, p, maps[..|maps| - 1]);
    }
  }

  /**
   * The next row of a list is reported as a duplicate exactly when an earlier row has its order number and
   * its line, as long as no line is below -9.
   */
  lemma DuplicateExactly(maps: seq<FieldMap>, cls: Class, rs: seq<Record>, keys: seq<(string, int)>, r: Record,
                         orderNo: string, line: int)
    requires AllName(maps, rs, keys) && Names(maps, r, orderNo, line)
    requires line > -10 && forall i :: 0 <= i < |keys| ==> keys[i].1 > -10
    ensures var o := OutcomeOf(maps, cls, r, OrdersOf(maps, cls, rs).2);
      && (HasDuplicateIssue(o) <==> (orderNo, line) in keys)
      && (o.item.Some? && (orderNo, line) !in keys ==>
            o.item.value.orderId == ComposeOrderId(orderNo, line) && o.item.value.duplicateOf.None?)
      && (o.item.Some? && (orderNo, line) in keys ==>
            && o.item.value.duplicateOf == Some(ComposeOrderId(orderNo, line))
            && o.item.value.orderId != ComposeOrderId(orderNo, line))
  {
    var ids, id := IdsOf(keys), ComposeOrderId(orderNo, line);
    ComposedSoFar(maps, cls, rs, keys);
    forall i | 0 <= i < |keys| ensures ids[i] == id <==> keys[i] == (orderNo, line) {
      SameIdExactly(keys[i].0, keys[i].1, orderNo, line);
    }
    assert id in ids <==> (orderNo, line) in keys;
    OneOutcome(maps, cls, r, orderNo, line, ids);
  }

  lemma OneOutcome(maps: seq<FieldMap>, cls: Class, r: Record, orderNo: string, line: int, ids: seq<string>)
    requires Names(maps, r, orderNo, line)
    ensures var o, id := OutcomeOf(maps, cls, r, ids), ComposeOrderId(orderNo, line);
      && (HasDuplicateIssue(o) <==> id in ids)
      && (o.item.Some? && id !in ids ==> o.item.value.orderId == id && o.item.value.duplicateOf.None?)
      && (o.item.Some? && id in ids ==> o.item.value.duplicateOf == Some(id) && o.item.value.orderId != id)
  {
    var p, id := r.payload.value, ComposeOrderId(orderNo, line);
    MappingFindsNoDuplicates("order", r.externalId, p, maps);
    assert (ids + [id])[..|ids|] == ids;
    CountMember(ids, id);
    if id in ids {
      assert |DuplicateId(id, Count(ids, id))| > |id|;
      var copy := Issue("order", r.externalId, Some(ORDER_ID), DUPLICATE_ID);
      assert copy in OutcomeOf(maps, cls, r, ids).issues;
    }
  }

  /** What the constructor of an order is given: the fields and the id, and a tag for a copy. */
  predicate Given(fields: map<string, Value>, copy: bool, name: string) {
    name in fields || name == "order_id" || (copy && name == "attributes")
  }

  /**
   * A usable row becomes an order exactly when it gives every attribute that the constructor needs and none
   * that it does not know; otherwise, and only then, it is reported as malformed.
   */
  lemma KeptExactly(maps: seq<FieldMap>, cls: Class, r: Record, key: (string, int), ids: seq<string>)
    requires Names(maps, r, key.0, key.1)
    ensures var o, fields := OutcomeOf(maps, cls, r, ids), MapFields(r.payload.value, maps);
      var copy := ComposeOrderId(key.0, key.1) in ids;
      && (o.item.Some? <==>
            && (forall a :: a in cls.needed ==> Given(fields, copy, a))
            && (forall a :: Given(fields, copy, a) ==> a in cls.needed || a in cls.optional))
      && (o.item.Some? ==> o.item.value.fields == fields && o.item.value.rowId == r.externalId)
      && (o.item.None? <==> Issue("order", r.externalId, None, MALFORMED_RECORD) in o.issues)
  {
    var fields, id := MapFields(r.payload.value, maps), ComposeOrderId(key.0, key.1);
    var given := OrderKeywords(fields, id in ids);
    assert forall a :: a in given <==> Given(fields, id in ids, a);
    ConstructedExactly(cls, given);
    MappingNamesFields("order", r.externalId, r.payload.value, maps);
    ComposedKept(cls, r, fields, MapIssues("order", r.externalId, r.payload.value, maps), id, ids);
  }

  lemma ConstructedExactly(cls: Class, given: set<string>)
    ensures Constructible(cls, given) <==>
              (forall a :: a in cls.needed ==> a in given)
              && (forall a :: a in given ==> a in cls.needed || a in cls.optional)
  {
  }

  lemma ComposedKept(cls: Class, r: Record, fields: map<string, Value>, mapped: seq<Issue>, id: string,
                     ids: seq<string>)
    requires forall i :: i in mapped ==> i.field.Some?
    ensures var o := ComposedOutcome(cls, r, fields, mapped, id, ids);
      && (o.item.Some? <==> Constructible(cls, OrderKeywords(fields, id in ids)))
      && (o.item.Some? ==> o.item.value.fields == fields && o.item.value.rowId == r.externalId)
      && (o.item.None? <==> Issue("order", r.externalId, None, MALFORMED_RECORD) in o.issues)
  {
  }

  /** Mapping issues name their fields. */
  lemma {:induction false} MappingNamesFields(entity: string, id: string, p: Payload, maps: seq<FieldMap>)
    ensures forall i :: i in MapIssues(entity, id, p, maps) ==> i.field.Some?
  {
    if maps != [] {
      MappingNamesFields(entity, id, p, maps[..|maps| - 1]);
    }
  }

  /** Two lines of one order are two orders under their own ids, and neither is reported as a duplicate. */
  lemma TwoLinesTwoOrders(maps: seq<FieldMap>, cls: Class, r: Record, s: Record, orderNo: string, k: int, l: int)
    requires Names(maps, r, orderNo, k) && Names(maps, s, orderNo, l) && k != l
    requires OutcomeOf(maps, cls, r, []).item.Some?
             && OutcomeOf(maps, cls, s, [ComposeOrderId(orderNo, k)]).item.Some?
    ensures var items, issues := OrdersOf(maps, cls, [r, s]).0, OrdersOf(maps, cls, [r, s]).1;
      && |items| == 2
      && items[0].orderId == ComposeOrderId(orderNo, k) && items[1].orderId == ComposeOrderId(orderNo, l)
      && items[0].duplicateOf.None? && items[1].duplicateOf.None?
      && forall i :: i in issues ==> i.code != DUPLICATE_ID
  {
    SameNumberSameId(orderNo, k, l);
    OneOutcome(maps, cls, r, orderNo, k, []);
    OneOutcome(maps, cls, s, orderNo, l, [ComposeOrderId(orderNo, k)]);
    TwoRecords(maps, cls, r, s);
    ComposedSoFar(maps, cls, [r], [(orderNo, k)]);
    var o, q := OutcomeOf(maps, cls, r, []), OutcomeOf(maps, cls, s, [ComposeOrderId(orderNo, k)]);
    assert OrdersOf(maps, cls, [r]).2 == [ComposeOrderId(orderNo, k)];
    forall i | i in o.issues + q.issues ensures i.code != DUPLICATE_ID {
      if i in o.issues {
        assert i.code == DUPLICATE_ID ==> HasDuplicateIssue(o);
      } else {
        assert i.code == DUPLICATE_ID ==> HasDuplicateIssue(q);
      }
    }
  }

  lemma TwoRecords(maps: seq<FieldMap>, cls: Class, r: Record, s: Record)
    ensures var o := OutcomeOf(maps, cls, r, []);
      var q := OutcomeOf(maps, cls, s, OrdersOf(maps, cls, [r]).2);
      OrdersOf(maps, cls, [r, s]).0 == AsSeq(o.item) + AsSeq(q.item)
      && OrdersOf(maps, cls, [r, s]).1 == o.issues + q.issues
  {
    FirstRecord(maps, cls, r);
    OneMoreOrder(maps, cls, [r, s], 1);
    assert [r, s][..1] == [r] && [r, s][..2] == [r, s];
  }

  lemma FirstRecord(maps: seq<FieldMap>, cls: Class, r: Record)
    ensures var o := OutcomeOf(maps, cls, r, []);
      OrdersOf(maps, cls, [r]).0 == AsSeq(o.item) && OrdersOf(maps, cls, [r]).1 == o.issues
  {
    OneMoreOrder(maps, cls, [r], 0);
    assert [r][..0] == [] && [r][..1] == [r];
  }

  /** The second row with one number and line is kept under the first one's id with a suffix. */
  lemma SecondCopySuffix(maps: seq<FieldMap>, cls: Class, r: Record, orderNo: string, line: int)
    requires Names(maps, r, orderNo, line)
    requires OutcomeOf(maps, cls, r, [ComposeOrderId(orderNo, line)]).item.Some?
    ensures OutcomeOf(maps, cls, r, [ComposeOrderId(orderNo, line)]).item.value.orderId
         == ComposeOrderId(orderNo, line) + "-DUP1"
  {
    var id := ComposeOrderId(orderNo, line);
    assert ([id] + [id])[..1] == [id] && [id][..0] == [];
    assert Count([id], id) == 1;
    assert Decimal.Digits(1) == "1";
    assert id + "-DUP" + "1" == id + "-DUP1";
  }
}

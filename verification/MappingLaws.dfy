/**
 * What one cell of a record decides: its field, its issue, and whether the record can be used
 * (backend/app/integration/normalizer.py, backend/app/integration/parsers.py).
 */
module MappingLaws {
  import opened Prelude
  import opened Texts
  import opened Normalizer
  import Decimal

  /** The column is missing, null, or a text of white space. */
  predicate Blank(p: Payload, source: string) {
    source !in p || p[source] == RNull || (p[source].RStr? && AllSpace(p[source].s))
  }

  lemma BlankIsEmpty(p: Payload, source: string)
    ensures IsEmpty(Cell(p, source)) <==> Blank(p, source)
  {
    if source in p && p[source].RStr? {
      BlankExactly(p[source].s);
    }
  }

  /** What the cell's text says, if it is not blank. */
  function ParsedCell(p: Payload, m: FieldMap): Parsed
    requires !Blank(p, m.source)
  {
    m.parser(p[m.source])
  }

  /** The field: the parsed value, else the default; a required one has no default unless its code is unknown. */
  lemma CellDecidesField(p: Payload, maps: seq<FieldMap>, i: nat)
    requires DistinctTargets(maps) && i < |maps|
    ensures var m := maps[i]; var field := Get(MapFields(p, maps), m.target);
      if Blank(p, m.source) then field == if m.required then None else m.fallback
      else match ParsedCell(p, m)
        case Parsed(value) => field == Some(value)
        case UnknownCode => field == m.fallback
        case InvalidValue => field == if m.required then None else m.fallback
  {
    FieldFromOwnCell(p, maps, i);
    BlankIsEmpty(p, maps[i].source);
  }

  /** The issue that a cell gives rise to, if any. */
  predicate Complains(p: Payload, m: FieldMap, code: IssueCode) {
    if Blank(p, m.source) then m.required && code == MISSING_REQUIRED
    else match ParsedCell(p, m)
      case Parsed(_) => false
      case UnknownCode => code == UNKNOWN_CODE
      case InvalidValue => code == INVALID_VALUE
  }

  /** The issues of a record's mapping are exactly those that its cells give rise to. */
  lemma {:induction false} CellsDecideIssues(entity: string, id: string, p: Payload, maps: seq<FieldMap>, i: Issue)
    ensures i in MapIssues(entity, id, p, maps) <==>
              exists m :: m in maps && i == Issue(entity, id, Some(m.target), i.code) && Complains(p, m, i.code)
  {
    if maps != [] {
      var front, last := maps[..|maps| - 1], maps[|maps| - 1];
      CellsDecideIssues(entity, id, p, front, i);
      BlankIsEmpty(p, last.source);
      assert maps == front + [last];
    }
  }

  /**
   * A record can be used exactly when it has the entity and a payload, and every required column holds
   * something its parser does not reject; an unknown code never costs a record.
   */
  lemma UsableExactly(entity: string, maps: seq<FieldMap>, r: Record)
    ensures Usable(entity, maps, r) <==>
              && r.entity == entity && r.payload.Some?
              && forall m :: m in maps && m.required ==>
                   !Blank(r.payload.value, m.source) && !ParsedCell(r.payload.value, m).InvalidValue?
  {
    if r.payload.Some? {
      forall i | 0 <= i < |maps|
        ensures Unusable(r.payload.value, maps[i]) <==>
                  maps[i].required && (Blank(r.payload.value, maps[i].source)
                                       || ParsedCell(r.payload.value, maps[i]).InvalidValue?)
      {
        BlankIsEmpty(r.payload.value, maps[i].source);
      }
      forall m | m in maps ensures exists i :: 0 <= i < |maps| && maps[i] == m {
      }
    }
  }

  /** An order number or a line reads as an integer with its sign and white space around it. */
  lemma LineNumberReads(left: string, sign: string, n: nat, right: string)
    requires AllSpace(left) && AllSpace(right) && sign in {"", "+", "-"}
    ensures ParseInt(Some(VText(left + (sign + Decimal.Digits(n)) + right)))
         == Some(if sign == "-" then -(n as int) else n)
  {
    IntTextReads(sign, n);
    StripExactly(left, sign + Decimal.Digits(n), right);
  }

  /** Trimmed, an integer's text, and that of this one. */
  predicate ReadsAs(t: string, i: int) {
    Trimmed(t) && Decimal.IsIntText(t) && Decimal.ReadInt(t) == i
  }

  lemma IntTextReads(sign: string, n: nat)
    requires sign in {"", "+", "-"}
    ensures ReadsAs(sign + Decimal.Digits(n), if sign == "-" then -(n as int) else n)
  {
    if sign == "" {
      PlainTextReads(n);
      assert "" + Decimal.Digits(n) == Decimal.Digits(n);
    } else {
      SignedTextReads(sign[0], n);
      assert sign == [sign[0]];
    }
  }

  lemma PlainTextReads(n: nat)
    ensures ReadsAs(Decimal.Digits(n), n)
  {
    var d := Decimal.Digits(n);
    assert Decimal.IsDigit(d[0]) && Decimal.IsDigit(d[|d| - 1]);
    Decimal.ReadDigitsOfDigits(n);
  }

  lemma SignedTextReads(sign: char, n: nat)
    requires sign == '+' || sign == '-'
    ensures ReadsAs([sign] + Decimal.Digits(n), if sign == '-' then -(n as int) else n)
  {
    var d := Decimal.Digits(n);
    Decimal.ReadDigitsOfDigits(n);
    assert Decimal.IsDigit(d[|d| - 1]);
    var t := [sign] + d;
    assert t[1..] == d && t[|t| - 1] == d[|d| - 1];
  }
}

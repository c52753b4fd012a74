/** What the parsers accept beyond what the export prints (backend/app/integration/parsers.py). */
module ParserLaws {
  import opened Prelude
  import opened Sorting
  import opened ErpFormats
  import Decimal
  import IsoTime

  // -------------------------------------------------------------------- codes

  predicate HasCode(codes: Table, i: int, token: string) {
    0 <= i < |codes| && Upper(codes[i].0) == token
  }

  predicate HasValue(codes: Table, i: int, token: string) {
    0 <= i < |codes| && Upper(codes[i].1) == token
  }

  lemma {:induction false} ByCodeExactly(codes: Table, token: string)
    ensures ByCode(codes, token).Some? <==> exists i :: HasCode(codes, i, token)
    ensures ByCode(codes, token).Some? ==>
              exists i :: HasCode(codes, i, token) && ByCode(codes, token) == Some(codes[i].1)
  {
    if codes != [] {
      var n, front := |codes| - 1, codes[..|codes| - 1];
      ByCodeExactly(front, token);
      assert forall i :: HasCode(front, i, token) ==> HasCode(codes, i, token);
      assert forall i :: HasCode(codes, i, token) && i < n ==> HasCode(front, i, token);
      assert Upper(codes[n].0) == token ==> HasCode(codes, n, token);
    }
  }

  lemma {:induction false} ByValueExactly(codes: Table, token: string)
    ensures ByValue(codes, token).Some? <==> exists i :: HasValue(codes, i, token)
    ensures ByValue(codes, token).Some? ==>
              exists i :: HasValue(codes, i, token) && ByValue(codes, token) == Some(codes[i].1)
  {
    if codes != [] {
      var n, front := |codes| - 1, codes[..|codes| - 1];
      ByValueExactly(front, token);
      assert forall i :: HasValue(front, i, token) ==> HasValue(codes, i, token);
      assert forall i :: HasValue(codes, i, token) && i < n ==> HasValue(front, i, token);
      assert Upper(codes[n].1) == token ==> HasValue(codes, n, token);
    }
  }

  /** A text is known exactly when, but for case and white space, it is a code or a value; codes come first. */
  lemma EnumExactly(codes: Table, text: string)
    ensures var token, r := Upper(Strip(text)), ParseEnum(codes, text);
      && (r.Some? <==> exists i :: HasCode(codes, i, token) || HasValue(codes, i, token))
      && (r.Some? && (exists i :: HasCode(codes, i, token)) ==>
            exists i :: HasCode(codes, i, token) && r == Some(codes[i].1))
      && (r.Some? && !(exists i :: HasCode(codes, i, token)) ==>
            exists i :: HasValue(codes, i, token) && r == Some(codes[i].1))
  {
    ByCodeExactly(codes, Upper(Strip(text)));
    ByValueExactly(codes, Upper(Strip(text)));
  }

  // ------------------------------------------------------------ numbers and flags

  lemma FirstCharacter(c: char, rest: string)
    ensures WithoutCommas([c] + rest) == (if c == ',' then "" else [c]) + WithoutCommas(rest)
  {
    var s := [c] + rest;
    assert s[1..] == rest && s[..1] == [c];
  }

  /** Thousands separators make no difference. */
  lemma {:induction false} CommaIgnored(a: string, b: string)
    ensures WithoutCommas(a + "," + b) == WithoutCommas(a + b)
    decreases |a|
  {
    if |a| == 0 {
      FirstCharacter(',', b);
      assert a + "," + b == [','] + b && a + b == b;
    } else {
      CommaIgnored(a[1..], b);
      FirstCharacter(a[0], a[1..] + "," + b);
      FirstCharacter(a[0], a[1..] + b);
      HeadApart(a, b);
    }
  }

  lemma HeadApart(a: string, b: string)
    requires |a| > 0
    ensures a + "," + b == [a[0]] + (a[1..] + "," + b) && a + b == [a[0]] + (a[1..] + b)
  {
  }

  /** Six words for yes, five for no besides nothing at all, and no other. */
  lemma FlagExactly(text: string)
    ensures var t := Lower(Strip(text));
      && (ParseFlag(text) == Some(true) <==>
            t == "y" || t == "yes" || t == "true" || t == "t" || t == "1" || t == "x")
      && (ParseFlag(text) == Some(false) <==>
            t == "n" || t == "no" || t == "false" || t == "f" || t == "0" || t == "")
  {
    var t := Lower(Strip(text));
    assert |t| != 0 ==> t != "";
  }

  // ------------------------------------------------------------- dates and stamps

  lemma DateEnds(d: IsoTime.Date)
    ensures var s := IsoTime.DateText(d);
      |s| == 10 && Decimal.IsDigit(s[0]) && Decimal.IsDigit(s[9])
  {
    IsoTime.DateSurvives(d);
    var year, day := Decimal.Padded(d.year, 4), Decimal.Padded(d.day, 2);
    var s := IsoTime.DateText(d);
    assert s[0] == year[0] && s[|s| - 1] == day[|day| - 1];
  }

  /** A `Z` at the end is read as the offset of UTC. */
  lemma ZuluReads(bare: string, stamp: Stamp)
    requires bare != "" && !IsSpace(bare[0]) && IsoTime.ReadStamp(bare + IsoTime.UTC_SUFFIX) == Some(stamp)
    ensures ParseStamp(bare + "Z") == Some(stamp)
  {
    var s := bare + "Z";
    assert s[0] == bare[0] && s[|s| - 1] == 'Z' && s[..|s| - 1] == bare;
    assert Trimmed(s);
  }

  lemma DateReads(text: string, d: IsoTime.Date)
    requires |text| == 10 && Trimmed(text) && text[9] != 'Z' && IsoTime.ReadDate(text) == Some(d)
    ensures ParseStamp(text) == Some((d, MIDNIGHT))
  {
  }

  /** A date alone is its midnight, and a `Z` stands for UTC. */
  lemma StampForms(d: IsoTime.Date, t: IsoTime.Time)
    ensures ParseStamp(IsoTime.DateText(d)) == Some((d, MIDNIGHT))
    ensures ParseStamp(IsoTime.DateText(d) + "T" + IsoTime.TimeText(t) + "Z") == Some((d, t))
  {
    DateEnds(d);
    IsoTime.DateSurvives(d);
    DateReads(IsoTime.DateText(d), d);
    IsoTime.StampSurvives(d, t);
    ZuluReads(IsoTime.DateText(d) + "T" + IsoTime.TimeText(t), (d, t));
  }

  /** Of a longer text only the date counts. */
  lemma DateOfStamp(d: IsoTime.Date, t: IsoTime.Time)
    ensures ParseDate(IsoTime.StampText(d, t)) == Some(d)
  {
    StampTextReads(d, t);
    DateEnds(d);
    IsoTime.DateSurvives(d);
    assert IsoTime.StampText(d, t)[..10] == IsoTime.DateText(d);
  }

  // ------------------------------------------------------------- lists and weekdays

  /** The entries of a mapping are printed by their keys. */
  lemma CyclesAscend(cs: seq<Cycle>)
    ensures var sorted := Sort(CycleLeq, cs);
      && multiset(sorted) == multiset(cs)
      && forall i, j :: 0 <= i < j < |sorted| ==> StrLeq(sorted[i].0, sorted[j].0)
  {
    StrLeqOrder();
    SortMembers(CycleLeq, cs);
    SortSorted(CycleLeq, cs);
  }

  /** Weekdays are known by their first three letters, from Monday. */
  lemma WeekdayExactly(token: string, i: int)
    ensures DayOf(token) == Some(i) <==>
              0 <= i < 7 && token == ["MON", "TUE", "WED", "THU", "FRI", "SAT", "SUN"][i]
  {
  }
}

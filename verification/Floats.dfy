/**
 * Floats as the decimal numbers that `repr` writes: the texts `str(x)`, `f"{x:g}"` and `f"{x:.2f}"`, and
 * what `float(text)` reads.
 */
module Floats {
  import opened Decimal
  import opened Prelude

  /** `mantissa * 10 ** exponent`. */
  datatype Number = Number(mantissa: int, exponent: int)

  predicate Canonical(x: Number) {
    if x.mantissa == 0 then x.exponent == 0 else x.mantissa % 10 != 0
  }

  type Float = x: Number | Canonical(x) witness Number(0, 0)

  const ZERO: Float := Number(0, 0)
  const ONE: Float := Number(1, 0)

  function Abs(i: int): nat {
    if i < 0 then 0 - i else i
  }

  function Signed(negative: bool, n: nat): int {
    if negative then 0 - n else n
  }

  function Pow10(k: nat): (p: nat)
    ensures p > 0
  {
    if k == 0 then 1 else 10 * Pow10(k - 1)
  }

  /** The number without its trailing zeros. */
  function Normal(m: int, e: int): (x: Float)
    ensures Abs(x.mantissa) <= Abs(m)
    ensures m != 0 ==> x.exponent >= e && x.mantissa != 0 && (x.mantissa < 0 <==> m < 0)
    ensures m % 10 != 0 ==> x == Number(m, e)
    decreases Abs(m)
  {
    if m == 0 then Number(0, 0) else if m % 10 == 0 then Normal(m / 10, e + 1) else Number(m, e)
  }

  /** Trailing zeros do not matter. */
  lemma {:induction false} NormalShifted(x: Float, k: nat)
    ensures Normal(x.mantissa * Pow10(k), x.exponent - k) == x
  {
    if k > 0 && x.mantissa != 0 {
      NormalShifted(x, k - 1);
      PowerStep(x.mantissa, k);
      OneMoreZero(x.mantissa * Pow10(k - 1), x.exponent - k + 1);
    }
  }

  lemma PowerStep(m: int, k: nat)
    requires k > 0
    ensures m * Pow10(k) == 10 * (m * Pow10(k - 1))
    ensures m != 0 ==> m * Pow10(k) != 0
  {
  }

  lemma OneMoreZero(m: int, e: int)
    ensures m != 0 ==> Normal(10 * m, e - 1) == Normal(m, e)
  {
    var n := 10 * m;
    assert n % 10 == 0 && n / 10 == m;
    assert m != 0 ==> Normal(n, e - 1) == Normal(n / 10, e);
  }

  function Times100(x: Float): Float {
    if x.mantissa == 0 then x else Number(x.mantissa, x.exponent + 2)
  }

  function Over100(x: Float): Float {
    if x.mantissa == 0 then x else Number(x.mantissa, x.exponent - 2)
  }

  /** Is the number at most `limit`? */
  predicate AtMost(x: Float, limit: int) {
    if x.exponent >= 0 then x.mantissa * Pow10(x.exponent) <= limit else x.mantissa <= limit * Pow10(-x.exponent)
  }

  predicate Whole(x: Float) {
    x.exponent >= 0
  }

  function AsInt(x: Float): int
    requires Whole(x)
  {
    x.mantissa * Pow10(x.exponent)
  }

  // ----------------------------------------------------------------- rounding

  /** `a / b` to the nearest integer, a tie to the even one. */
  function Rounded(a: nat, b: nat): (q: nat)
    requires b > 0
    ensures a / b <= q <= a / b + 1
    ensures a % b == 0 ==> q == a / b
  {
    var q, r := a / b, a % b;
    if 2 * r > b || (2 * r == b && q % 2 == 1) then q + 1 else q
  }

  /** The number in units of `10 ** -places`, rounded. */
  function InUnits(x: Float, places: nat): int {
    if x.exponent + places >= 0 then x.mantissa * Pow10(x.exponent + places)
    else Signed(x.mantissa < 0, Rounded(Abs(x.mantissa), Pow10(0 - places - x.exponent)))
  }

  function RoundPlaces(x: Float, places: nat): Float {
    Normal(InUnits(x, places), 0 - places)
  }

  /** Rounding to a number of places keeps exactly the numbers that have no more. */
  lemma RoundPlacesKeeps(x: Float, places: nat)
    ensures RoundPlaces(x, places) == x <==> x.exponent + places >= 0
  {
    if x.exponent + places >= 0 {
      NormalShifted(x, x.exponent + places);
    } else {
      assert x.mantissa != 0;
    }
  }

  const SIGNIFICANT: nat := 1000000  // six digits, as `:g` keeps

  /** How many digits there are beyond the first six. */
  function Excess(m: nat): nat {
    if m < SIGNIFICANT then 0 else 1 + Excess(m / 10)
  }

  lemma {:induction false} ExcessLeavesSix(m: nat)
    ensures m / Pow10(Excess(m)) < SIGNIFICANT
  {
    if m >= SIGNIFICANT {
      ExcessLeavesSix(m / 10);
      DivideTwice(m, Pow10(Excess(m / 10)));
    }
  }

  lemma DivideTwice(m: nat, p: nat)
    requires p > 0
    ensures m / (10 * p) == m / 10 / p
  {
    var q, r := m / 10 / p, m / 10 % p;
    assert m / 10 == p * q + r;
    assert m == (10 * p) * q + (10 * r + m % 10);
    QuotientIs(m, 10 * p, q, 10 * r + m % 10);
  }

  lemma QuotientIs(a: nat, b: nat, q: nat, r: nat)
    requires a == b * q + r && r < b
    ensures a / b == q
  {
    var d := a / b - q;
    assert b * d == b * (a / b) - b * q;
    assert 0 - b < b * d < b;
    assert d >= 1 ==> b * d >= b;
    assert d <= -1 ==> b * d <= 0 - b;
  }

  function SixDigits(x: Float): Float {
    var k := Excess(Abs(x.mantissa));
    Normal(Signed(x.mantissa < 0, Rounded(Abs(x.mantissa), Pow10(k))), x.exponent + k)
  }

  /** Rounding to six digits keeps exactly the numbers that have no more. */
  lemma SixDigitsKeeps(x: Float)
    ensures SixDigits(x) == x <==> Abs(x.mantissa) < SIGNIFICANT
  {
    var m := Abs(x.mantissa);
    if m < SIGNIFICANT {
      assert Rounded(m, Pow10(0)) == m;
      assert Signed(x.mantissa < 0, m) == x.mantissa;
      NormalShifted(x, 0);
    } else {
      ExcessLeavesSix(m);
      var q := Rounded(m, Pow10(Excess(m)));
      assert q <= SIGNIFICANT;
      NormalIsShort(Signed(x.mantissa < 0, q), x.exponent + Excess(m));
    }
  }

  lemma NormalIsShort(m: int, e: int)
    requires Abs(m) <= SIGNIFICANT
    ensures Abs(Normal(m, e).mantissa) < SIGNIFICANT
  {
    if m == SIGNIFICANT || m == 0 - SIGNIFICANT {
      assert Normal(m, e) == Normal(m / 10, e + 1);
    }
  }

  // ------------------------------------------------------------------ writing

  function Zeros(k: nat): (z: string)
    ensures AllDigits(z) && |z| == k
  {
    seq(k, _ => '0')
  }

  /** The digits with the point after the first `point` of them; `whole` ends a number without fraction. */
  function Fixed(s: string, point: int, whole: string): string {
    if point <= 0 then "0" + "." + (Zeros(-point) + s)
    else if point >= |s| then s + Zeros(point - |s|) + whole
    else s[..point] + "." + s[point..]
  }

  function Scientific(s: string, power: int): string
    requires s != ""
  {
    Coefficient(s) + "e" + PowerText(power)
  }

  /** One digit before the point. */
  function Coefficient(s: string): string
    requires s != ""
  {
    if |s| == 1 then s else s[..1] + "." + s[1..]
  }

  function PowerText(power: int): string {
    (if power < 0 then "-" else "+") + Padded(Abs(power), 2)
  }

  /** Python's float formatting: positional when the leading digit's power of ten is in range. */
  function Show(x: Float, limit: int, whole: string): string {
    Sign(x) + Unsigned(Abs(x.mantissa), x.exponent, limit, whole)
  }

  function Unsigned(m: nat, e: int, limit: int, whole: string): string {
    var s := Digits(m);
    var point := |s| + e;
    if -4 <= point - 1 < limit then Fixed(s, point, whole) else Scientific(s, point - 1)
  }

  /** `str(x)`. */
  function Repr(x: Float): string {
    Show(x, 16, ".0")
  }

  /** `f"{x:g}"`. */
  function General(x: Float): string {
    Show(SixDigits(x), 6, "")
  }

  /** `f"{x:.2f}"`; a negative number that rounds to zero keeps its sign. */
  function TwoPlaces(x: Float): string {
    Sign(x) + Hundredths(Abs(InUnits(x, 2)))
  }

  function Sign(x: Float): string {
    if x.mantissa < 0 then "-" else ""
  }

  function Hundredths(h: nat): string {
    Digits(h / 100) + "." + Padded(h % 100, 2)
  }

  // ------------------------------------------------------------------ reading

  /** The mantissa's digits with an optional point: the number and how many of its digits are decimals. */
  function ReadMantissa(s: string): Option<(int, int)> {
    match Partition(s, '.')
    case Some((a, b)) => if a + b != "" && AllDigits(a + b) then Some((ReadDigits(a + b), |b|)) else None
    case None => if s != "" && AllDigits(s) then Some((ReadDigits(s), 0)) else None
  }

  /** An unsigned number, with an exponent or without. */
  function ReadUnsigned(s: string): Option<Number> {
    match Partition(s, 'e')
    case Some((a, b)) =>
      (match ReadMantissa(a)
       case Some((m, k)) => if IsIntText(b) then Some(Number(m, ReadInt(b) - k)) else None
       case None => None)
    case None =>
      match ReadMantissa(s)
      case Some((m, k)) => Some(Number(m, 0 - k))
      case None => None
  }

  /** `float(text)` of a stripped text. */
  function ReadFloat(text: string): Option<Float> {
    var s := Lower(text);
    var signed := s != "" && (s[0] == '-' || s[0] == '+');
    match ReadUnsigned(if signed then s[1..] else s)
    case Some(x) => Some(Normal(if s[0] == '-' then -x.mantissa else x.mantissa, x.exponent))
    case None => None
  }

  // -------------------------------------------------------------- round trips

  predicate NumeralChar(c: char) {
    IsDigit(c) || c == '.' || c == 'e' || c == '+' || c == '-'
  }

  /** A text of digits, signs, points and `e`, beginning with a digit or a minus sign and ending with a digit. */
  predicate Numeral(s: string) {
    && s != "" && (forall i :: 0 <= i < |s| ==> NumeralChar(s[i]))
    && (IsDigit(s[0]) || s[0] == '-') && IsDigit(s[|s| - 1])
  }

  lemma {:induction false} ReadTrailingZeros(s: string, k: nat)
    requires AllDigits(s)
    ensures ReadDigits(s + Zeros(k)) == ReadDigits(s) * Pow10(k)
  {
    if k == 0 {
      assert s + Zeros(0) == s;
    } else {
      ReadTrailingZeros(s, k - 1);
      var t := s + Zeros(k);
      assert t[..|t| - 1] == s + Zeros(k - 1) && t[|t| - 1] == '0';
      PowerStep(ReadDigits(s), k);
    }
  }

  lemma DigitsAvoid(s: string, c: char)
    requires AllDigits(s) && !IsDigit(c)
    ensures c !in s
  {
  }

  lemma MantissaWithPoint(a: string, b: string)
    requires AllDigits(a) && AllDigits(b) && a + b != ""
    ensures AllDigits(a + b) && ReadMantissa(a + "." + b) == Some((ReadDigits(a + b), |b|))
  {
    DigitsAvoid(a, '.');
    PartitionAt(a, '.', b);
  }

  lemma MantissaWithoutPoint(a: string)
    requires AllDigits(a) && a != ""
    ensures ReadMantissa(a) == Some((ReadDigits(a), 0))
  {
    DigitsAvoid(a, '.');
    PartitionNone(a, '.');
  }

  /** What the digits and their point say as a number. */
  predicate Reads(s: string, x: Float) {
    var r := ReadMantissa(s);
    r.Some? && Normal(r.value.0, 0 - r.value.1) == x
  }

  lemma LeadingZero(s: string, k: nat)
    requires AllDigits(s)
    ensures AllDigits("0" + (Zeros(k) + s)) && ReadDigits("0" + (Zeros(k) + s)) == ReadDigits(s)
  {
    assert "0" + (Zeros(k) + s) == Zeros(k + 1) + s;
    ReadLeadingZeros(k + 1, s);
  }

  lemma SmallReads(s: string, k: nat, x: Float)
    requires s != "" && AllDigits(s) && ReadDigits(s) == x.mantissa && x.exponent == 0 - k - |s|
    ensures Reads("0" + "." + (Zeros(k) + s), x)
  {
    var z := Zeros(k);
    MantissaWithPoint("0", z + s);
    LeadingZero(s, k);
    NormalShifted(x, 0);
  }

  lemma LargeReads(s: string, k: nat, x: Float)
    requires s != "" && AllDigits(s) && ReadDigits(s) == x.mantissa && x.exponent == k
    ensures Reads(s + Zeros(k), x)
  {
    ReadTrailingZeros(s, k);
    MantissaWithoutPoint(s + Zeros(k));
    NormalShifted(x, k);
  }

  lemma LargeWithPointReads(s: string, k: nat, x: Float)
    requires s != "" && AllDigits(s) && ReadDigits(s) == x.mantissa && x.exponent == k
    ensures Reads(s + Zeros(k) + ".0", x)
  {
    var z := Zeros(k);
    MantissaWithPoint(s + z, "0");
    assert s + z + ".0" == s + z + "." + "0";
    assert s + z + "0" == s + Zeros(k + 1);
    ReadTrailingZeros(s, k + 1);
    NormalShifted(x, k + 1);
  }

  lemma MiddleReads(s: string, point: nat, x: Float)
    requires 0 < point < |s| && AllDigits(s) && ReadDigits(s) == x.mantissa && x.exponent == point - |s|
    ensures Reads(s[..point] + "." + s[point..], x)
  {
    assert s[..point] + s[point..] == s;
    MantissaWithPoint(s[..point], s[point..]);
    NormalShifted(x, 0);
  }

  lemma FixedReads(s: string, point: int, whole: string, x: Float)
    requires s != "" && AllDigits(s) && ReadDigits(s) == x.mantissa && x.exponent == point - |s|
    requires whole == "" || whole == ".0"
    ensures Reads(Fixed(s, point, whole), x)
  {
    if point <= 0 {
      SmallReads(s, -point, x);
    } else if point < |s| {
      MiddleReads(s, point, x);
    } else if whole == "" {
      assert s + Zeros(point - |s|) + whole == s + Zeros(point - |s|);
      LargeReads(s, point - |s|, x);
    } else {
      LargeWithPointReads(s, point - |s|, x);
    }
  }

  lemma CoefficientReads(s: string)
    requires s != "" && AllDigits(s)
    ensures ReadMantissa(Coefficient(s)) == Some((ReadDigits(s), |s| - 1))
  {
    if |s| == 1 {
      MantissaWithoutPoint(s);
    } else {
      assert s[..1] + s[1..] == s;
      MantissaWithPoint(s[..1], s[1..]);
    }
  }

  lemma CoefficientHasNoExponent(s: string)
    requires s != "" && AllDigits(s)
    ensures 'e' !in Coefficient(s)
  {
    DigitsAvoid(s, 'e');
  }

  lemma PowerReads(power: int)
    ensures IsIntText(PowerText(power)) && ReadInt(PowerText(power)) == power
  {
    ReadDigitsOfPadded(Abs(power), 2);
    var t := PowerText(power);
    assert t[1..] == Padded(Abs(power), 2);
  }

  lemma PowerAfter(a: string, b: string, m: int, k: int, power: int)
    requires 'e' !in a && ReadMantissa(a) == Some((m, k)) && IsIntText(b) && ReadInt(b) == power
    ensures ReadUnsigned(a + "e" + b) == Some(Number(m, power - k))
  {
    PartitionAt(a, 'e', b);
  }

  /** A mantissa and a power. */
  lemma PowerReadsAfter(a: string, m: int, k: int, power: int)
    requires 'e' !in a && ReadMantissa(a) == Some((m, k))
    ensures ReadUnsigned(a + "e" + PowerText(power)) == Some(Number(m, power - k))
  {
    PowerReads(power);
    PowerAfter(a, PowerText(power), m, k, power);
  }

  lemma ScientificReads(s: string, power: int)
    requires s != "" && AllDigits(s)
    ensures ReadUnsigned(Scientific(s, power)) == Some(Number(ReadDigits(s), power - |s| + 1))
  {
    CoefficientReads(s);
    CoefficientHasNoExponent(s);
    PowerReadsAfter(Coefficient(s), ReadDigits(s), |s| - 1, power);
  }

  lemma FixedHasNoExponent(s: string, point: int, whole: string)
    requires s != "" && AllDigits(s) && (whole == "" || whole == ".0")
    ensures 'e' !in Fixed(s, point, whole)
  {
  }

  lemma FixedIsNumeral(s: string, point: int, whole: string)
    requires s != "" && AllDigits(s) && (whole == "" || whole == ".0")
    ensures Numeral(Fixed(s, point, whole)) && IsDigit(Fixed(s, point, whole)[0])
  {
    var t := Fixed(s, point, whole);
    if point <= 0 {
      assert t[|t| - 1] == s[|s| - 1];
    } else if point >= |s| {
      assert whole == "" ==> t == s + Zeros(point - |s|);
    }
  }

  lemma ScientificIsNumeral(s: string, power: int)
    requires s != "" && AllDigits(s)
    ensures Numeral(Scientific(s, power)) && IsDigit(Scientific(s, power)[0])
  {
    var t, p := Scientific(s, power), Padded(Abs(power), 2);
    assert t[|t| - 1] == p[|p| - 1];
    assert t[0] == s[0];
    forall i | 0 <= i < |Coefficient(s)| ensures NumeralChar(Coefficient(s)[i]) {
    }
  }

  lemma LowerNumeral(s: string)
    requires forall i :: 0 <= i < |s| ==> NumeralChar(s[i])
    ensures Lower(s) == s
  {
  }

  /** The sign of `x` in front of an unsigned numeral. */
  lemma SignedReads(body: string, r: Number, x: Float, y: Float)
    requires Numeral(body) && IsDigit(body[0]) && ReadUnsigned(body) == Some(r)
    requires Normal(if x.mantissa < 0 then -r.mantissa else r.mantissa, r.exponent) == y
    ensures Numeral(Sign(x) + body) && ReadFloat(Sign(x) + body) == Some(y)
  {
    var t := Sign(x) + body;
    LowerNumeral(t);
    assert x.mantissa < 0 ==> t[1..] == body;
    assert x.mantissa >= 0 ==> t == body;
  }

  lemma {:induction false} NormalNegated(m: int, e: int)
    ensures Normal(-m, e) == Number(-Normal(m, e).mantissa, Normal(m, e).exponent)
    decreases Abs(m)
  {
    if m != 0 && m % 10 == 0 {
      NormalNegated(m / 10, e + 1);
      assert (-m) / 10 == -(m / 10);
    }
  }

  predicate ReadsUnsigned(s: string, x: Float) {
    var r := ReadUnsigned(s);
    r.Some? && Normal(r.value.mantissa, r.value.exponent) == x
  }

  lemma FixedWhole(s: string, point: int, whole: string, x: Float)
    requires s != "" && AllDigits(s) && ReadDigits(s) == x.mantissa && x.exponent == point - |s|
    requires whole == "" || whole == ".0"
    ensures ReadsUnsigned(Fixed(s, point, whole), x)
  {
    FixedReads(s, point, whole, x);
    FixedHasNoExponent(s, point, whole);
    WithoutPower(Fixed(s, point, whole), x);
  }

  lemma WithoutPower(t: string, x: Float)
    requires 'e' !in t && Reads(t, x)
    ensures ReadsUnsigned(t, x)
  {
    PartitionNone(t, 'e');
  }

  lemma UnsignedReads(x: Float, limit: int, whole: string)
    requires x.mantissa >= 0 && (whole == "" || whole == ".0")
    ensures var t := Unsigned(x.mantissa, x.exponent, limit, whole); Numeral(t) && IsDigit(t[0]) && ReadsUnsigned(t, x)
  {
    var s := Digits(x.mantissa);
    var point := |s| + x.exponent;
    ReadDigitsOfDigits(x.mantissa);
    if -4 <= point - 1 < limit {
      FixedWhole(s, point, whole, x);
      FixedIsNumeral(s, point, whole);
    } else {
      ScientificReads(s, point - 1);
      ScientificIsNumeral(s, point - 1);
      NormalShifted(x, 0);
    }
  }

  /** Whatever the notation, the text reads back as the number. */
  lemma ShownReads(x: Float, limit: int, whole: string)
    requires whole == "" || whole == ".0"
    ensures Numeral(Show(x, limit, whole)) && ReadFloat(Show(x, limit, whole)) == Some(x)
  {
    var positive: Float := Number(Abs(x.mantissa), x.exponent);
    UnsignedReads(positive, limit, whole);
    var t := Unsigned(positive.mantissa, positive.exponent, limit, whole);
    var r := ReadUnsigned(t).value;
    NormalNegated(r.mantissa, r.exponent);
    SignedReads(t, r, x, x);
  }

  /** `float(str(x)) == x`. */
  lemma ReprSurvives(x: Float)
    ensures Numeral(Repr(x)) && ReadFloat(Repr(x)) == Some(x)
  {
    ShownReads(x, 16, ".0");
  }

  /** `:g` keeps a number exactly when it has at most six significant digits. */
  lemma GeneralSurvivesExactly(x: Float)
    ensures Numeral(General(x)) && (ReadFloat(General(x)) == Some(x) <==> Abs(x.mantissa) < SIGNIFICANT)
  {
    ShownReads(SixDigits(x), 6, "");
    SixDigitsKeeps(x);
  }

  lemma HundredthsRead(h: nat)
    ensures var t := Hundredths(h); Numeral(t) && IsDigit(t[0]) && ReadUnsigned(t) == Some(Number(h, -2))
  {
    var whole, cents := Digits(h / 100), Padded(h % 100, 2);
    DigitsWidth(h % 100);
    MantissaWithPoint(whole, cents);
    ReadTwo(whole, cents);
    ReadDigitsOfDigits(h / 100);
    ReadDigitsOfPadded(h % 100, 2);
    PointIsNumeral(whole, cents);
    PartitionNone(whole + "." + cents, 'e');
  }

  /** Two decimals read back as the number rounded to two places. */
  lemma TwoPlacesReads(x: Float)
    ensures Numeral(TwoPlaces(x)) && ReadFloat(TwoPlaces(x)) == Some(RoundPlaces(x, 2))
  {
    var h := Abs(InUnits(x, 2));
    UnitsKeepSign(x, 2);
    HundredthsRead(h);
    SignedReads(Hundredths(h), Number(h, -2), x, RoundPlaces(x, 2));
  }

  lemma UnitsKeepSign(x: Float, places: nat)
    ensures InUnits(x, places) == Signed(x.mantissa < 0, Abs(InUnits(x, places)))
  {
    if x.exponent + places >= 0 {
      var p := Pow10(x.exponent + places);
      assert x.mantissa < 0 ==> x.mantissa * p <= 0;
      assert x.mantissa >= 0 ==> x.mantissa * p >= 0;
    }
  }

  lemma PointIsNumeral(a: string, b: string)
    requires a != "" && b != "" && AllDigits(a) && AllDigits(b)
    ensures Numeral(a + "." + b) && IsDigit((a + "." + b)[0]) && 'e' !in a + "." + b
  {
    var t := a + "." + b;
    assert t[0] == a[0] && t[|t| - 1] == b[|b| - 1];
  }

  lemma ReadTwo(a: string, b: string)
    requires AllDigits(a) && AllDigits(b) && |b| == 2
    ensures AllDigits(a + b) && ReadDigits(a + b) == ReadDigits(a) * 100 + ReadDigits(b)
  {
    var t := a + b;
    assert t[..|t| - 1] == a + b[..1] && t[..|t| - 1][..|t| - 2] == a;
    assert b[..|b| - 1] == b[..1] && b[..1][..0] == "";
    assert ReadDigits(b[..1]) == DigitValue(b[0]);
    assert t[..|t| - 1][|t| - 2] == b[0] && t[|t| - 1] == b[1];
  }
}

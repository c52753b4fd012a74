/** Decimal numerals, as Python prints and reads integers. */
module Decimal {

  predicate IsDigit(c: char) { '0' <= c <= '9' }

  predicate AllDigits(s: string) { forall i :: 0 <= i < |s| ==> IsDigit(s[i]) }

  function DigitChar(d: nat): (c: char)
    requires d < 10
    ensures IsDigit(c)
  {
    '0' + (d as char)
  }

  function DigitValue(c: char): (d: nat)
    requires IsDigit(c)
    ensures d < 10
  {
    (c as int) - ('0' as int)
  }

  function Digits(n: nat): (s: string)
    ensures s != "" && AllDigits(s)
  {
    if n < 10 then [DigitChar(n)] else Digits(n / 10) + [DigitChar(n % 10)]
  }

  /** The numeral with leading zeros up to the given width (Python's `0{width}d`). */
  function Padded(n: nat, width: nat): (s: string)
    ensures AllDigits(s) && |s| >= width && s != ""
  {
    var s := Digits(n);
    if |s| < width then seq(width - |s|, _ => '0') + s else s
  }

  function Signed(i: int): string {
    if i < 0 then "-" + Digits(-i) else Digits(i)
  }

  function ReadDigits(s: string): nat
    requires AllDigits(s)
  {
    if s == "" then 0 else ReadDigits(s[..|s| - 1]) * 10 + DigitValue(s[|s| - 1])
  }

  lemma {:induction false} ReadDigitsOfDigits(n: nat)
    ensures ReadDigits(Digits(n)) == n
  {
    if n >= 10 {
      ReadDigitsOfDigits(n / 10);
      assert Digits(n)[..|Digits(n)| - 1] == Digits(n / 10);
    }
  }

  lemma DigitsInjective(m: nat, n: nat)
    requires Digits(m) == Digits(n)
    ensures m == n
  {
    ReadDigitsOfDigits(m);
    ReadDigitsOfDigits(n);
  }

  lemma {:induction false} ReadLeadingZeros(k: nat, s: string)
    requires AllDigits(s)
    ensures AllDigits(seq(k, _ => '0') + s)
    ensures ReadDigits(seq(k, _ => '0') + s) == ReadDigits(s)
    decreases |s|, k
  {
    var z := seq(k, _ => '0');
    if s == "" {
      assert z + s == z;
      if k > 0 {
        assert z[..k - 1] == seq(k - 1, _ => '0') + "";
        ReadLeadingZeros(k - 1, "");
      }
    } else {
      assert (z + s)[..|z + s| - 1] == z + s[..|s| - 1];
      ReadLeadingZeros(k, s[..|s| - 1]);
    }
  }

  lemma ReadDigitsOfPadded(n: nat, width: nat)
    ensures ReadDigits(Padded(n, width)) == n
  {
    ReadDigitsOfDigits(n);
    if |Digits(n)| < width {
      ReadLeadingZeros(width - |Digits(n)|, Digits(n));
    }
  }

  /** How many digits a bounded number needs. */
  lemma DigitsWidth(n: nat)
    ensures n < 10 ==> |Digits(n)| == 1
    ensures n < 100 ==> |Digits(n)| <= 2
    ensures n < 10000 ==> |Digits(n)| <= 4
    ensures n < 1000000 ==> |Digits(n)| <= 6
  {
    if n >= 10 {
      DigitsWidth(n / 10);
      if n >= 100 && n < 10000 {
        DigitsWidth(n / 100);
      }
      if n >= 10000 && n < 1000000 {
        DigitsWidth(n / 100);
        assert |Digits(n / 100)| <= 4;
        assert Digits(n / 10) == Digits(n / 10 / 10) + [DigitChar(n / 10 % 10)];
        assert n / 10 / 10 == n / 100;
      }
    }
  }

  /** The optional sign and digits that `int(text)` accepts. */
  predicate IsIntText(s: string) {
    var body := if s != "" && (s[0] == '-' || s[0] == '+') then s[1..] else s;
    body != "" && AllDigits(body)
  }

  function ReadInt(s: string): int
    requires IsIntText(s)
  {
    if s[0] == '-' then 0 - ReadDigits(s[1..])
    else if s[0] == '+' then ReadDigits(s[1..])
    else ReadDigits(s)
  }

  lemma ReadIntOfSigned(i: int)
    ensures IsIntText(Signed(i)) && ReadInt(Signed(i)) == i
  {
    if i < 0 {
      ReadDigitsOfDigits(-i);
      assert Signed(i)[1..] == Digits(-i);
    } else {
      ReadDigitsOfDigits(i);
      assert IsDigit(Digits(i)[0]);
    }
  }
}

/** Time-sortable identifiers (backend/app/core/ids.py). */
module Ids {
  import opened Prelude

  // Crockford base 32, section "Encoding" of the ULID specification.
  const ALPHABET: string := "0123456789ABCDEFGHJKMNPQRSTVWXYZ"

  const TIME_CHARS: nat := 10
  const RANDOM_CHARS: nat := 16

  function Pow32(n: nat): (p: nat)
    ensures p > 0
  {
    if n == 0 then 1 else 32 * Pow32(n - 1)
  }

  /** The base-32 digits of the low `length` places, most significant first. */
  function Base32(value: int, length: nat): (s: string)
    ensures |s| == length
    decreases length
  {
    if length == 0 then "" else Base32(value / 32, length - 1) + [ALPHABET[value % 32]]
  }

  function Reverse(s: string): string {
    if s == "" then "" else Reverse(s[1..]) + [s[0]]
  }

  lemma {:induction false} ReverseSnoc(s: string, c: char)
    ensures Reverse(s + [c]) == [c] + Reverse(s)
  {
    if s != "" {
      ReverseSnoc(s[1..], c);
      assert (s + [c])[1..] == s[1..] + [c];
    }
  }

  /** Dividing by 32 `k` times, as the repeated shift does. */
  function Shifted(value: int, k: nat): int
    decreases k
  {
    if k == 0 then value else Shifted(value / 32, k - 1)
  }

  lemma {:induction false} ShiftedStep(value: int, k: nat)
    ensures Shifted(value, k + 1) == Shifted(value, k) / 32
    decreases k
  {
    if k > 0 {
      ShiftedStep(value / 32, k - 1);
    }
  }

  /** The digits still to come sit in front of the ones already produced. */
  lemma {:induction false} Base32Split(value: int, length: nat, k: nat)
    requires k <= length
    ensures Base32(value, length) == Base32(Shifted(value, k), length - k) + Base32(value, k)
    decreases k
  {
    if k == 0 {
      assert Base32(value, 0) == "";
    } else {
      Base32Split(value / 32, length - 1, k - 1);
    }
  }

  method Encode(value: int, length: nat) returns (s: string)
    ensures s == Base32(value, length)
  {
    var chars := "";
    var rest := value;
    for i := 0 to length
      invariant rest == Shifted(value, i)
      invariant Reverse(chars) == Base32(value, i)
    {
      ReverseSnoc(chars, ALPHABET[rest % 32]);
      Base32Split(value, i + 1, i);
      assert Base32(rest, 1) == Base32(rest / 32, 0) + [ALPHABET[rest % 32]];
      ShiftedStep(value, i);
      chars := chars + [ALPHABET[rest % 32]];
      rest := rest / 32;
    }
    s := Reverse(chars);
  }

  /** The alphabet is in code point order, so digits compare as their values do. */
  lemma AlphabetAscends(i: nat, j: nat)
    requires i < 32 && j < 32
    ensures i < j <==> ALPHABET[i] < ALPHABET[j]
  {
  }

  lemma {:induction false} ResidueSplit(value: int, n: nat)
    requires n > 0
    ensures value % Pow32(n) == (value / 32 % Pow32(n - 1)) * 32 + value % 32
  {
    var m := Pow32(n - 1);
    var q, r := value / 32, value % 32;
    var u, v := q / m, q % m;
    assert value == 32 * (m * u + v) + r;
    assert value == (32 * m) * u + (v * 32 + r) by {
      assert 32 * (m * u) == (32 * m) * u;
    }
    RemainderUnique(value, 32 * m, u, v * 32 + r);
  }

  lemma Multiple(m: nat, k: int)
    requires m > 0
    ensures k > 0 ==> m * k >= m
    ensures k < 0 ==> m * k <= 0 - m
  {
  }

  lemma RemainderUnique(value: int, m: nat, u: int, r: nat)
    requires m > 0 && r < m && value == m * u + r
    ensures value % m == r
  {
    var k := u - value / m;
    assert m * k == m * u - m * (value / m);
    assert m * k == value % m - r;
    Multiple(m, k);
  }

  /** For every pair of numbers, the texts compare exactly as the numbers modulo 32^n do. */
  lemma {:induction false} EncodingOrder(a: int, b: int, n: nat)
    ensures StrLeq(Base32(a, n), Base32(b, n)) <==> a % Pow32(n) <= b % Pow32(n)
    ensures Base32(a, n) == Base32(b, n) <==> a % Pow32(n) == b % Pow32(n)
    decreases n
  {
    if n > 0 {
      EncodingOrder(a / 32, b / 32, n - 1);
      ResidueSplit(a, n);
      ResidueSplit(b, n);
      AlphabetAscends(a % 32, b % 32);
      AlphabetAscends(b % 32, a % 32);
      StrLeqHeads(Base32(a / 32, n - 1), Base32(b / 32, n - 1), [ALPHABET[a % 32]], [ALPHABET[b % 32]]);
      StrLeqTotal(Base32(a, n), Base32(b, n));
      var x, y := Base32(a, n), Base32(b, n);
      assert x[..n - 1] == Base32(a / 32, n - 1) && y[..n - 1] == Base32(b / 32, n - 1);
      assert x[n - 1] == ALPHABET[a % 32] && y[n - 1] == ALPHABET[b % 32];
    }
  }

  /** Within the width nothing is lost: distinct numbers get distinct texts, in the same order. */
  lemma EncodingFaithful(a: nat, b: nat, n: nat)
    requires a < Pow32(n) && b < Pow32(n)
    ensures a < b <==> StrLess(Base32(a, n), Base32(b, n))
    ensures a == b <==> Base32(a, n) == Base32(b, n)
  {
    EncodingOrder(a, b, n);
    RemainderUnique(a, Pow32(n), 0, a);
    RemainderUnique(b, Pow32(n), 0, b);
  }

  function Ulid(millis: int, random: nat): string {
    Base32(millis, TIME_CHARS) + Base32(random, RANDOM_CHARS)
  }

  function Id(prefix: string, millis: int, random: nat): string {
    if prefix != "" then prefix + "_" + Ulid(millis, random) else Ulid(millis, random)
  }

  /** The digits, then the capital letters in four runs. */
  lemma AlphabetAt(i: nat)
    requires i < 32
    ensures |ALPHABET| == 32
    ensures ALPHABET[i] as int ==
              i + if i < 10 then 48 else if i < 18 then 55 else if i < 20 then 56 else if i < 22 then 57
                  else if i < 27 then 58 else 59
  {
  }

  /** Ten digits and the capital letters without the four that are easily misread. */
  lemma AlphabetIsCrockford(c: char)
    ensures c in ALPHABET <==> ('0' <= c <= '9' || 'A' <= c <= 'Z') && c !in {'I', 'L', 'O', 'U'}
  {
    if ('0' <= c <= '9' || 'A' <= c <= 'Z') && c !in {'I', 'L', 'O', 'U'} {
      var n := c as int;
      AlphabetAt(n - if n < 58 then 48 else if n < 73 then 55 else if n < 76 then 56 else if n < 79 then 57
                     else if n < 85 then 58 else 59);
    }
    if c in ALPHABET {
      AlphabetAt(0);
      var i :| 0 <= i < |ALPHABET| && ALPHABET[i] == c;
      AlphabetAt(i);
    }
  }

  /** The clock and the random source are parameters. */
  method NewId(prefix: string, millis: int, random: nat) returns (id: string)
    requires random < Pow32(RANDOM_CHARS)
    ensures id == Id(prefix, millis, random)
    ensures |id| == 26 + (if prefix == "" then 0 else |prefix| + 1)
    ensures id[|id| - 26..|id| - 16] == Base32(millis, 10) && id[|id| - 16..] == Base32(random, 16)
    ensures prefix != "" ==> id[..|prefix|] == prefix && id[|prefix|] == '_'
  {
    var head := Encode(millis, TIME_CHARS);
    var tail := Encode(random, RANDOM_CHARS);
    id := head + tail;
    if prefix != "" {
      id := prefix + "_" + id;
    }
    IdParts(prefix, head, tail, id);
  }

  lemma IdParts(prefix: string, head: string, tail: string, id: string)
    requires |head| == 10 && |tail| == 16
    requires id == if prefix != "" then prefix + "_" + (head + tail) else head + tail
    ensures |id| == 26 + (if prefix == "" then 0 else |prefix| + 1)
    ensures id[|id| - 26..|id| - 16] == head && id[|id| - 16..] == tail
    ensures prefix != "" ==> id[..|prefix|] == prefix && id[|prefix|] == '_'
  {
  }

  /**
   * Ids with one prefix sort by millisecond, then by the random part, as long as the millisecond
   * fits its ten characters; an earlier millisecond comes first whatever the random parts are.
   */
  lemma IdsSortByTime(prefix: string, t1: nat, r1: nat, t2: nat, r2: nat)
    requires t1 < Pow32(TIME_CHARS) && t2 < Pow32(TIME_CHARS)
    requires r1 < Pow32(RANDOM_CHARS) && r2 < Pow32(RANDOM_CHARS)
    ensures StrLess(Id(prefix, t1, r1), Id(prefix, t2, r2)) <==> t1 < t2 || (t1 == t2 && r1 < r2)
  {
    UlidsSortByTime(t1, r1, t2, r2);
    StrLeqPrefix(prefix + "_", Ulid(t1, r1), Ulid(t2, r2));
    if prefix != "" {
      assert Id(prefix, t1, r1)[|prefix| + 1..] == Ulid(t1, r1);
      assert Id(prefix, t2, r2)[|prefix| + 1..] == Ulid(t2, r2);
    }
  }

  lemma UlidsSortByTime(t1: nat, r1: nat, t2: nat, r2: nat)
    requires t1 < Pow32(TIME_CHARS) && t2 < Pow32(TIME_CHARS)
    requires r1 < Pow32(RANDOM_CHARS) && r2 < Pow32(RANDOM_CHARS)
    ensures StrLess(Ulid(t1, r1), Ulid(t2, r2)) <==> t1 < t2 || (t1 == t2 && r1 < r2)
  {
    EncodingFaithful(t1, t2, TIME_CHARS);
    EncodingFaithful(r1, r2, RANDOM_CHARS);
    var h1, h2 := Base32(t1, TIME_CHARS), Base32(t2, TIME_CHARS);
    var x1, x2 := Base32(r1, RANDOM_CHARS), Base32(r2, RANDOM_CHARS);
    StrLeqHeads(h1, h2, x1, x2);
    assert Ulid(t1, r1)[..TIME_CHARS] == h1 && Ulid(t1, r1)[TIME_CHARS..] == x1;
    assert Ulid(t2, r2)[..TIME_CHARS] == h2 && Ulid(t2, r2)[TIME_CHARS..] == x2;
  }

  /** Beyond its width the encoder keeps only the low digits, so later instants can sort first. */
  lemma WidthOverflow()
    ensures Base32(32, 1) == Base32(0, 1)
    ensures StrLess(Base32(32, 1), Base32(31, 1))
  {
    EncodingOrder(32, 0, 1);
    EncodingOrder(32, 31, 1);
    assert Pow32(1) == 32;
  }
}

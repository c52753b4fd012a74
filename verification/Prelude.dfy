/** Option and Result, and the code point order Python uses to compare strings. */
module Prelude {

  datatype Option<+T> = None | Some(value: T) {
    function GetOr(default: T): T {
      match this
      case Some(v) => v
      case None => default
    }
  }

  datatype Result<+T, +E> = Ok(value: T) | Err(error: E)

  predicate StrLeq(a: string, b: string)
    decreases |a|
  {
    if a == [] then true
    else if b == [] then false
    else a[0] < b[0] || (a[0] == b[0] && StrLeq(a[1..], b[1..]))
  }

  predicate StrLess(a: string, b: string) {
    a != b && StrLeq(a, b)
  }

  lemma {:induction false} StrLeqTotal(a: string, b: string)
    ensures StrLeq(a, b) || StrLeq(b, a)
    ensures StrLeq(a, b) && StrLeq(b, a) ==> a == b
    decreases |a|
  {
    if a != [] && b != [] && a[0] == b[0] {
      StrLeqTotal(a[1..], b[1..]);
      assert a == [a[0]] + a[1..] && b == [b[0]] + b[1..];
    }
  }

  lemma {:induction false} StrLeqTransitive(a: string, b: string, c: string)
    requires StrLeq(a, b) && StrLeq(b, c)
    ensures StrLeq(a, c)
    decreases |a|
  {
    if a != [] && a[0] == b[0] && b[0] == c[0] {
      StrLeqTransitive(a[1..], b[1..], c[1..]);
    }
  }

  /** Every two strings compare, and only equal ones compare both ways. */
  lemma StrLeqOrder()
    ensures forall a: string, b: string :: StrLeq(a, b) || StrLeq(b, a)
    ensures forall a: string, b: string :: StrLeq(a, b) && StrLeq(b, a) ==> a == b
    ensures forall a: string, b: string, c: string :: StrLeq(a, b) && StrLeq(b, c) ==> StrLeq(a, c)
  {
    forall a: string, b: string
      ensures StrLeq(a, b) || StrLeq(b, a)
      ensures StrLeq(a, b) && StrLeq(b, a) ==> a == b
    {
      StrLeqTotal(a, b);
    }
    forall a: string, b: string, c: string | StrLeq(a, b) && StrLeq(b, c)
      ensures StrLeq(a, c)
    {
      StrLeqTransitive(a, b, c);
    }
  }

  /** A common prefix never decides a comparison. */
  lemma {:induction false} StrLeqPrefix(p: string, a: string, b: string)
    ensures StrLeq(p + a, p + b) <==> StrLeq(a, b)
    decreases |p|
  {
    if p == [] {
      assert p + a == a && p + b == b;
    } else {
      StrLeqPrefix(p[1..], a, b);
      assert (p + a)[1..] == p[1..] + a && (p + b)[1..] == p[1..] + b;
    }
  }

  /** Heads of equal length decide before the tails do. */
  lemma {:induction false} StrLeqHeads(a: string, b: string, x: string, y: string)
    requires |a| == |b|
    ensures StrLeq(a + x, b + y) <==> StrLess(a, b) || (a == b && StrLeq(x, y))
    decreases |a|
  {
    if a == b {
      StrLeqPrefix(a, x, y);
    } else if a[0] == b[0] {
      StrLeqHeads(a[1..], b[1..], x, y);
      assert (a + x)[1..] == a[1..] + x && (b + y)[1..] == b[1..] + y;
      assert a == [a[0]] + a[1..] && b == [b[0]] + b[1..];
    }
  }

  /** The characters that `str.strip` removes. */
  predicate IsSpace(c: char) {
    || '\t' <= c <= '\r' || '\U{1C}' <= c <= ' ' || c == '\U{85}' || c == '\U{A0}' || c == '\U{1680}'
    || '\U{2000}' <= c <= '\U{200A}' || c == '\U{2028}' || c == '\U{2029}' || c == '\U{202F}'
    || c == '\U{205F}' || c == '\U{3000}'
  }

  function StripLeft(s: string): (r: string)
    ensures |r| <= |s|
    ensures r != "" ==> !IsSpace(r[0])
    ensures forall c :: c in r ==> c in s
  {
    if s != "" && IsSpace(s[0]) then StripLeft(s[1..]) else s
  }

  function StripRight(s: string): (r: string)
    ensures r <= s
    ensures r != "" ==> !IsSpace(r[|r| - 1])
    ensures forall c :: c in r ==> c in s
  {
    if s != "" && IsSpace(s[|s| - 1]) then StripRight(s[..|s| - 1]) else s
  }

  function Strip(s: string): (r: string)
    ensures Trimmed(r)
    ensures Trimmed(s) ==> r == s
    ensures forall c :: c in r ==> c in s
  {
    StripRight(StripLeft(s))
  }

  lemma {:induction false} StripRightKeepsHead(s: string)
    requires s != "" && !IsSpace(s[0])
    ensures StripRight(s) != ""
  {
    if IsSpace(s[|s| - 1]) {
      StripRightKeepsHead(s[..|s| - 1]);
    }
  }

  lemma {:induction false} LeftBlank(s: string)
    requires StripLeft(s) == ""
    ensures forall c :: c in s ==> IsSpace(c)
  {
    if s != "" {
      LeftBlank(s[1..]);
      assert s == [s[0]] + s[1..];
    }
  }

  lemma BlankIsSpaces(s: string)
    requires Strip(s) == ""
    ensures forall c :: c in s ==> IsSpace(c)
  {
    if StripLeft(s) != "" {
      StripRightKeepsHead(StripLeft(s));
    }
    LeftBlank(s);
  }

  // Letters are those of ASCII here.
  function Upper(s: string): (r: string)
    ensures |r| == |s|
  {
    seq(|s|, i requires 0 <= i < |s| => if 'a' <= s[i] <= 'z' then s[i] - 'a' + 'A' else s[i])
  }

  function Lower(s: string): (r: string)
    ensures |r| == |s|
  {
    seq(|s|, i requires 0 <= i < |s| => if 'A' <= s[i] <= 'Z' then s[i] - 'A' + 'a' else s[i])
  }

  /** The text before the first `c`, and the text after it; None when there is no `c`. */
  function Partition(s: string, c: char): Option<(string, string)> {
    if s == "" then None
    else if s[0] == c then Some(("", s[1..]))
    else if Partition(s[1..], c).None? then None
    else Some(([s[0]] + Partition(s[1..], c).value.0, Partition(s[1..], c).value.1))
  }

  lemma {:induction false} PartitionAt(k: string, c: char, rest: string)
    requires c !in k
    ensures Partition(k + [c] + rest, c) == Some((k, rest))
  {
    var s := k + [c] + rest;
    if k == "" {
      assert s[1..] == rest;
    } else {
      PartitionAt(k[1..], c, rest);
      assert s[1..] == k[1..] + [c] + rest;
      assert k == [k[0]] + k[1..];
    }
  }

  lemma {:induction false} PartitionNone(s: string, c: char)
    requires c !in s
    ensures Partition(s, c).None?
  {
    if s != "" {
      PartitionNone(s[1..], c);
    }
  }

  lemma {:induction false} PartitionAvoids(s: string, c: char)
    ensures Partition(s, c).Some? ==> c !in Partition(s, c).value.0
    ensures Partition(s, c).Some? ==> forall d :: d in Partition(s, c).value.0 ==> d in s
  {
    if s != "" && s[0] != c {
      PartitionAvoids(s[1..], c);
    }
  }

  const MAX_REASON_LENGTH: nat := 2000

  /** Every planner action needs a reason (`require_reason` in backend/app/services/base.py). */
  predicate ReasonOk(reason: string) {
    Strip(reason) != "" && |Strip(reason)| <= MAX_REASON_LENGTH
  }

  predicate Trimmed(s: string) {
    s == "" || (!IsSpace(s[0]) && !IsSpace(s[|s| - 1]))
  }
}

/** Stable insertion sort, standing for Python's built-in `sorted`. */
module Sorting {

  ghost predicate Preorder<T(!new)>(leq: (T, T) -> bool) {
    && (forall x, y :: leq(x, y) || leq(y, x))
    && (forall x, y, z :: leq(x, y) && leq(y, z) ==> leq(x, z))
  }

  ghost predicate SortedBy<T>(leq: (T, T) -> bool, xs: seq<T>) {
    forall i, j :: 0 <= i < j < |xs| ==> leq(xs[i], xs[j])
  }

  /** Only equal members compare both ways. */
  ghost predicate Separates<T>(leq: (T, T) -> bool, xs: seq<T>) {
    forall x, y :: x in xs && y in xs && leq(x, y) && leq(y, x) ==> x == y
  }

  function Insert<T>(leq: (T, T) -> bool, x: T, xs: seq<T>): seq<T> {
    if xs == [] || leq(x, xs[0]) then [x] + xs else [xs[0]] + Insert(leq, x, xs[1..])
  }

  function Sort<T>(leq: (T, T) -> bool, xs: seq<T>): seq<T> {
    if xs == [] then [] else Insert(leq, xs[0], Sort(leq, xs[1..]))
  }

  lemma {:induction false} InsertMembers<T>(leq: (T, T) -> bool, x: T, xs: seq<T>)
    ensures multiset(Insert(leq, x, xs)) == multiset{x} + multiset(xs)
    ensures |Insert(leq, x, xs)| == |xs| + 1
  {
    if xs != [] && !leq(x, xs[0]) {
      InsertMembers(leq, x, xs[1..]);
      assert xs == [xs[0]] + xs[1..];
    }
  }

  lemma {:induction false} InsertSorted<T(!new)>(leq: (T, T) -> bool, x: T, xs: seq<T>)
    requires Preorder(leq) && SortedBy(leq, xs)
    ensures SortedBy(leq, Insert(leq, x, xs))
  {
    if xs != [] && !leq(x, xs[0]) {
      InsertSorted(leq, x, xs[1..]);
      InsertMembers(leq, x, xs[1..]);
      var rest := Insert(leq, x, xs[1..]);
      forall j | 0 <= j < |rest| ensures leq(xs[0], rest[j]) {
        assert rest[j] in multiset(rest);
        assert rest[j] == x || rest[j] in xs[1..];
      }
    }
  }

  lemma {:induction false} SortMembers<T>(leq: (T, T) -> bool, xs: seq<T>)
    ensures multiset(Sort(leq, xs)) == multiset(xs)
    ensures |Sort(leq, xs)| == |xs|
    ensures forall x :: x in Sort(leq, xs) <==> x in xs
  {
    if xs != [] {
      SortMembers(leq, xs[1..]);
      InsertMembers(leq, xs[0], Sort(leq, xs[1..]));
      assert xs == [xs[0]] + xs[1..];
    }
    forall x ensures x in Sort(leq, xs) <==> x in xs {
      assert x in Sort(leq, xs) <==> x in multiset(Sort(leq, xs));
      assert x in xs <==> x in multiset(xs);
    }
  }

  lemma {:induction false} SortSorted<T(!new)>(leq: (T, T) -> bool, xs: seq<T>)
    requires Preorder(leq)
    ensures SortedBy(leq, Sort(leq, xs))
  {
    if xs != [] {
      SortSorted(leq, xs[1..]);
      InsertSorted(leq, xs[0], Sort(leq, xs[1..]));
    }
  }

  /** Sorting a sorted list leaves it alone, ties included. */
  lemma {:induction false} SortFixpoint<T>(leq: (T, T) -> bool, xs: seq<T>)
    requires SortedBy(leq, xs)
    ensures Sort(leq, xs) == xs
  {
    if xs != [] {
      SortFixpoint(leq, xs[1..]);
      assert xs == [xs[0]] + xs[1..];
      if |xs| > 1 {
        assert leq(xs[0], xs[1]);
      }
    }
  }

  lemma SortedHeads<T>(leq: (T, T) -> bool, xs: seq<T>, ys: seq<T>)
    requires SortedBy(leq, xs) && SortedBy(leq, ys) && xs != [] && ys != []
    requires multiset(xs) == multiset(ys) && Separates(leq, xs) && leq(xs[0], xs[0])
    ensures xs[0] == ys[0]
  {
    assert xs[0] in multiset(ys) && ys[0] in multiset(xs);
    assert xs[0] in ys && ys[0] in xs;
    assert leq(xs[0], ys[0]) && leq(ys[0], xs[0]);
  }

  lemma MultisetTail<T>(xs: seq<T>)
    requires xs != []
    ensures multiset(xs[1..]) == multiset(xs) - multiset{xs[0]}
  {
    assert xs == [xs[0]] + xs[1..];
  }

  /** When the key separates the members, a sorted list is a function of its multiset. */
  lemma {:induction false} SortedUnique<T>(leq: (T, T) -> bool, xs: seq<T>, ys: seq<T>)
    requires SortedBy(leq, xs) && SortedBy(leq, ys)
    requires multiset(xs) == multiset(ys) && Separates(leq, xs)
    requires forall x :: x in xs ==> leq(x, x)
    ensures xs == ys
    decreases |xs|
  {
    assert |xs| == |multiset(xs)| == |multiset(ys)| == |ys|;
    if xs != [] {
      SortedHeads(leq, xs, ys);
      MultisetTail(xs);
      MultisetTail(ys);
      SortedUnique(leq, xs[1..], ys[1..]);
      assert xs == [xs[0]] + xs[1..] && ys == [ys[0]] + ys[1..];
    }
  }

  /** So the order in which the elements arrive does not matter. */
  lemma SortOrderFree<T(!new)>(leq: (T, T) -> bool, xs: seq<T>, ys: seq<T>)
    requires Preorder(leq) && multiset(xs) == multiset(ys) && Separates(leq, xs)
    ensures Sort(leq, xs) == Sort(leq, ys)
  {
    SortMembers(leq, xs);
    SortMembers(leq, ys);
    SortSorted(leq, xs);
    SortSorted(leq, ys);
    SortedUnique(leq, Sort(leq, xs), Sort(leq, ys));
  }

  lemma ImageWithout<T, U>(f: T -> U, ys: seq<T>, fy: seq<U>, i: nat)
    requires |fy| == |ys| && i < |ys| && forall k :: 0 <= k < |ys| ==> fy[k] == f(ys[k])
    ensures var ys', fy' := ys[..i] + ys[i + 1..], fy[..i] + fy[i + 1..];
            |ys'| == |fy'| && forall k :: 0 <= k < |ys'| ==> fy'[k] == f(ys'[k])
  {
  }

  /** The images of a permuted list are the same images permuted. */
  lemma {:induction false} ImagePermuted<T, U>(f: T -> U, xs: seq<T>, ys: seq<T>, fx: seq<U>, fy: seq<U>)
    requires multiset(xs) == multiset(ys) && |fx| == |xs| && |fy| == |ys|
    requires forall i :: 0 <= i < |xs| ==> fx[i] == f(xs[i])
    requires forall i :: 0 <= i < |ys| ==> fy[i] == f(ys[i])
    ensures multiset(fx) == multiset(fy)
    decreases |xs|
  {
    if xs == [] {
      assert |ys| == |multiset(ys)| == 0;
      assert fx == fy;
    } else {
      assert xs[0] in multiset(ys);
      var i :| 0 <= i < |ys| && ys[i] == xs[0];
      var ys', fy' := ys[..i] + ys[i + 1..], fy[..i] + fy[i + 1..];
      RemoveAt(ys, i);
      MultisetTail(xs);
      ImageWithout(f, ys, fy, i);
      ImagePermuted(f, xs[1..], ys', fx[1..], fy');
      RemoveAt(fy, i);
      MultisetTail(fx);
      assert multiset(fx) == multiset(fx[1..]) + multiset{fx[0]};
    }
  }

  lemma RemoveAt<T>(xs: seq<T>, i: nat)
    requires i < |xs|
    ensures multiset(xs) == multiset(xs[..i] + xs[i + 1..]) + multiset{xs[i]}
  {
    assert xs == xs[..i] + [xs[i]] + xs[i + 1..];
  }

  ghost predicate Distinct<T>(xs: seq<T>) {
    forall i, j :: 0 <= i < j < |xs| ==> xs[i] != xs[j]
  }

  /** A list of a set's members without repetition has each of them once. */
  lemma {:induction false} DistinctOnce<T>(xs: seq<T>, s: set<T>)
    requires Distinct(xs) && forall x :: x in xs <==> x in s
    ensures multiset(xs) == multiset(s)
    decreases |xs|
  {
    if xs == [] {
      assert s == {};
    } else {
      var s' := s - {xs[0]};
      assert xs == [xs[0]] + xs[1..];
      assert xs[0] !in xs[1..];
      DistinctOnce(xs[1..], s');
      assert s == s' + {xs[0]};
    }
  }

  lemma OnceDistinct<T>(xs: seq<T>, s: set<T>)
    requires multiset(xs) == multiset(s)
    ensures Distinct(xs)
  {
    forall i, j | 0 <= i < j < |xs| ensures xs[i] != xs[j] {
      assert xs == xs[..j] + xs[j..];
      assert xs[i] in xs[..j] && xs[j] in xs[j..];
      assert multiset(xs)[xs[j]] <= 1;
      assert xs[i] in multiset(xs[..j]) && xs[j] in multiset(xs[j..]);
    }
  }
}

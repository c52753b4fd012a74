/** What comparing, stripping, changing case and sorting mean, apart from how they are computed. */
module Texts {
  import opened Prelude
  import opened Sorting

  /** The first `k` characters agree; then `a` ends, or has the smaller character. */
  predicate ComesFirst(a: string, b: string, k: nat) {
    && k <= |a| && k < |b| && a[..k] == b[..k]
    && (k < |a| ==> a[k] < b[k])
  }

  /** Strings compare as Python compares them: at the first difference, or a prefix before what it begins. */
  lemma {:induction false} StrLessExactly(a: string, b: string)
    ensures StrLess(a, b) <==> exists k: nat :: ComesFirst(a, b, k)
    decreases |a|
  {
    if a == "" || b == "" || a[0] != b[0] {
      if StrLess(a, b) {
        assert ComesFirst(a, b, 0);
      }
      if k: nat :| ComesFirst(a, b, k) {
        LaterMeansSameHead(a, b, k);
      }
    } else {
      StrLessExactly(a[1..], b[1..]);
      assert a == [a[0]] + a[1..] && b == [b[0]] + b[1..];
      if k: nat :| ComesFirst(a[1..], b[1..], k) {
        assert a[..k + 1] == [a[0]] + a[1..][..k] && b[..k + 1] == [b[0]] + b[1..][..k];
        assert ComesFirst(a, b, k + 1);
      }
      if k: nat :| ComesFirst(a, b, k) {
        assert k > 0;
        assert a[1..][..k - 1] == a[..k][1..] && b[1..][..k - 1] == b[..k][1..];
        assert ComesFirst(a[1..], b[1..], k - 1);
      }
    }
  }

  lemma LaterMeansSameHead(a: string, b: string, k: nat)
    requires ComesFirst(a, b, k)
    ensures k > 0 ==> a != "" && b != "" && a[0] == b[0]
  {
    if k > 0 {
      assert a[0] == a[..k][0] && b[0] == b[..k][0];
    }
  }

  /** The white space of Python: 29 code points. */
  lemma SpaceCodes(c: char)
    ensures IsSpace(c) <==>
              c as int in {9, 10, 11, 12, 13, 28, 29, 30, 31, 32, 133, 160, 5760, 8192, 8193, 8194, 8195, 8196, 8197,
                           8198, 8199, 8200, 8201, 8202, 8232, 8233, 8239, 8287, 12288}
  {
  }

  predicate AllSpace(s: string) {
    forall i :: 0 <= i < |s| ==> IsSpace(s[i])
  }

  lemma {:induction false} StripLeftParts(s: string) returns (left: string)
    ensures s == left + StripLeft(s) && AllSpace(left)
  {
    left := "";
    if s != "" && IsSpace(s[0]) {
      left := StripLeftParts(s[1..]);
      left := [s[0]] + left;
      assert s == [s[0]] + s[1..];
    }
  }

  lemma {:induction false} StripRightParts(s: string) returns (right: string)
    ensures s == StripRight(s) + right && AllSpace(right)
  {
    right := "";
    if s != "" && IsSpace(s[|s| - 1]) {
      right := StripRightParts(s[..|s| - 1]);
      right := right + [s[|s| - 1]];
      assert s == s[..|s| - 1] + [s[|s| - 1]];
    }
  }

  /** Stripping takes white space away at both ends, and nothing else. */
  lemma StripParts(s: string) returns (left: string, right: string)
    ensures s == left + Strip(s) + right && AllSpace(left) && AllSpace(right)
  {
    left := StripLeftParts(s);
    right := StripRightParts(StripLeft(s));
    Nested(s, left, StripLeft(s), StripRight(StripLeft(s)), right);
  }

  lemma Nested(s: string, a: string, t: string, b: string, c: string)
    requires s == a + t && t == b + c
    ensures s == a + b + c
  {
  }

  /** And it takes all of it: a text between white space that begins and ends with none is what remains. */
  lemma StripExactly(left: string, t: string, right: string)
    requires AllSpace(left) && AllSpace(right) && Trimmed(t)
    ensures Strip(left + t + right) == t
  {
    var s := left + t + right;
    var l, r := StripParts(s);
    var u := Strip(s);
    if t == "" {
      NothingBetween(left, right, l, u, r);
    } else {
      assert s[|left|] == t[0] && s[|left| + |t| - 1] == t[|t| - 1];
      SameEnds(left, t, right, l, u, r, s);
    }
  }

  lemma NothingBetween(left: string, right: string, l: string, u: string, r: string)
    requires left + "" + right == l + u + r && AllSpace(left) && AllSpace(right) && Trimmed(u)
    ensures u == ""
  {
    var s := left + "" + right;
    assert forall k :: 0 <= k < |s| ==> IsSpace(s[k]);
    assert forall k :: 0 <= k < |u| ==> s[|l| + k] == u[k];
  }

  lemma SameEnds(left: string, t: string, right: string, l: string, u: string, r: string, s: string)
    requires s == left + t + right == l + u + r && t != ""
    requires AllSpace(left) && AllSpace(right) && AllSpace(l) && AllSpace(r)
    requires Trimmed(t) && Trimmed(u)
    ensures u == t
  {
    var i, j := |left|, |left| + |t| - 1;
    assert s[i] == t[0] && s[j] == t[|t| - 1];
    assert forall k :: 0 <= k < |l| ==> s[k] == l[k];
    assert forall k :: |s| - |r| <= k < |s| ==> s[k] == r[k - (|s| - |r|)];
    assert |l| <= i && j < |s| - |r|;
    assert s[|l|] == u[0] && s[|s| - |r| - 1] == u[|u| - 1];
    assert forall k :: 0 <= k < |left| ==> s[k] == left[k];
    assert forall k :: |s| - |right| <= k < |s| ==> s[k] == right[k - (|s| - |right|)];
    assert |l| == |left| && |r| == |right|;
    assert t == s[|left|..|s| - |right|] && u == s[|l|..|s| - |r|];
  }

  /** Nothing is left of white space alone, and of nothing else. */
  lemma BlankExactly(s: string)
    ensures Strip(s) == "" <==> AllSpace(s)
  {
    var l, r := StripParts(s);
    if AllSpace(s) {
      StripExactly(s, "", "");
      assert s + "" + "" == s;
    }
  }

  /** A reason counts when something is left between its white space, 2000 characters at most. */
  lemma ReasonExactly(left: string, t: string, right: string)
    requires AllSpace(left) && AllSpace(right) && Trimmed(t)
    ensures ReasonOk(left + t + right) <==> 1 <= |t| <= 2000
  {
    StripExactly(left, t, right);
  }

  /** Changing case changes the letters of ASCII, each by 32 code points, and no other character. */
  lemma CaseChanges(s: string, i: nat)
    requires i < |s|
    ensures Upper(s)[i] as int == s[i] as int - if 'a' <= s[i] <= 'z' then 32 else 0
    ensures Lower(s)[i] as int == s[i] as int + if 'A' <= s[i] <= 'Z' then 32 else 0
  {
  }

  // ------------------------------------------------------------------- sorting

  function Those<T>(p: T -> bool, xs: seq<T>): seq<T> {
    if xs == [] then [] else (if p(xs[0]) then [xs[0]] else []) + Those(p, xs[1..])
  }

  /** Sorting is stable: elements that compare both ways keep their order. */
  lemma {:induction false} SortIsStable<T(!new)>(leq: (T, T) -> bool, p: T -> bool, xs: seq<T>)
    requires forall x, y :: p(x) && p(y) ==> leq(x, y)
    ensures Those(p, Sort(leq, xs)) == Those(p, xs)
  {
    if xs != [] {
      SortIsStable(leq, p, xs[1..]);
      InsertIsStable(leq, p, xs[0], Sort(leq, xs[1..]));
      assert [xs[0]] + xs[1..] == xs;
    }
  }

  lemma {:induction false} InsertIsStable<T(!new)>(leq: (T, T) -> bool, p: T -> bool, x: T, xs: seq<T>)
    requires forall a, b :: p(a) && p(b) ==> leq(a, b)
    ensures Those(p, Insert(leq, x, xs)) == (if p(x) then [x] else []) + Those(p, xs)
  {
    if xs == [] || leq(x, xs[0]) {
      FirstOfThose(p, x, xs);
    } else {
      var y, rest := xs[0], Insert(leq, x, xs[1..]);
      InsertIsStable(leq, p, x, xs[1..]);
      FirstOfThose(p, y, rest);
      FirstOfThose(p, y, xs[1..]);
      assert [y] + xs[1..] == xs;
      assert !(p(x) && p(y));
    }
  }

  lemma FirstOfThose<T>(p: T -> bool, x: T, xs: seq<T>)
    ensures Those(p, [x] + xs) == (if p(x) then [x] else []) + Those(p, xs)
  {
    assert ([x] + xs)[1..] == xs;
  }
}

/** Which key may stand beside keys without `.` and `[` (backend/app/services/audit_service.py). */
module AuditKeys {
  import opened Prelude
  import opened AuditDiff
  import Decimal

  predicate GoodOr(path: seq<Step>, extra: string) {
    forall i :: 0 <= i < |path| && path[i].Key? ==> path[i].k == extra || GoodKey(path[i].k)
  }

  /** Some good path that starts with a key has this text. */
  ghost predicate ReadsAsPath(text: string) {
    exists r: seq<Step> :: GoodPath(r) && r != [] && r[0].Key? && PathText("", r) == text
  }

  // ------------------------------------------------------------ texts of segments

  /** A mark begins every good segment, and no other stands in it. */
  lemma SegmentMarks(s: Step)
    requires s.Key? ==> GoodKey(s.k)
    ensures |Segment(s)| >= 2 && IsMark(Segment(s)[0])
    ensures forall i :: 1 <= i < |Segment(s)| ==> !IsMark(Segment(s)[i])
  {
    if s.Index? {
      var digits := Decimal.Digits(s.i);
      assert forall i :: 0 <= i < |digits| ==> Decimal.IsDigit(digits[i]);
    }
  }

  lemma {:induction false} SuffixJoin(p: seq<Step>, q: seq<Step>)
    ensures Suffix(p + q) == Suffix(p) + Suffix(q)
    decreases |p|
  {
    if |p| == 0 {
      NothingBefore(p, q);
    } else {
      FirstApart(p, q);
      SuffixJoin(p[1..], q);
      SuffixOfMore(p[0], p[1..], p[1..] + q, Suffix(q));
    }
  }

  lemma NothingBefore(p: seq<Step>, q: seq<Step>)
    requires |p| == 0
    ensures Suffix(p + q) == Suffix(p) + Suffix(q)
  {
    assert p + q == q;
  }

  lemma FirstApart<T>(p: seq<T>, q: seq<T>)
    requires p != []
    ensures p == [p[0]] + p[1..] && p + q == [p[0]] + (p[1..] + q)
  {
  }

  lemma SuffixOfMore(s: Step, p: seq<Step>, joined: seq<Step>, tail: string)
    requires Suffix(joined) == Suffix(p) + tail
    ensures Suffix([s] + joined) == Suffix([s] + p) + tail
  {
    SuffixFirst(s, p);
    SuffixFirst(s, joined);
    Regroup(Segment(s), Suffix(p), tail);
  }

  lemma SuffixFirst(s: Step, p: seq<Step>)
    ensures Suffix([s] + p) == Segment(s) + Suffix(p)
  {
    assert ([s] + p)[1..] == p;
  }

  lemma Regroup(a: string, b: string, c: string)
    ensures a + (b + c) == a + b + c
  {
  }

  lemma SuffixOfOne(s: Step)
    ensures Suffix([s]) == Segment(s)
  {
    assert Segment(s) + "" == Segment(s);
  }

  /** A good path's text, cut before a mark, is the text of its first steps. */
  lemma {:induction false} CutBeforeMark(path: seq<Step>, n: nat) returns (steps: nat)
    requires GoodPath(path) && 0 < n < |Suffix(path)| && IsMark(Suffix(path)[n])
    ensures 0 < steps <= |path| && Suffix(path[..steps]) == Suffix(path)[..n]
  {
    var first, rest := Segment(path[0]), path[1..];
    SegmentMarks(path[0]);
    FirstApart(path, []);
    SuffixFirst(path[0], rest);
    InFirst(first, Suffix(rest), n);
    if n < |first| {
      assert false;
    } else if n == |first| {
      steps := 1;
      assert path[..1] == [path[0]] && Suffix(path)[..n] == first;
      SuffixOfOne(path[0]);
    } else {
      assert Suffix(path)[n] == Suffix(rest)[n - |first|];
      var later := CutBeforeMark(rest, n - |first|);
      steps := later + 1;
      assert path[..steps] == [path[0]] + rest[..later];
      SuffixFirst(path[0], rest[..later]);
      CutJoined(first, Suffix(rest), n);
    }
  }

  lemma InFirst(a: string, b: string, i: nat)
    ensures i < |a| ==> (a + b)[i] == a[i]
  {
  }

  lemma CutJoined(a: string, b: string, n: nat)
    requires |a| <= n <= |a| + |b|
    ensures (a + b)[..n] == a + b[..n - |a|]
  {
  }

  // ------------------------------------------------- a key that overlaps itself

  /**
   * If a word begins with a good path's text and goes on with its own beginning, then each of its beginnings
   * that stands before a mark is the text of a good path.
   */
  lemma {:induction false} Overlapping(word: string, done: seq<Step>, last: nat, n: nat) returns (r: seq<Step>)
    requires GoodPath(done) && done != [] && done[0].Key?
    requires last < |word| && word == Suffix(done) + word[..last]
    requires 0 < n <= last && IsMark(word[n])
    ensures GoodPath(r) && r != [] && r[0].Key? && Suffix(r) == word[..n]
    decreases n
  {
    var head := Suffix(done);
    assert word[..|head|] == head;
    if n < |head| {
      assert word[n] == head[n] && word[..n] == head[..n];
      var steps := CutBeforeMark(done, n);
      r := done[..steps];
    } else if n == |head| {
      r := done;
    } else {
      var m := n - |head|;
      assert word[n] == word[..last][m] == word[m];
      var rest := Overlapping(word, done, last, m);
      r := done + rest;
      SuffixJoin(done, rest);
      assert word[..n] == head + word[..last][..m];
      assert word[..last][..m] == word[..m];
    }
  }

  // ----------------------------------------------- one text, read in two ways

  /**
   * A text that begins with the key and can also be read with good steps first shows the key as the text of a
   * good path: the other reading ends a step where the key ends, or meets the key inside itself.
   */
  lemma {:induction false} SecondReading(key: string, tail: string, done: seq<Step>, rest: seq<Step>)
    returns (r: seq<Step>)
    requires key != "" && !GoodKey(key) && (tail == "" || IsMark(tail[0]))
    requires GoodPath(done) && done != [] && done[0].Key? && GoodOr(rest, key)
    requires Suffix(done) + Suffix(rest) == "." + key + tail && |Suffix(done)| <= |key| + 1
    ensures GoodPath(r) && r != [] && r[0].Key? && Suffix(r) == "." + key
    decreases |rest|
  {
    if |Suffix(done)| == |key| + 1 {
      SamePrefix(Suffix(done), Suffix(rest), "." + key, tail);
      return done;
    }
    assert rest != [];
    var s, more := rest[0], rest[1..];
    if s == Key(key) {
      r := MeetsItself(key, tail, done, Suffix(more));
    } else {
      GoodStep(key, tail, done, s, Suffix(more));
      r := SecondReading(key, tail, done + [s], more);
    }
  }

  lemma SamePrefix(a: string, x: string, b: string, y: string)
    requires a + x == b + y && |a| == |b|
    ensures a == b && x == y
  {
    assert a == (a + x)[..|a|] && b == (b + y)[..|b|];
    assert x == (a + x)[|a|..] && y == (b + y)[|b|..];
  }

  /** A good step does not reach beyond the end of the key, where a mark stands. */
  lemma GoodStep(key: string, tail: string, done: seq<Step>, s: Step, more: string)
    requires tail == "" || IsMark(tail[0])
    requires s.Key? ==> GoodKey(s.k)
    requires |Suffix(done)| <= |key| && Suffix(done) + (Segment(s) + more) == "." + key + tail
    ensures Suffix(done + [s]) + more == "." + key + tail && |Suffix(done + [s])| <= |key| + 1
  {
    SegmentMarks(s);
    SuffixJoin(done, [s]);
    SuffixOfOne(s);
    Regroup(Suffix(done), Segment(s), more);
    StepEnds("." + key, tail, Suffix(done), Segment(s), more);
  }

  lemma StepEnds(word: string, tail: string, head: string, segment: string, more: string)
    requires tail == "" || IsMark(tail[0])
    requires |head| < |word| && head + (segment + more) == word + tail
    requires forall i :: 1 <= i < |segment| ==> !IsMark(segment[i])
    ensures |head| + |segment| <= |word|
  {
    var i := |word| - |head|;
    assert (segment + more)[..|segment|] == segment;
    assert (head + (segment + more))[|head|..] == segment + more;
    assert (word + tail)[|word|..] == tail;
    InFirst(segment, more, i);
  }

  lemma MeetsItself(key: string, tail: string, done: seq<Step>, more: string) returns (r: seq<Step>)
    requires tail == "" || IsMark(tail[0])
    requires GoodPath(done) && done != [] && done[0].Key? && |Suffix(done)| <= |key|
    requires Suffix(done) + ("." + key + more) == "." + key + tail
    ensures GoodPath(r) && r != [] && r[0].Key? && Suffix(r) == "." + key
  {
    var word, head := "." + key, Suffix(done);
    var text := word + tail;
    var n := |word| - |head|;
    assert text == head + (word + more);
    assert word == text[..|word|] == head + word[..n];
    assert n < |word|;
    assert text[|word|] == word[n] == tail[0];
    var rest := Overlapping(word, done, n, n);
    r := done + rest;
    SuffixJoin(done, rest);
  }

  /** Where one reading shows the key and the other a good key, the key reads as a path. */
  lemma KeyAgainstGood(key: string, p: seq<Step>, good: string, q: seq<Step>)
    requires key != "" && !GoodKey(key) && GoodKey(good) && GoodOr(q, key)
    requires "." + key + Suffix(p) == "." + good + Suffix(q)
    ensures ReadsAsPath(key)
  {
    var done := [Key(good)];
    SuffixStartsWithMark(p);
    SuffixOfOne(done[0]);
    SegmentMarks(done[0]);
    assert "" + (Segment(done[0]) + Suffix(q)) == "." + key + Suffix(p);
    StepEnds("." + key, Suffix(p), "", Segment(done[0]), Suffix(q));
    var r := SecondReading(key, Suffix(p), done, q);
    TopText(r);
    assert ("." + key)[1..] == key;
  }

  lemma {:induction false} SuffixInjectiveWith(p: seq<Step>, q: seq<Step>, key: string)
    requires GoodOr(p, key) && GoodOr(q, key) && Suffix(p) == Suffix(q)
    requires key != "" && !GoodKey(key) && !ReadsAsPath(key)
    ensures p == q
    decreases p
  {
    BothEmpty(p, q);
    if |p| > 0 {
      SameFirstStep(p, q, key);
      SuffixInjectiveWith(p[1..], q[1..], key);
      SameSteps(p, q);
    }
  }

  lemma BothEmpty(p: seq<Step>, q: seq<Step>)
    requires Suffix(p) == Suffix(q)
    ensures |p| == 0 <==> |q| == 0
    ensures |p| == 0 ==> p == q
  {
    SuffixStartsWithMark(p);
    SuffixStartsWithMark(q);
  }

  lemma SameSteps<T>(p: seq<T>, q: seq<T>)
    requires p != [] && q != [] && p[0] == q[0] && p[1..] == q[1..]
    ensures p == q
  {
    assert p == [p[0]] + p[1..] && q == [q[0]] + q[1..];
  }

  lemma SameFirstStep(p: seq<Step>, q: seq<Step>, key: string)
    requires GoodOr(p, key) && GoodOr(q, key) && Suffix(p) == Suffix(q) && p != [] && q != []
    requires key != "" && !GoodKey(key) && !ReadsAsPath(key)
    ensures p[0] == q[0] && Suffix(p[1..]) == Suffix(q[1..])
  {
    SuffixStartsWithMark(p[1..]);
    SuffixStartsWithMark(q[1..]);
    assert Suffix(p)[0] == Suffix(q)[0];
    if p[0].Index? {
      SameIndexSegment(p[0].i, Suffix(p[1..]), q[0].i, Suffix(q[1..]));
    } else if p[0] == q[0] {
      SamePrefix(Segment(p[0]), Suffix(p[1..]), Segment(q[0]), Suffix(q[1..]));
    } else if p[0].k == key {
      KeyAgainstGood(key, p[1..], q[0].k, q[1..]);
    } else if q[0].k == key {
      KeyAgainstGood(key, q[1..], p[0].k, p[1..]);
    } else {
      SameKeySegment(p[0].k, Suffix(p[1..]), q[0].k, Suffix(q[1..]));
    }
  }

  // ------------------------------------------------------- paths and documents

  predicate OpensLikeIndex(key: string) {
    key != "" && key[0] == '['
  }

  /** The paths of documents with good keys and this one, below an object when the key begins like an index. */
  predicate PathWith(path: seq<Step>, key: string) {
    GoodOr(path, key) && (path != [] && path[0].Index? ==> !OpensLikeIndex(key))
  }

  lemma TextOpens(path: seq<Step>, key: string)
    requires PathWith(path, key) && key != "" && path != []
    ensures PathText("", path) != ""
    ensures path[0].Index? ==> PathText("", path)[0] == '[' && PathText("", path) == Suffix(path)
    ensures path[0].Key? ==> PathText("", path)[0] == path[0].k[0] && Suffix(path) == "." + PathText("", path)
  {
    TopText(path);
    if path[0].Key? {
      assert Suffix(path)[0] == '.' && Suffix(path)[1] == path[0].k[0];
      assert Suffix(path) == "." + Suffix(path)[1..];
    }
  }

  lemma PathTextInjectiveWith(p: seq<Step>, q: seq<Step>, key: string)
    requires PathWith(p, key) && PathWith(q, key) && PathText("", p) == PathText("", q)
    requires key != "" && !GoodKey(key) && !ReadsAsPath(key)
    ensures p == q
  {
    if p != [] {
      TextOpens(p, key);
    }
    if q != [] {
      TextOpens(q, key);
    }
    if p != [] && q != [] {
      assert p[0].Key? <==> q[0].Key?;
      SuffixInjectiveWith(p, q, key);
    }
  }

  /** Every key, at any depth, is good or this one. */
  predicate KeysWith(v: Json, key: string) {
    match v
    case JList(items) => forall x :: x in items ==> KeysWith(x, key)
    case JObj(fields) => forall k :: k in fields ==> (k == key || GoodKey(k)) && KeysWith(fields[k], key)
    case _ => true
  }

  /** A list is no document for a key that begins like an index. */
  predicate GoodWith(v: Json, key: string) {
    KeysWith(v, key) && (v.JList? ==> !OpensLikeIndex(key))
  }

  lemma {:induction false} DocumentPathsWith(v: Json, path: seq<Step>, key: string)
    requires KeysWith(v, key) && LeafAt(v, path).Some?
    ensures GoodOr(path, key)
    decreases path
  {
    if path != [] {
      var child := if v.JList? then v.items[path[0].i] else v.fields[path[0].k];
      DocumentPathsWith(child, path[1..], key);
      assert path == [path[0]] + path[1..];
    }
  }

  lemma HarmlessKey(key: string, a: Json, b: Json, flat: map<string, Json>)
    requires key != "" && !GoodKey(key) && !ReadsAsPath(key) && GoodWith(a, key) && GoodWith(b, key)
    requires FlatViewOf(a, flat) && FlatViewOf(b, flat)
    ensures a == b
  {
    var paths := path => PathWith(path, key);
    forall p, q | paths(p) && paths(q) && PathText("", p) == PathText("", q) ensures p == q {
      PathTextInjectiveWith(p, q, key);
    }
    forall v, path | v in {a, b} && LeafAt(v, path).Some? ensures paths(path) {
      DocumentPathsWith(v, path, key);
    }
    SameViewSameDocument(paths, a, b, flat);
  }

  // ---------------------------------------------------- a key that does harm

  /** A document with a leaf at the path; lists are filled up with nulls. */
  function Along(path: seq<Step>): Json
    decreases path
  {
    if path == [] then JNull
    else if path[0].Key? then JObj(map[path[0].k := Along(path[1..])])
    else JList(seq(path[0].i, _ => JNull) + [Along(path[1..])])
  }

  lemma {:induction false} AlongHasLeaf(path: seq<Step>)
    requires GoodPath(path)
    ensures LeafAt(Along(path), path) == Some(JNull) && Good(Along(path))
    decreases path
  {
    if path != [] {
      AlongHasLeaf(path[1..]);
      var v, child := Along(path), Along(path[1..]);
      if path[0].Key? {
        assert path[0].k in v.fields && v.fields[path[0].k] == child;
      } else {
        assert |v.items| == path[0].i + 1 && v.items[path[0].i] == child;
        assert forall x :: x in v.items ==> x == JNull || x == child;
      }
    }
  }

  /** A key with the text of a path adds nothing to the view when it holds what the path leads to. */
  lemma SecondCopyHides(v: Json, r: seq<Step>, key: string)
    requires v.JObj? && key !in v.fields && key != "" && LeafAt(v, r).Some? && PathText("", r) == key
    ensures Leaves(JObj(v.fields[key := LeafAt(v, r).value]), "") == Leaves(v, "")
  {
    var leaf := LeafAt(v, r).value;
    var w := JObj(v.fields[key := leaf]);
    PathHasEntry(v, "", r);
    LeafIsLeaf(v, r);
    assert w.fields.Keys == v.fields.Keys + {key};
    FieldLeavesGrow(w, "", v.fields.Keys, key);
    assert FieldLeaves(w, "", v.fields.Keys) == FieldLeaves(v, "", v.fields.Keys);
  }

  lemma {:induction false} LeafIsLeaf(v: Json, path: seq<Step>)
    requires LeafAt(v, path).Some?
    ensures IsLeaf(LeafAt(v, path).value)
    decreases path
  {
    if path != [] {
      LeafIsLeaf(if v.JList? then v.items[path[0].i] else v.fields[path[0].k], path[1..]);
    }
  }

  lemma ViewExists(v: Json) returns (flat: map<string, Json>)
    ensures FlatViewOf(v, flat)
  {
    var entries := Leaves(v, "");
    flat := map s | s in Names(entries) :: (var e: Entry :| e in entries && e.0 == s; e.1);
    forall s | s in Names(entries) ensures (s, flat[s]) in entries {
      var e: Entry :| e in entries && e.0 == s;
    }
  }

  lemma GoodIsGoodWith(v: Json, key: string)
    requires Good(v)
    ensures KeysWith(v, key)
  {
  }

  /** Two documents with one view, for a key that is empty or reads as a path. */
  lemma HarmfulKey(key: string) returns (a: Json, b: Json, flat: map<string, Json>)
    requires !GoodKey(key) && (key == "" || ReadsAsPath(key))
    ensures GoodWith(a, key) && GoodWith(b, key) && FlatViewOf(a, flat) && FlatViewOf(b, flat) && a != b
  {
    if key == "" {
      a := JObj(map[]);
      b := JObj(map["" := a]);
      EmptyKeyVanishes(a);
    } else {
      var r: seq<Step> :| GoodPath(r) && r != [] && r[0].Key? && PathText("", r) == key;
      a := Along(r);
      AlongHasLeaf(r);
      GoodIsGoodWith(a, key);
      b := JObj(a.fields[key := JNull]);
      SecondCopyHides(a, r, key);
      assert key in b.fields && key !in a.fields;
    }
    flat := ViewExists(a);
  }

  /**
   * The exact condition for one more key beside good ones. Documents with such keys are told apart by their
   * views exactly when the key is not empty and is not the text of a good path (dots and indexes between good
   * keys); a list at the top is left out for a key that begins with `[`.
   */
  lemma OneMoreKeyExactly(key: string)
    requires !GoodKey(key)
    ensures (forall a, b, flat :: GoodWith(a, key) && GoodWith(b, key) && FlatViewOf(a, flat) && FlatViewOf(b, flat) ==>
               a == b)
       <==> key != "" && !ReadsAsPath(key)
  {
    if key == "" || ReadsAsPath(key) {
      var a, b, flat := HarmfulKey(key);
    } else {
      forall a, b, flat | GoodWith(a, key) && GoodWith(b, key) && FlatViewOf(a, flat) && FlatViewOf(b, flat)
        ensures a == b
      {
        HarmlessKey(key, a, b, flat);
      }
    }
  }
}

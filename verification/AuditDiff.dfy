/** Flattening and diffing JSON documents for audit rows (backend/app/services/audit_service.py). */
module AuditDiff {
  import opened Prelude
  import Decimal

  // Integers and floats are one kind of number here: Python compares them by value.
  datatype Json =
    | JNull
    | JBool(b: bool)
    | JNum(x: real)
    | JStr(s: string)
    | JList(items: seq<Json>)
    | JObj(fields: map<string, Json>)

  /** Python equality of documents is equality of these: `True == 1` and `False == 0`. */
  function Plain(v: Json): Json {
    match v
    case JBool(b) => JNum(if b then 1.0 else 0.0)
    case JList(items) => JList(seq(|items|, i requires 0 <= i < |items| => Plain(items[i])))
    case JObj(fields) => JObj(map k | k in fields :: Plain(fields[k]))
    case _ => v
  }

  /** Python's `==`, case by case: numbers and booleans by value, everything else by shape and content. */
  predicate PyEqual(a: Json, b: Json)
    decreases a
  {
    match (a, b)
    case (JNull, JNull) => true
    case (JNum(x), JNum(y)) => x == y
    case (JBool(x), JBool(y)) => x == y
    case (JBool(x), JNum(y)) => y == if x then 1.0 else 0.0
    case (JNum(x), JBool(y)) => x == if y then 1.0 else 0.0
    case (JStr(s), JStr(t)) => s == t
    case (JList(xs), JList(ys)) => |xs| == |ys| && forall i :: 0 <= i < |xs| ==> PyEqual(xs[i], ys[i])
    case (JObj(m), JObj(n)) => m.Keys == n.Keys && forall k :: k in m ==> PyEqual(m[k], n[k])
    case _ => false
  }

  lemma {:induction false} PlainIsPyEqual(a: Json, b: Json)
    ensures Plain(a) == Plain(b) <==> PyEqual(a, b)
    decreases a
  {
    if a.JList? && b.JList? {
      PlainLists(a, b);
    } else if a.JObj? && b.JObj? {
      PlainObjects(a, b);
    }
  }

  lemma {:induction false} PlainLists(a: Json, b: Json)
    requires a.JList? && b.JList?
    ensures Plain(a) == Plain(b) <==> PyEqual(a, b)
    decreases a, 0
  {
    var xs, ys := Plain(a).items, Plain(b).items;
    forall i | 0 <= i < |a.items| && |a.items| == |b.items|
      ensures xs[i] == ys[i] <==> PyEqual(a.items[i], b.items[i])
    {
      PlainIsPyEqual(a.items[i], b.items[i]);
    }
  }

  lemma {:induction false} PlainObjects(a: Json, b: Json)
    requires a.JObj? && b.JObj?
    ensures Plain(a) == Plain(b) <==> PyEqual(a, b)
    decreases a, 0
  {
    var m, n := Plain(a).fields, Plain(b).fields;
    assert m.Keys == a.fields.Keys && n.Keys == b.fields.Keys;
    forall k | k in a.fields && k in b.fields ensures m[k] == n[k] <==> PyEqual(a.fields[k], b.fields[k]) {
      PlainIsPyEqual(a.fields[k], b.fields[k]);
    }
    if PyEqual(a, b) {
      assert m == n;
    }
  }

  /** A document without booleans, which compare equal to numbers. */
  predicate NoBooleans(v: Json) {
    match v
    case JBool(_) => false
    case JList(items) => forall x :: x in items ==> NoBooleans(x)
    case JObj(fields) => forall k :: k in fields ==> NoBooleans(fields[k])
    case _ => true
  }

  lemma {:induction false} NoBooleanLeaf(v: Json, path: seq<Step>)
    requires NoBooleans(v) && LeafAt(v, path).Some?
    ensures !LeafAt(v, path).value.JBool?
    decreases path
  {
    if path != [] {
      NoBooleanLeaf(if v.JList? then v.items[path[0].i] else v.fields[path[0].k], path[1..]);
    }
  }

  /** A document that does not count as free of booleans has one. */
  lemma {:induction false} BooleanLeaf(v: Json) returns (path: seq<Step>)
    requires !NoBooleans(v)
    ensures LeafAt(v, path).Some? && LeafAt(v, path).value.JBool?
    decreases v
  {
    path := [];
    if v.JList? {
      var i :| 0 <= i < |v.items| && !NoBooleans(v.items[i]);
      path := BooleanLeaf(v.items[i]);
      path := [Index(i)] + path;
    } else if v.JObj? {
      var k :| k in v.fields && !NoBooleans(v.fields[k]);
      path := BooleanLeaf(v.fields[k]);
      path := [Key(k)] + path;
    }
  }

  /** Python's equality is identity of documents that hold no booleans. */
  lemma {:induction false} EqualIsSame(a: Json, b: Json)
    requires NoBooleans(a) && NoBooleans(b)
    ensures PyEqual(a, b) <==> a == b
    decreases a
  {
    if a.JList? && b.JList? && |a.items| == |b.items| {
      forall i | 0 <= i < |a.items| ensures PyEqual(a.items[i], b.items[i]) <==> a.items[i] == b.items[i] {
        EqualIsSame(a.items[i], b.items[i]);
      }
    } else if a.JObj? && b.JObj? && a.fields.Keys == b.fields.Keys {
      forall k | k in a.fields ensures PyEqual(a.fields[k], b.fields[k]) <==> a.fields[k] == b.fields[k] {
        EqualIsSame(a.fields[k], b.fields[k]);
      }
      assert a.fields == b.fields <==> forall k :: k in a.fields ==> a.fields[k] == b.fields[k];
    }
  }

  predicate IsLeaf(v: Json) {
    match v
    case JList(items) => items == []
    case JObj(fields) => fields == map[]
    case _ => true
  }

  // ------------------------------------------------------------------ paths

  datatype Step = Key(k: string) | Index(i: nat)

  /** The text of a child's path. */
  function Child(prefix: string, step: Step): string {
    match step
    case Key(k) => if prefix != "" then prefix + "." + k else k
    case Index(i) => prefix + "[" + Decimal.Digits(i) + "]"
  }

  function PathText(prefix: string, path: seq<Step>): string
    decreases path
  {
    if path == [] then prefix else PathText(Child(prefix, path[0]), path[1..])
  }

  /** The leaf a path leads to. */
  function LeafAt(v: Json, path: seq<Step>): Option<Json>
    decreases path
  {
    if IsLeaf(v) then (if path == [] then Some(v) else None)
    else if path == [] then None
    else
      match v
      case JList(items) =>
        if path[0].Index? && path[0].i < |items| then LeafAt(items[path[0].i], path[1..]) else None
      case JObj(fields) =>
        if path[0].Key? && path[0].k in fields then LeafAt(fields[path[0].k], path[1..]) else None
      case _ => None
  }

  // ------------------------------------------------------------- flattening

  type Entry = (string, Json)

  /** Every leaf of the document with the text of its path. */
  ghost function Leaves(v: Json, prefix: string): set<Entry>
    decreases v, 1
  {
    if IsLeaf(v) then {(prefix, v)}
    else if v.JList? then ItemLeaves(v, prefix, |v.items|)
    else FieldLeaves(v, prefix, v.fields.Keys)
  }

  ghost function ItemLeaves(v: Json, prefix: string, n: nat): set<Entry>
    requires v.JList? && n <= |v.items|
    decreases v, 0
  {
    set i, e | 0 <= i < n && e in Leaves(v.items[i], Child(prefix, Index(i))) :: e
  }

  ghost function FieldLeaves(v: Json, prefix: string, keys: set<string>): set<Entry>
    requires v.JObj? && keys <= v.fields.Keys
    decreases v, 0
  {
    set k, e | k in keys && e in Leaves(v.fields[k], Child(prefix, Key(k))) :: e
  }

  ghost function Names(entries: set<Entry>): set<string> {
    set e | e in entries :: e.0
  }

  /** `after` is `before` with the entries written over it in some order. */
  ghost predicate Written(entries: set<Entry>, before: map<string, Json>, after: map<string, Json>) {
    && after.Keys == before.Keys + Names(entries)
    && (forall s :: s in Names(entries) ==> (s, after[s]) in entries)
    && (forall s :: s in before && s !in Names(entries) ==> after[s] == before[s])
  }

  lemma WrittenTwice(e1: set<Entry>, e2: set<Entry>, a: map<string, Json>, b: map<string, Json>, c: map<string, Json>)
    requires Written(e1, a, b) && Written(e2, b, c)
    ensures Written(e1 + e2, a, c)
  {
    assert Names(e1 + e2) == Names(e1) + Names(e2);
  }

  /** The dictionary that the flattener writes into. */
  class PathMap {
    var entries: map<string, Json>

    constructor ()
      ensures entries == map[]
    {
      entries := map[];
    }

    method Put(path: string, leaf: Json)
      modifies this
      ensures entries == old(entries)[path := leaf]
    {
      entries := entries[path := leaf];
    }
  }

  method Flatten(value: Json, prefix: string, out: PathMap)
    modifies out
    ensures Written(Leaves(value, prefix), old(out.entries), out.entries)
    decreases value, 1
  {
    if IsLeaf(value) {
      out.Put(prefix, value);
      assert Names({(prefix, value)}) == {prefix};
    } else if value.JObj? {
      FlattenFields(value, prefix, out);
    } else {
      FlattenItems(value, prefix, out);
    }
  }

  /** A dictionary's items; every iteration order is allowed. */
  method FlattenFields(value: Json, prefix: string, out: PathMap)
    requires value.JObj?
    modifies out
    ensures Written(FieldLeaves(value, prefix, value.fields.Keys), old(out.entries), out.entries)
    decreases value, 0
  {
    var todo := value.fields.Keys;
    ghost var start := out.entries;
    ghost var done := {};
    while todo != {}
      invariant todo + done == value.fields.Keys
      invariant Written(FieldLeaves(value, prefix, done), start, out.entries)
      decreases |todo|
    {
      var key :| key in todo;
      ghost var before := out.entries;
      Flatten(value.fields[key], Child(prefix, Key(key)), out);
      OneMoreField(value, prefix, done, key, start, before, out.entries);
      todo, done := todo - {key}, done + {key};
    }
  }

  method FlattenItems(value: Json, prefix: string, out: PathMap)
    requires value.JList?
    modifies out
    ensures Written(ItemLeaves(value, prefix, |value.items|), old(out.entries), out.entries)
    decreases value, 0
  {
    ghost var start := out.entries;
    for index := 0 to |value.items|
      invariant Written(ItemLeaves(value, prefix, index), start, out.entries)
    {
      ghost var before := out.entries;
      Flatten(value.items[index], Child(prefix, Index(index)), out);
      OneMoreItem(value, prefix, index, start, before, out.entries);
    }
  }

  lemma OneMoreField(v: Json, prefix: string, done: set<string>, k: string,
                     a: map<string, Json>, b: map<string, Json>, c: map<string, Json>)
    requires v.JObj? && done <= v.fields.Keys && k in v.fields
    requires Written(FieldLeaves(v, prefix, done), a, b)
    requires Written(Leaves(v.fields[k], Child(prefix, Key(k))), b, c)
    ensures Written(FieldLeaves(v, prefix, done + {k}), a, c)
  {
    WrittenTwice(FieldLeaves(v, prefix, done), Leaves(v.fields[k], Child(prefix, Key(k))), a, b, c);
    FieldLeavesGrow(v, prefix, done, k);
  }

  lemma FieldLeavesGrow(v: Json, prefix: string, done: set<string>, k: string)
    requires v.JObj? && done <= v.fields.Keys && k in v.fields
    ensures FieldLeaves(v, prefix, done + {k})
         == FieldLeaves(v, prefix, done) + Leaves(v.fields[k], Child(prefix, Key(k)))
  {
  }

  lemma OneMoreItem(v: Json, prefix: string, n: nat,
                    a: map<string, Json>, b: map<string, Json>, c: map<string, Json>)
    requires v.JList? && n < |v.items|
    requires Written(ItemLeaves(v, prefix, n), a, b)
    requires Written(Leaves(v.items[n], Child(prefix, Index(n))), b, c)
    ensures Written(ItemLeaves(v, prefix, n + 1), a, c)
  {
    WrittenTwice(ItemLeaves(v, prefix, n), Leaves(v.items[n], Child(prefix, Index(n))), a, b, c);
    ItemLeavesGrow(v, prefix, n);
  }

  lemma ItemLeavesGrow(v: Json, prefix: string, n: nat)
    requires v.JList? && n < |v.items|
    ensures ItemLeaves(v, prefix, n + 1) == ItemLeaves(v, prefix, n) + Leaves(v.items[n], Child(prefix, Index(n)))
  {
  }

  method FlattenJson(value: Json) returns (flat: map<string, Json>)
    ensures Written(Leaves(value, ""), map[], flat)
  {
    var out := new PathMap();
    Flatten(value, "", out);
    flat := out.entries;
  }

  // ----------------------------------------------- leaves and paths agree

  lemma {:induction false} EntryHasPath(v: Json, prefix: string, e: Entry) returns (path: seq<Step>)
    requires e in Leaves(v, prefix)
    ensures LeafAt(v, path) == Some(e.1) && PathText(prefix, path) == e.0
    decreases v
  {
    if IsLeaf(v) {
      path := [];
    } else if v.JList? {
      var i :| 0 <= i < |v.items| && e in Leaves(v.items[i], Child(prefix, Index(i)));
      var rest := EntryHasPath(v.items[i], Child(prefix, Index(i)), e);
      path := [Index(i)] + rest;
    } else {
      var k :| k in v.fields && e in Leaves(v.fields[k], Child(prefix, Key(k)));
      var rest := EntryHasPath(v.fields[k], Child(prefix, Key(k)), e);
      path := [Key(k)] + rest;
    }
  }

  lemma {:induction false} PathHasEntry(v: Json, prefix: string, path: seq<Step>)
    requires LeafAt(v, path).Some?
    ensures (PathText(prefix, path), LeafAt(v, path).value) in Leaves(v, prefix)
    decreases path
  {
    if path != [] {
      var child := if v.JList? then v.items[path[0].i] else v.fields[path[0].k];
      PathHasEntry(child, Child(prefix, path[0]), path[1..]);
    }
  }

  // ------------------------------------------------ documents with good keys

  predicate IsMark(c: char) { c == '.' || c == '[' }

  predicate GoodKey(k: string) {
    k != "" && forall i :: 0 <= i < |k| ==> !IsMark(k[i])
  }

  lemma GoodKeyExactly(k: string)
    ensures GoodKey(k) <==> k != "" && '.' !in k && '[' !in k
  {
  }

  /** Every key, at any depth, is non-empty and free of `.` and `[`. */
  predicate Good(v: Json) {
    match v
    case JList(items) => forall x :: x in items ==> Good(x)
    case JObj(fields) => forall k :: k in fields ==> GoodKey(k) && Good(fields[k])
    case _ => true
  }

  predicate GoodPath(path: seq<Step>) {
    forall i :: 0 <= i < |path| && path[i].Key? ==> GoodKey(path[i].k)
  }

  lemma {:induction false} GoodDocumentPaths(v: Json, path: seq<Step>)
    requires Good(v) && LeafAt(v, path).Some?
    ensures GoodPath(path)
    decreases path
  {
    if path != [] {
      var child := if v.JList? then v.items[path[0].i] else v.fields[path[0].k];
      GoodDocumentPaths(child, path[1..]);
      assert path == [path[0]] + path[1..];
    }
  }

  function Segment(s: Step): string {
    if s.Key? then "." + s.k else "[" + Decimal.Digits(s.i) + "]"
  }

  /** What a path adds to a non-empty prefix. */
  function Suffix(path: seq<Step>): string {
    if path == [] then "" else Segment(path[0]) + Suffix(path[1..])
  }

  lemma ChildText(prefix: string, s: Step, rest: string)
    requires prefix != ""
    ensures Child(prefix, s) + rest
         == prefix + (Segment(s) + rest)
  {
    assert Child(prefix, s) == prefix + Segment(s);
  }

  lemma {:induction false} TextAfterPrefix(prefix: string, path: seq<Step>)
    requires prefix != ""
    ensures PathText(prefix, path) == prefix + Suffix(path)
    decreases path
  {
    if path == [] {
      assert prefix + Suffix(path) == prefix;
    } else {
      TextAfterPrefix(Child(prefix, path[0]), path[1..]);
      ChildText(prefix, path[0], Suffix(path[1..]));
    }
  }

  /** A stretch without `stop` marks ends where the first mark stands. */
  lemma CutAtMark(a: string, x: string, b: string, y: string, stop: char -> bool)
    requires forall i :: 0 <= i < |a| ==> !stop(a[i])
    requires forall i :: 0 <= i < |b| ==> !stop(b[i])
    requires x == "" || stop(x[0])
    requires y == "" || stop(y[0])
    requires a + x == b + y
    ensures a == b && x == y
  {
    var s := a + x;
    assert forall i :: 0 <= i < |a| ==> !stop(s[i]) && s[i] == a[i];
    assert forall i :: 0 <= i < |b| ==> !stop(s[i]) && s[i] == b[i];
    assert |a| < |s| ==> s[|a|] == x[0];
    assert |b| < |s| ==> s[|b|] == y[0];
    assert a == (a + x)[..|a|] && b == (b + y)[..|b|];
    assert x == (a + x)[|a|..] && y == (b + y)[|b|..];
  }

  lemma SuffixStartsWithMark(path: seq<Step>)
    ensures Suffix(path) == "" || IsMark(Suffix(path)[0])
    ensures Suffix(path) == "" <==> path == []
  {
  }

  lemma AfterBracket(digits: string, x: string)
    ensures ("[" + digits + "]" + x)[1..] == digits + ("]" + x)
  {
  }

  lemma SameIndexSegment(i: nat, x: string, j: nat, y: string)
    requires "[" + Decimal.Digits(i) + "]" + x == "[" + Decimal.Digits(j) + "]" + y
    ensures i == j && x == y
  {
    AfterBracket(Decimal.Digits(i), x);
    AfterBracket(Decimal.Digits(j), y);
    CutAtMark(Decimal.Digits(i), "]" + x, Decimal.Digits(j), "]" + y, c => c == ']');
    Decimal.DigitsInjective(i, j);
    assert ("]" + x)[1..] == x && ("]" + y)[1..] == y;
  }

  lemma SameKeySegment(k: string, x: string, l: string, y: string)
    requires GoodKey(k) && GoodKey(l)
    requires x == "" || IsMark(x[0])
    requires y == "" || IsMark(y[0])
    requires "." + k + x == "." + l + y
    ensures k == l && x == y
  {
    assert ("." + k + x)[1..] == k + x && ("." + l + y)[1..] == l + y;
    CutAtMark(k, x, l, y, IsMark);
  }

  lemma {:induction false} SuffixInjective(p: seq<Step>, q: seq<Step>)
    requires GoodPath(p) && GoodPath(q) && Suffix(p) == Suffix(q)
    ensures p == q
    decreases p
  {
    SuffixStartsWithMark(p);
    SuffixStartsWithMark(q);
    if p != [] {
      SuffixStartsWithMark(p[1..]);
      SuffixStartsWithMark(q[1..]);
      assert Suffix(p)[0] == Suffix(q)[0];
      if p[0].Key? {
        SameKeySegment(p[0].k, Suffix(p[1..]), q[0].k, Suffix(q[1..]));
      } else {
        SameIndexSegment(p[0].i, Suffix(p[1..]), q[0].i, Suffix(q[1..]));
      }
      SuffixInjective(p[1..], q[1..]);
      assert p == [p[0]] + p[1..] && q == [q[0]] + q[1..];
    }
  }

  lemma TopSegment(s: Step, rest: string)
    requires s.Key? ==> s.k != ""
    ensures Child("", s) + rest == if s.Key? then (Segment(s) + rest)[1..] else Segment(s) + rest
  {
    if s.Key? {
      assert (Segment(s) + rest)[1..] == s.k + rest;
    } else {
      assert Child("", s) == Segment(s);
    }
  }

  /** A top-level text is its first segment without the dot, then the rest. */
  lemma TopText(path: seq<Step>)
    requires path != [] && (path[0].Key? ==> path[0].k != "")
    ensures PathText("", path) == (if path[0].Key? then Suffix(path)[1..] else Suffix(path))
  {
    TextAfterPrefix(Child("", path[0]), path[1..]);
    TopSegment(path[0], Suffix(path[1..]));
  }

  /** Distinct good paths have distinct texts. */
  lemma PathTextInjective(p: seq<Step>, q: seq<Step>)
    requires GoodPath(p) && GoodPath(q) && PathText("", p) == PathText("", q)
    ensures p == q
  {
    if p != [] {
      TopText(p);
      assert PathText("", p) != "";
    }
    if q != [] {
      TopText(q);
      assert PathText("", q) != "";
    }
    if p != [] && q != [] {
      assert PathText("", p)[0] == '[' <==> p[0].Index?;
      assert PathText("", q)[0] == '[' <==> q[0].Index?;
      if p[0].Key? {
        assert Suffix(p) == "." + Suffix(p)[1..] && Suffix(q) == "." + Suffix(q)[1..];
      }
      SuffixInjective(p, q);
    }
  }

  /** On good keys no write lands on an earlier one: different leaves get different texts. */
  lemma NothingOverwritten(v: Json, p: seq<Step>, q: seq<Step>)
    requires Good(v) && LeafAt(v, p).Some? && LeafAt(v, q).Some? && p != q
    ensures PathText("", p) != PathText("", q)
  {
    GoodDocumentPaths(v, p);
    GoodDocumentPaths(v, q);
    if PathText("", p) == PathText("", q) {
      PathTextInjective(p, q);
    }
  }

  /** No two of these paths have one text. */
  ghost predicate Unambiguous(paths: seq<Step> -> bool) {
    forall p, q :: paths(p) && paths(q) && PathText("", p) == PathText("", q) ==> p == q
  }

  /** All leaves of the document are at these paths. */
  ghost predicate Within(v: Json, paths: seq<Step> -> bool) {
    forall path :: LeafAt(v, path).Some? ==> paths(path)
  }

  /** The flattened view of a document with unambiguous paths: every leaf, under its own path. */
  lemma ViewHoldsEveryLeaf(paths: seq<Step> -> bool, v: Json, flat: map<string, Json>, path: seq<Step>)
    requires Unambiguous(paths) && Within(v, paths) && Written(Leaves(v, ""), map[], flat) && paths(path)
    ensures LeafAt(v, path) == (if PathText("", path) in flat then Some(flat[PathText("", path)]) else None)
  {
    var s := PathText("", path);
    if LeafAt(v, path).Some? {
      PathHasEntry(v, "", path);
      assert s in Names(Leaves(v, ""));
    }
    if s in flat {
      var q := EntryHasPath(v, "", (s, flat[s]));
      assert paths(q);
    }
  }

  lemma GoodPathsUnambiguous()
    ensures Unambiguous(GoodPath)
  {
    forall p, q | GoodPath(p) && GoodPath(q) && PathText("", p) == PathText("", q) ensures p == q {
      PathTextInjective(p, q);
    }
  }

  lemma GoodPathsWithin(v: Json)
    requires Good(v)
    ensures Within(v, GoodPath)
  {
    forall path | LeafAt(v, path).Some? ensures GoodPath(path) {
      GoodDocumentPaths(v, path);
    }
  }

  /** The flattened view of a document with good keys. */
  lemma FlatHoldsEveryLeaf(v: Json, flat: map<string, Json>, path: seq<Step>)
    requires Good(v) && Written(Leaves(v, ""), map[], flat) && GoodPath(path)
    ensures LeafAt(v, path) == (if PathText("", path) in flat then Some(flat[PathText("", path)]) else None)
  {
    GoodPathsUnambiguous();
    GoodPathsWithin(v);
    ViewHoldsEveryLeaf(GoodPath, v, flat, path);
  }

  // ------------------------------------------------------- injectivity

  lemma {:induction false} HasLeaf(v: Json) returns (path: seq<Step>)
    ensures LeafAt(v, path).Some?
  {
    if IsLeaf(v) {
      path := [];
    } else if v.JList? {
      path := HasLeaf(v.items[0]);
      path := [Index(0)] + path;
    } else {
      var k :| k in v.fields;
      path := HasLeaf(v.fields[k]);
      path := [Key(k)] + path;
    }
  }

  /** A document is determined by its leaves. */
  lemma {:induction false} SameLeavesSameDocument(a: Json, b: Json)
    requires forall path :: LeafAt(a, path) == LeafAt(b, path)
    ensures a == b
    decreases a
  {
    if IsLeaf(a) || IsLeaf(b) {
      assert LeafAt(a, []) == LeafAt(b, []);
    } else {
      SameShape(a, b);
      SameShape(b, a);
      if a.JList? {
        forall i | 0 <= i < |a.items| ensures a.items[i] == b.items[i] {
          SameChild(a, b, Index(i), a.items[i], b.items[i]);
          SameLeavesSameDocument(a.items[i], b.items[i]);
        }
      } else {
        assert a.fields.Keys == b.fields.Keys;
        forall k | k in a.fields ensures a.fields[k] == b.fields[k] {
          SameChild(a, b, Key(k), a.fields[k], b.fields[k]);
          SameLeavesSameDocument(a.fields[k], b.fields[k]);
        }
      }
    }
  }

  lemma SameChild(a: Json, b: Json, step: Step, x: Json, y: Json)
    requires forall path :: LeafAt(a, path) == LeafAt(b, path)
    requires forall path :: LeafAt(a, [step] + path) == LeafAt(x, path)
    requires forall path :: LeafAt(b, [step] + path) == LeafAt(y, path)
    ensures forall path :: LeafAt(x, path) == LeafAt(y, path)
  {
    forall path ensures LeafAt(x, path) == LeafAt(y, path) {
      assert LeafAt(a, [step] + path) == LeafAt(b, [step] + path);
    }
  }

  lemma SameShape(a: Json, b: Json)
    requires forall path :: LeafAt(a, path) == LeafAt(b, path)
    requires !IsLeaf(a) && !IsLeaf(b)
    ensures a.JList? ==> b.JList? && |a.items| <= |b.items|
    ensures a.JObj? ==> b.JObj? && a.fields.Keys <= b.fields.Keys
  {
    if a.JList? {
      var i := |a.items| - 1;
      var p := HasLeaf(a.items[i]);
      assert LeafAt(a, [Index(i)] + p) == LeafAt(a.items[i], p);
      assert LeafAt(b, [Index(i)] + p).Some?;
    } else {
      forall k | k in a.fields ensures b.JObj? && k in b.fields {
        var p := HasLeaf(a.fields[k]);
        assert LeafAt(a, [Key(k)] + p) == LeafAt(a.fields[k], p);
        assert LeafAt(b, [Key(k)] + p).Some?;
      }
      var k :| k in a.fields;
    }
  }

  /** Two documents with good keys that flatten alike are one document. */
  lemma FlattenInjective(a: Json, b: Json, flat: map<string, Json>)
    requires Good(a) && Good(b)
    requires Written(Leaves(a, ""), map[], flat) && Written(Leaves(b, ""), map[], flat)
    ensures a == b
  {
    GoodPathsUnambiguous();
    GoodPathsWithin(a);
    GoodPathsWithin(b);
    SameViewSameDocument(GoodPath, a, b, flat);
  }

  lemma SameViewSameDocument(paths: seq<Step> -> bool, a: Json, b: Json, flat: map<string, Json>)
    requires Unambiguous(paths) && Within(a, paths) && Within(b, paths)
    requires Written(Leaves(a, ""), map[], flat) && Written(Leaves(b, ""), map[], flat)
    ensures a == b
  {
    forall path ensures LeafAt(a, path) == LeafAt(b, path) {
      if paths(path) {
        ViewHoldsEveryLeaf(paths, a, flat, path);
        ViewHoldsEveryLeaf(paths, b, flat, path);
      }
    }
    SameLeavesSameDocument(a, b);
  }

  // ------------------------------------------------------------- the diff

  /** `dict.get`: None, which is JSON null, for a missing key. */
  function Get(m: map<string, Json>, key: string): Json {
    if key in m then m[key] else JNull
  }

  predicate Differs(before: map<string, Json>, after: map<string, Json>, key: string) {
    Plain(Get(before, key)) != Plain(Get(after, key)) || (key in before) != (key in after)
  }

  function Changed(before: map<string, Json>, after: map<string, Json>): set<string> {
    set key | key in before.Keys + after.Keys && Differs(before, after, key)
  }

  /** The old side of a diff of flattened maps; `DiffSide(after, before)` is the new side. */
  function DiffSide(mine: map<string, Json>, other: map<string, Json>): map<string, Json> {
    map key | key in Changed(mine, other) :: Get(mine, key)
  }

  method DiffMaps(before: map<string, Json>, after: map<string, Json>)
    returns (changedPrevious: map<string, Json>, changedNew: map<string, Json>)
    ensures changedPrevious == DiffSide(before, after) && changedNew == DiffSide(after, before)
    ensures forall key :: key in changedPrevious <==>
              (key in before) != (key in after) || (key in before && !PyEqual(before[key], after[key]))
    ensures forall key :: key in changedPrevious ==>
              && changedPrevious[key] == (if key in before then before[key] else JNull)
              && changedNew[key] == (if key in after then after[key] else JNull)
  {
    changedPrevious, changedNew := map[], map[];
    var todo := before.Keys + after.Keys;
    while todo != {}
      invariant todo <= before.Keys + after.Keys
      invariant changedPrevious == map key | key in Changed(before, after) - todo :: Get(before, key)
      invariant changedNew == map key | key in Changed(before, after) - todo :: Get(after, key)
    {
      var key :| key in todo;
      var old', cur := Get(before, key), Get(after, key);
      if Plain(old') != Plain(cur) || (key in before) != (key in after) {
        changedPrevious, changedNew := changedPrevious[key := old'], changedNew[key := cur];
      }
      todo := todo - {key};
    }
    assert Changed(before, after) == Changed(after, before);
    forall key | key in before && key in after
      ensures Differs(before, after, key) <==> !PyEqual(before[key], after[key])
    {
      PlainIsPyEqual(before[key], after[key]);
    }
  }

  /** `flat` is a flattened view of the document, whichever order the writes happened in. */
  ghost predicate FlatViewOf(v: Json, flat: map<string, Json>) {
    Written(Leaves(v, ""), map[], flat)
  }

  method JsonDiff(previous: Json, new': Json)
    returns (changedPrevious: map<string, Json>, changedNew: map<string, Json>,
             ghost before: map<string, Json>, ghost after: map<string, Json>)
    ensures FlatViewOf(previous, before) && FlatViewOf(new', after)
    ensures changedPrevious == DiffSide(before, after) && changedNew == DiffSide(after, before)
    ensures changedPrevious.Keys == changedNew.Keys
    ensures Good(previous) && Good(new') ==>
              (changedPrevious == changedNew == map[] <==> PyEqual(previous, new'))
    ensures Good(previous) && Good(new') && NoBooleans(previous) && NoBooleans(new') ==>
              (changedPrevious == changedNew == map[] <==> previous == new')
  {
    var flatBefore := FlattenJson(previous);
    var flatAfter := FlattenJson(new');
    changedPrevious, changedNew := DiffMaps(flatBefore, flatAfter);
    before, after := flatBefore, flatAfter;
    DiffSidesShareKeys(before, after);
    if Good(previous) && Good(new') {
      EmptyDiffMeansEqual(previous, new', before, after);
      if NoBooleans(previous) && NoBooleans(new') {
        EqualIsSame(previous, new');
      }
    }
  }

  /** The two sides always list the same paths, so swapping the documents swaps the sides. */
  lemma DiffSidesShareKeys(before: map<string, Json>, after: map<string, Json>)
    ensures DiffSide(before, after).Keys == DiffSide(after, before).Keys == Changed(before, after)
  {
    assert Changed(before, after) == Changed(after, before);
  }

  lemma {:induction false} PlainLeafAt(v: Json, path: seq<Step>)
    ensures LeafAt(Plain(v), path) == (if LeafAt(v, path).Some? then Some(Plain(LeafAt(v, path).value)) else None)
    decreases path
  {
    if !IsLeaf(v) && path != [] {
      if v.JList? && path[0].Index? && path[0].i < |v.items| {
        PlainLeafAt(v.items[path[0].i], path[1..]);
      } else if v.JObj? && path[0].Key? && path[0].k in v.fields {
        PlainLeafAt(v.fields[path[0].k], path[1..]);
      }
    }
    if !IsLeaf(v) && v.JObj? {
      var k :| k in v.fields;
      assert k in Plain(v).fields;
    }
  }

  /** On good keys the diff lists exactly the paths at which the documents disagree. */
  lemma DiffListsDisagreements(previous: Json, new': Json, before: map<string, Json>, after: map<string, Json>,
                               path: seq<Step>)
    requires Good(previous) && Good(new') && FlatViewOf(previous, before) && FlatViewOf(new', after)
    requires GoodPath(path)
    ensures PathText("", path) in DiffSide(before, after)
       <==> LeafAt(Plain(previous), path) != LeafAt(Plain(new'), path)
    ensures PathText("", path) in DiffSide(before, after) <==>
              var was, now := LeafAt(previous, path), LeafAt(new', path);
              was.Some? != now.Some? || (was.Some? && !PyEqual(was.value, now.value))
    ensures PathText("", path) in DiffSide(before, after) ==>
              DiffSide(before, after)[PathText("", path)] == LeafAt(previous, path).GetOr(JNull)
  {
    FlatHoldsEveryLeaf(previous, before, path);
    FlatHoldsEveryLeaf(new', after, path);
    PlainLeafAt(previous, path);
    PlainLeafAt(new', path);
    if LeafAt(previous, path).Some? && LeafAt(new', path).Some? {
      PlainIsPyEqual(LeafAt(previous, path).value, LeafAt(new', path).value);
    }
  }

  lemma NoDisagreement(previous: Json, new': Json, before: map<string, Json>, after: map<string, Json>)
    requires Good(previous) && Good(new') && FlatViewOf(previous, before) && FlatViewOf(new', after)
    requires Changed(before, after) == {}
    ensures Plain(previous) == Plain(new')
  {
    forall path ensures LeafAt(Plain(previous), path) == LeafAt(Plain(new'), path) {
      PlainLeafAt(previous, path);
      PlainLeafAt(new', path);
      if GoodPath(path) {
        DiffListsDisagreements(previous, new', before, after, path);
      } else {
        if LeafAt(previous, path).Some? { GoodDocumentPaths(previous, path); }
        if LeafAt(new', path).Some? { GoodDocumentPaths(new', path); }
      }
    }
    SameLeavesSameDocument(Plain(previous), Plain(new'));
  }

  lemma ChangedPath(previous: Json, new': Json, before: map<string, Json>, after: map<string, Json>, s: string)
    requires Good(previous) && Good(new') && FlatViewOf(previous, before) && FlatViewOf(new', after)
    requires s in Changed(before, after)
    ensures Plain(previous) != Plain(new')
  {
    var path;
    if s in before {
      path := EntryHasPath(previous, "", (s, before[s]));
      GoodDocumentPaths(previous, path);
    } else {
      path := EntryHasPath(new', "", (s, after[s]));
      GoodDocumentPaths(new', path);
    }
    DiffListsDisagreements(previous, new', before, after, path);
  }

  /** On good keys an empty diff means that the documents are equal, and conversely. */
  lemma EmptyDiffMeansEqual(previous: Json, new': Json, before: map<string, Json>, after: map<string, Json>)
    requires Good(previous) && Good(new') && FlatViewOf(previous, before) && FlatViewOf(new', after)
    ensures DiffSide(before, after) == map[] <==> PyEqual(previous, new')
    ensures DiffSide(after, before) == map[] <==> PyEqual(previous, new')
  {
    PlainIsPyEqual(previous, new');
    DiffSidesShareKeys(before, after);
    assert DiffSide(before, after) == map[] <==> Changed(before, after) == {};
    assert DiffSide(after, before) == map[] <==> Changed(before, after) == {};
    if Changed(before, after) == {} {
      NoDisagreement(previous, new', before, after);
    } else {
      var s :| s in Changed(before, after);
      ChangedPath(previous, new', before, after, s);
    }
  }

  // -------------------------------------- why the keys have to be good

  lemma OneField(k: string, v: Json, prefix: string)
    ensures Leaves(JObj(map[k := v]), prefix) == Leaves(v, Child(prefix, Key(k)))
  {
    var o := JObj(map[k := v]);
    assert k in o.fields && o.fields.Keys == {k};
  }

  lemma OneItem(v: Json, prefix: string)
    ensures Leaves(JList([v]), prefix) == Leaves(v, Child(prefix, Index(0)))
  {
    assert JList([v]).items[0] == v;
  }

  /** A dot in a key reads like nesting: the two documents have one flattened view. */
  lemma DottedKeyCollides(k: string, l: string, v: Json)
    requires k != ""
    ensures JObj(map[k + "." + l := v]) != JObj(map[k := JObj(map[l := v])])
    ensures Leaves(JObj(map[k + "." + l := v]), "") == Leaves(JObj(map[k := JObj(map[l := v])]), "")
  {
    OneField(k + "." + l, v, "");
    OneField(k, JObj(map[l := v]), "");
    OneField(l, v, k);
    assert |k + "." + l| > |k|;
    assert k in JObj(map[k := JObj(map[l := v])]).fields;
  }

  /** A bracket in a key reads like a list index. */
  lemma BracketKeyCollides(k: string, v: Json)
    ensures JObj(map[k + "[0]" := v]) != JObj(map[k := JList([v])])
    ensures Leaves(JObj(map[k + "[0]" := v]), "") == Leaves(JObj(map[k := JList([v])]), "")
  {
    OneField(k + "[0]", v, "");
    OneField(k, JList([v]), "");
    OneItem(v, k);
    assert Decimal.Digits(0) == "0";
    assert k + "[" + "0" + "]" == k + "[0]";
    assert |k + "[0]"| > |k|;
    assert k in JObj(map[k := JList([v])]).fields;
  }

  /** An empty key vanishes: wrapping any document under it changes nothing in the flattened view. */
  lemma EmptyKeyVanishes(v: Json)
    ensures JObj(map["" := v]) != v
    ensures Leaves(JObj(map["" := v]), "") == Leaves(v, "")
  {
    OneField("", v, "");
    assert JObj(map["" := v]).fields[""] == v;
  }
}

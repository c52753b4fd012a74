/** The indexes of a planning snapshot and the queries over them (backend/app/domain/snapshot.py). */
module SnapshotIndex {
  import opened Prelude
  import opened Sorting

  type Id = string
  type Time = int

  /** An operation in its order's sequence, or a machine in its group by preference. */
  datatype Row = Row(id: Id, group: Id, rank: int)

  datatype Expedite = Expedite(orderId: Id, boost: int, startsAt: Time, expiresAt: Time, active: bool)

  predicate ExpediteActive(e: Expedite, now: Time) {
    e.active && e.startsAt <= now < e.expiresAt
  }

  predicate RowLeq(a: Row, b: Row) {
    a.rank < b.rank || (a.rank == b.rank && StrLeq(a.id, b.id))
  }

  lemma RowOrder()
    ensures Preorder(RowLeq)
  {
    StrLeqOrder();
  }

  /** Under how many of these keys a row is filed. */
  ghost function Copies(rows: map<Id, Row>, keys: set<Id>, r: Row): nat {
    |set k | k in keys && k in rows && rows[k] == r|
  }

  /** The list has the rows of the group that are filed under these keys, each as often as it is filed. */
  ghost predicate ListsGroup(list: seq<Row>, rows: map<Id, Row>, keys: set<Id>, g: Id) {
    forall r :: multiset(list)[r] == if r.group == g then Copies(rows, keys, r) else 0
  }

  /** A row is filed under its own id. */
  ghost predicate Keyed(rows: map<Id, Row>) {
    forall k :: k in rows ==> rows[k].id == k
  }

  type Index = map<Id, seq<Row>>

  function Lookup(index: Index, g: Id): seq<Row> {
    if g in index then index[g] else []
  }

  /** The plain definition: under each group, its rows and no others, in order. */
  ghost predicate Indexes(index: Index, rows: map<Id, Row>) {
    && (forall g :: g in index <==> exists k :: k in rows && rows[k].group == g)
    && (forall g :: ListsGroup(Lookup(index, g), rows, rows.Keys, g) && SortedBy(RowLeq, Lookup(index, g)))
  }

  /** The definition leaves no choice, so the iteration order of the dictionaries does not matter. */
  lemma IndexUnique(i1: Index, i2: Index, rows: map<Id, Row>)
    requires Indexes(i1, rows) && Indexes(i2, rows)
    ensures i1 == i2
  {
    assert i1.Keys == i2.Keys;
    forall g | g in i1 ensures i1[g] == i2[g] {
      GroupUnique(Lookup(i1, g), Lookup(i2, g), rows, g);
    }
  }

  lemma GroupUnique(a: seq<Row>, b: seq<Row>, rows: map<Id, Row>, g: Id)
    requires ListsGroup(a, rows, rows.Keys, g) && SortedBy(RowLeq, a)
    requires ListsGroup(b, rows, rows.Keys, g) && SortedBy(RowLeq, b)
    ensures a == b
  {
    RowOrder();
    forall x, y | x in a && y in a && RowLeq(x, y) && RowLeq(y, x) ensures x == y {
      StrLeqTotal(x.id, y.id);
      assert x in multiset(a) && y in multiset(a);
    }
    assert multiset(a) == multiset(b);
    SortedUnique(RowLeq, a, b);
  }

  /** Filed under their own ids, the rows of a group are listed once each. */
  lemma KeyedOnce(index: Index, rows: map<Id, Row>, g: Id)
    requires Keyed(rows) && Indexes(index, rows)
    ensures forall i, j :: 0 <= i < j < |Lookup(index, g)| ==> Lookup(index, g)[i] != Lookup(index, g)[j]
  {
    var list := Lookup(index, g);
    forall i, j | 0 <= i < j < |list| ensures list[i] != list[j] {
      assert list == list[..i] + [list[i]] + list[i + 1..];
      assert list[j] in list[i + 1..];
      assert multiset(list)[list[i]] <= 1 by { AtMostOneKey(rows, list[i]); }
      assert list[j] in multiset(list[i + 1..]);
    }
  }

  lemma AtMostOneKey(rows: map<Id, Row>, r: Row)
    requires Keyed(rows)
    ensures Copies(rows, rows.Keys, r) <= 1
  {
    var keys := set k | k in rows.Keys && k in rows && rows[k] == r;
    assert keys <= {r.id};
    assert keys == {} || keys == {r.id};
  }

  /** The rows under the keys `seen` are filed under their groups, in some order. */
  ghost predicate Grouped(groups: Index, rows: map<Id, Row>, seen: set<Id>)
    requires seen <= rows.Keys
  {
    && (forall g :: g in groups <==> exists k :: k in seen && rows[k].group == g)
    && (forall g :: ListsGroup(Lookup(groups, g), rows, seen, g))
  }

  lemma OneMoreCopy(rows: map<Id, Row>, seen: set<Id>, k: Id, r: Row)
    requires k in rows && k !in seen
    ensures Copies(rows, seen + {k}, r) == Copies(rows, seen, r) + if rows[k] == r then 1 else 0
  {
    var before := set j | j in seen && j in rows && rows[j] == r;
    var after := set j | j in seen + {k} && j in rows && rows[j] == r;
    assert after == before + if rows[k] == r then {k} else {};
  }

  lemma FileRow(groups: Index, rows: map<Id, Row>, seen: set<Id>, k: Id)
    requires k in rows && k !in seen && seen <= rows.Keys && Grouped(groups, rows, seen)
    ensures Grouped(groups[rows[k].group := Lookup(groups, rows[k].group) + [rows[k]]], rows, seen + {k})
  {
    var r := rows[k];
    var groups' := groups[r.group := Lookup(groups, r.group) + [r]];
    forall g ensures ListsGroup(Lookup(groups', g), rows, seen + {k}, g) {
      forall x ensures multiset(Lookup(groups', g))[x] == if x.group == g then Copies(rows, seen + {k}, x) else 0 {
        OneMoreCopy(rows, seen, k, x);
        assert ListsGroup(Lookup(groups, g), rows, seen, g);
      }
    }
    forall g ensures g in groups' <==> exists j :: j in seen + {k} && rows[j].group == g {
      assert k in seen + {k} && rows[k].group == r.group;
    }
  }

  function SortGroups(groups: Index): Index {
    map g | g in groups :: Sort(RowLeq, groups[g])
  }

  lemma GroupsSorted(groups: Index, rows: map<Id, Row>)
    requires Grouped(groups, rows, rows.Keys)
    ensures Indexes(SortGroups(groups), rows)
  {
    RowOrder();
    forall g
      ensures ListsGroup(Lookup(SortGroups(groups), g), rows, rows.Keys, g)
      ensures SortedBy(RowLeq, Lookup(SortGroups(groups), g))
    {
      assert ListsGroup(Lookup(groups, g), rows, rows.Keys, g);
      if g in groups {
        SortMembers(RowLeq, groups[g]);
        SortSorted(RowLeq, groups[g]);
      }
    }
  }

  /** Group the rows in any order, then sort every group. */
  method BuildIndex(rows: map<Id, Row>) returns (index: Index)
    ensures Indexes(index, rows)
  {
    var groups: Index := map[];
    var todo := rows.Keys;
    while todo != {}
      invariant todo <= rows.Keys && Grouped(groups, rows, rows.Keys - todo)
    {
      var k :| k in todo;
      var r := rows[k];
      FileRow(groups, rows, rows.Keys - todo, k);
      assert rows.Keys - (todo - {k}) == rows.Keys - todo + {k};
      groups := groups[r.group := Lookup(groups, r.group) + [r]];
      todo := todo - {k};
    }
    assert rows.Keys - todo == rows.Keys;
    GroupsSorted(groups, rows);
    index := SortGroups(groups);
  }

  function Waiting(dependents: map<Id, set<Id>>, upstream: Id): set<Id> {
    if upstream in dependents then dependents[upstream] else {}
  }

  /** Under each upstream order, exactly the orders of `seen` that name it; no empty entry. */
  ghost predicate Converse(dependents: map<Id, set<Id>>, dependsOn: map<Id, set<Id>>, seen: set<Id>)
    requires seen <= dependsOn.Keys
  {
    && (forall u, o :: o in Waiting(dependents, u) <==> o in seen && u in dependsOn[o])
    && (forall u :: u in dependents ==> dependents[u] != {})
  }

  lemma FileOrder(before: map<Id, set<Id>>, after: map<Id, set<Id>>, dependsOn: map<Id, set<Id>>, seen: set<Id>,
                  order: Id)
    requires seen <= dependsOn.Keys && order in dependsOn.Keys && Converse(before, dependsOn, seen)
    requires forall u :: Waiting(after, u) == Waiting(before, u) + if u in dependsOn[order] then {order} else {}
    requires forall u :: u in after ==> after[u] != {}
    ensures Converse(after, dependsOn, seen + {order})
  {
    forall u, o ensures o in Waiting(after, u) <==> o in seen + {order} && u in dependsOn[o] {
      assert o in Waiting(before, u) <==> o in seen && u in dependsOn[o];
    }
  }

  /** `setdefault(upstream, set()).add(order)` for every order and each of its upstream orders. */
  method BuildDependents(dependsOn: map<Id, set<Id>>) returns (dependents: map<Id, set<Id>>)
    ensures Converse(dependents, dependsOn, dependsOn.Keys)
  {
    dependents := map[];
    var todo := dependsOn.Keys;
    while todo != {}
      invariant todo <= dependsOn.Keys && Converse(dependents, dependsOn, dependsOn.Keys - todo)
    {
      var order :| order in todo;
      ghost var before := dependents;
      var ups := dependsOn[order];
      while ups != {}
        invariant ups <= dependsOn[order]
        invariant forall u :: Waiting(dependents, u)
                           == Waiting(before, u) + if u in dependsOn[order] - ups then {order} else {}
        invariant forall u :: u in dependents ==> dependents[u] != {}
      {
        var u :| u in ups;
        dependents := dependents[u := Waiting(dependents, u) + {order}];
        ups := ups - {u};
      }
      forall u ensures Waiting(dependents, u) == Waiting(before, u) + if u in dependsOn[order] then {order} else {} {
        assert u in dependsOn[order] - ups <==> u in dependsOn[order];
      }
      FileOrder(before, dependents, dependsOn, dependsOn.Keys - todo, order);
      assert dependsOn.Keys - (todo - {order}) == dependsOn.Keys - todo + {order};
      todo := todo - {order};
    }
    assert dependsOn.Keys - todo == dependsOn.Keys;
  }

  /** The dictionary after storing `ops` one by one. */
  function Put(rows: map<Id, Row>, ops: seq<Row>): map<Id, Row> {
    if ops == [] then rows
    else Put(rows, ops[..|ops| - 1])[ops[|ops| - 1].id := ops[|ops| - 1]]
  }

  /** The last operation given for an id is the one kept; other entries stay. */
  lemma {:induction false} LastPutWins(rows: map<Id, Row>, ops: seq<Row>, k: Id)
    ensures k in Put(rows, ops) <==> k in rows || exists op :: op in ops && op.id == k
    ensures (forall op :: op in ops ==> op.id != k) && k in rows ==> k in Put(rows, ops) && Put(rows, ops)[k] == rows[k]
    ensures forall i :: 0 <= i < |ops| && ops[i].id == k && (forall j :: i < j < |ops| ==> ops[j].id != k) ==>
              k in Put(rows, ops) && Put(rows, ops)[k] == ops[i]
    ensures Keyed(rows) ==> Keyed(Put(rows, ops))
  {
    if ops != [] {
      LastPutWins(rows, ops[..|ops| - 1], k);
      assert ops == ops[..|ops| - 1] + [ops[|ops| - 1]];
    }
  }

  class PlanningSnapshot {
    var operations: map<Id, Row>
    var machines: map<Id, Row>
    var dependsOn: map<Id, set<Id>>
    var expedites: seq<Expedite>
    var opsByOrder: Index
    var machinesByGroup: Index
    var dependents: map<Id, set<Id>>

    ghost predicate Indexed()
      reads this
    {
      && Indexes(opsByOrder, operations)
      && Indexes(machinesByGroup, machines)
      && Converse(dependents, dependsOn, dependsOn.Keys)
    }

    method RebuildIndexes()
      modifies this`opsByOrder, this`machinesByGroup, this`dependents
      ensures Indexed()
    {
      opsByOrder := BuildIndex(operations);
      machinesByGroup := BuildIndex(machines);
      dependents := BuildDependents(dependsOn);
    }

    method AddOperations(ops: seq<Row>)
      modifies this`operations, this`opsByOrder, this`machinesByGroup, this`dependents
      ensures operations == Put(old(operations), ops) && Indexed()
    {
      for i := 0 to |ops|
        invariant operations == Put(old(operations), ops[..i])
      {
        operations := operations[ops[i].id := ops[i]];
        assert ops[..i + 1][..i] == ops[..i];
      }
      assert ops[..|ops|] == ops;
      RebuildIndexes();
    }

    /** An empty index is rebuilt on demand; a non-empty one is trusted. */
    method OperationsForOrder(order: Id) returns (r: seq<Row>)
      modifies this`opsByOrder, this`machinesByGroup, this`dependents
      ensures old(Indexed()) || old(opsByOrder) == map[] ==>
                && ListsGroup(r, operations, operations.Keys, order)
                && forall i, j :: 0 <= i < j < |r| ==>
                     r[i].rank < r[j].rank || (r[i].rank == r[j].rank && StrLeq(r[i].id, r[j].id))
      ensures old(opsByOrder) != map[] ==> r == Lookup(old(opsByOrder), order)
    {
      if opsByOrder == map[] && operations != map[] {
        RebuildIndexes();
      }
      r := Lookup(opsByOrder, order);
    }

    method MachinesInGroup(g: Id) returns (r: seq<Row>)
      modifies this`opsByOrder, this`machinesByGroup, this`dependents
      ensures old(Indexed()) || old(machinesByGroup) == map[] ==>
                && ListsGroup(r, machines, machines.Keys, g)
                && forall i, j :: 0 <= i < j < |r| ==>
                     r[i].rank < r[j].rank || (r[i].rank == r[j].rank && StrLeq(r[i].id, r[j].id))
      ensures old(machinesByGroup) != map[] ==> r == Lookup(old(machinesByGroup), g)
    {
      if machinesByGroup == map[] && machines != map[] {
        RebuildIndexes();
      }
      r := Lookup(machinesByGroup, g);
    }

    method DependentsOf(order: Id) returns (r: set<Id>)
      modifies this`opsByOrder, this`machinesByGroup, this`dependents
      ensures old(Indexed()) || old(dependents) == map[] ==>
                forall o :: o in r <==> o in dependsOn && order in dependsOn[o]
    {
      if dependents == map[] && dependsOn != map[] {
        RebuildIndexes();
      }
      r := Waiting(dependents, order);
    }

    /** For every order its first active expedite of maximal boost. */
    method ActiveExpedites(now: Time) returns (result: map<Id, Expedite>)
      ensures forall o :: o in result <==>
                exists e :: e in expedites && e.orderId == o && e.active && e.startsAt <= now < e.expiresAt
      ensures forall o :: o in result ==> exists i :: Best(expedites, o, now, i) && expedites[i] == result[o]
    {
      result := map[];
      ghost var first: map<Id, nat> := map[];
      for k := 0 to |expedites|
        invariant first.Keys == result.Keys
        invariant forall o :: o in result ==>
                    first[o] < k && Best(expedites[..k], o, now, first[o]) && expedites[first[o]] == result[o]
        invariant forall j :: 0 <= j < k && ExpediteActive(expedites[j], now) ==> expedites[j].orderId in result
      {
        var e := expedites[k];
        forall o | o in result && !(o == e.orderId && ExpediteActive(e, now) && e.boost > result[o].boost)
          ensures Best(expedites[..k + 1], o, now, first[o])
        {
          BestStays(expedites, k, o, now, first[o]);
        }
        BestTaken(expedites, k, now);
        if ExpediteActive(e, now) {
          if e.orderId !in result || e.boost > result[e.orderId].boost {
            result := result[e.orderId := e];
            first := first[e.orderId := k];
          }
        }
      }
      assert expedites[..|expedites|] == expedites;
      forall o | o in result
        ensures exists i :: Best(expedites, o, now, i) && expedites[i] == result[o]
      {
        assert Best(expedites, o, now, first[o]);
      }
    }
  }

  lemma BestStays(es: seq<Expedite>, k: nat, o: Id, now: Time, i: nat)
    requires k < |es| && Best(es[..k], o, now, i)
    requires es[k].orderId == o && ExpediteActive(es[k], now) ==> es[k].boost <= es[i].boost
    ensures Best(es[..k + 1], o, now, i)
  {
    forall j | 0 <= j < k + 1 && es[j].orderId == o && ExpediteActive(es[j], now)
      ensures es[j].boost <= es[i].boost && (j < i ==> es[j].boost < es[i].boost)
    {
      assert j < k ==> es[..k][j] == es[j];
    }
  }

  /** An active expedite that beats all earlier ones of its order, or is their first. */
  lemma BestTaken(es: seq<Expedite>, k: nat, now: Time)
    requires k < |es|
    ensures ExpediteActive(es[k], now)
            && (forall j :: 0 <= j < k && es[j].orderId == es[k].orderId && ExpediteActive(es[j], now) ==>
                  es[j].boost < es[k].boost)
            ==> Best(es[..k + 1], es[k].orderId, now, k)
  {
  }

  /** Number `i` is the order's first active expedite of maximal boost. */
  ghost predicate Best(es: seq<Expedite>, o: Id, now: Time, i: int) {
    && 0 <= i < |es| && es[i].orderId == o && ExpediteActive(es[i], now)
    && (forall j :: 0 <= j < |es| && es[j].orderId == o && ExpediteActive(es[j], now) ==>
         && es[j].boost <= es[i].boost
         && (j < i ==> es[j].boost < es[i].boost))
  }
}

/** The synchronisation run in its own form: stages over mutable batches and a transactional store. */
module SyncService {
  import opened Prelude
  import opened Sorting
  import opened SyncModel

  /** A normalised operation, mutable: progress reports are applied onto it. */
  class Operation {
    const operationId: Id
    var doc: OpDoc

    constructor (id: Id, doc: OpDoc)
      ensures operationId == id && this.doc == doc
    {
      operationId, this.doc := id, doc;
    }

    method Apply(r: Report)
      modifies this
      ensures doc == ApplyReport(old(doc), r)
    {
      doc := doc.(status := r.status);
      if r.completed.Some? {
        doc := doc.(completed := r.completed.value);
      }
      if r.machine.Some? {
        doc := doc.(machine := r.machine);
      }
      if r.actualStart.Some? {
        doc := doc.(actualStart := r.actualStart);
      }
      if r.actualEnd.Some? {
        doc := doc.(actualEnd := r.actualEnd);
      }
      doc := doc.(lastReport := Some(r.reportedAt));
    }
  }

  /** The normaliser skips later copies of an operation id, so a batch never repeats one. */
  ghost predicate DistinctOperations(ops: seq<Operation>) {
    forall i, j :: 0 <= i < j < |ops| ==> ops[i].operationId != ops[j].operationId
  }

  ghost function Ids(ops: seq<Operation>): set<Id> {
    set op | op in ops :: op.operationId
  }

  /** The map from operation id to document that a list of operations holds. */
  ghost predicate Holds(ops: seq<Operation>, docs: map<Id, OpDoc>)
    reads ops
  {
    && docs.Keys == Ids(ops)
    && (forall op :: op in ops ==> docs[op.operationId] == op.doc)
  }

  class Batch {
    var orders: map<Id, OrderDoc>
    var operations: seq<Operation>
    var progress: seq<Report>
    var deferred: seq<Report>
    var appliedInBatch: nat
    ghost var docs: map<Id, OpDoc>  // what `operations` holds

    ghost predicate Valid()
      reads this, operations
    {
      DistinctOperations(operations) && Holds(operations, docs)
    }

    constructor (orders: map<Id, OrderDoc>, operations: seq<Operation>, progress: seq<Report>,
                 ghost docs: map<Id, OpDoc>)
      requires DistinctOperations(operations) && Holds(operations, docs)
      ensures this.orders == orders && this.operations == operations && this.progress == progress
      ensures deferred == [] && appliedInBatch == 0 && this.docs == docs
      ensures Valid()
    {
      this.orders, this.operations, this.progress, this.docs := orders, operations, progress, docs;
      deferred, appliedInBatch := [], 0;
    }
  }

  /** The rows of the session's transaction and of its last commit. */
  class Session {
    var data: Data
    var runs: seq<RunRecord>
    var committedData: Data
    var committedRuns: seq<RunRecord>

    method Commit()
      modifies this
      ensures data == old(data) && runs == old(runs)
      ensures committedData == data && committedRuns == runs
    {
      committedData, committedRuns := data, runs;
    }

    method Rollback()
      modifies this
      ensures committedData == old(committedData) && committedRuns == old(committedRuns)
      ensures data == committedData && runs == committedRuns
    {
      data, runs := committedData, committedRuns;
    }

    /** OrderRepository.upsert: operations of the given orders missing from `ops` go when replacing. */
    method UpsertOrders(orders: map<Id, StoredOrder>, ops: map<Id, OpDoc>, replaceOperations: bool)
      requires forall k :: k in ops ==> ops[k].orderId in orders
      modifies this`data
      ensures data.orders == old(data).orders + orders
      ensures data.operations ==
        (map k | k in old(data).operations
               && !(replaceOperations && old(data).operations[k].orderId in orders && k !in ops)
           :: old(data).operations[k]) + ops
    {
      if orders == map[] {
        return;
      }
      data := data.(orders := data.orders + orders);
      if replaceOperations {
        data := data.(operations := map k | k in data.operations
                        && !(data.operations[k].orderId in orders && k !in ops) :: data.operations[k]);
      }
      data := data.(operations := data.operations + ops);
    }
  }

  // ---------------------------------------------------------------- stages

  /** Operations without an order are dropped, each with an issue; nothing else is. */
  method Validate(session: Session, batch: Batch) returns (unknownOrder: seq<Id>)
    requires batch.Valid()
    modifies batch`operations, batch`docs
    ensures batch.Valid()
    ensures forall op :: op in batch.operations ==> op in old(batch.operations)
    ensures batch.docs == map k | k in old(batch.docs)
                            && OrderKnown(session.data, Fetched(batch.orders, map[], map[]), old(batch.docs)[k].orderId)
                          :: old(batch.docs)[k]
    ensures |batch.operations| + |unknownOrder| == |old(batch.operations)|
    ensures forall k :: k in unknownOrder <==> k in old(batch.docs) && k !in batch.docs
  {
    var kept;
    kept, unknownOrder := Screen(session, batch);
    ghost var known := batch.orders.Keys + session.data.orders.Keys;
    AllScreened(kept, unknownOrder, batch.operations, batch.docs, known);
    batch.operations := kept;
    batch.docs := map k | k in batch.docs && batch.docs[k].orderId in known :: batch.docs[k];
  }

  method Screen(session: Session, batch: Batch) returns (kept: seq<Operation>, unknown: seq<Id>)
    requires batch.Valid()
    ensures Screened(kept, unknown, batch.operations, |batch.operations|, batch.docs,
                     batch.orders.Keys + session.data.orders.Keys)
  {
    kept, unknown := [], [];
    ghost var known := batch.orders.Keys + session.data.orders.Keys;
    for i := 0 to |batch.operations|
      invariant Screened(kept, unknown, batch.operations, i, batch.docs, known)
    {
      var op := batch.operations[i];
      assert batch.docs[op.operationId] == op.doc;
      ScreenOne(kept, unknown, batch.operations, i, batch.docs, known);
      if op.doc.orderId in batch.orders || op.doc.orderId in session.data.orders {
        kept := kept + [op];
      } else {
        unknown := unknown + [op.operationId];
      }
    }
  }

  /** Every document is kept or its operation listed as unknown, and the kept operations hold the kept documents. */
  lemma AllScreened(kept: seq<Operation>, unknown: seq<Id>, ops: seq<Operation>, docs: map<Id, OpDoc>, known: set<Id>)
    requires Screened(kept, unknown, ops, |ops|, docs, known) && docs.Keys == Ids(ops)
    ensures forall op :: op in kept ==> op in ops
    ensures Ids(kept) == set k | k in docs && docs[k].orderId in known
    ensures forall k :: k in unknown <==> k in docs && docs[k].orderId !in known
  {
    assert ops[..|ops|] == ops;
    forall k | k in docs ensures if docs[k].orderId in known then k in Ids(kept) else k in unknown {
      var op :| op in ops && op.operationId == k;
      var j :| 0 <= j < |ops| && ops[j] == op;
    }
  }

  /** The first `n` operations of the batch, split by whether their order is known. */
  ghost predicate Screened(kept: seq<Operation>, unknown: seq<Id>, ops: seq<Operation>, n: nat,
                           docs: map<Id, OpDoc>, known: set<Id>)
    requires n <= |ops|
  {
    && |kept| + |unknown| == n && DistinctOperations(kept)
    && (forall op :: op in kept ==> op in ops[..n] && op.operationId in docs && docs[op.operationId].orderId in known)
    && (forall j :: 0 <= j < n ==>
          && ops[j].operationId in docs
          && if docs[ops[j].operationId].orderId in known then ops[j] in kept else ops[j].operationId in unknown)
    && (forall k :: k in unknown ==> k in docs && docs[k].orderId !in known)
  }

  lemma ScreenOne(kept: seq<Operation>, unknown: seq<Id>, ops: seq<Operation>, n: nat,
                  docs: map<Id, OpDoc>, known: set<Id>)
    requires n < |ops| && DistinctOperations(ops) && Screened(kept, unknown, ops, n, docs, known)
    requires ops[n].operationId in docs
    ensures if docs[ops[n].operationId].orderId in known
            then Screened(kept + [ops[n]], unknown, ops, n + 1, docs, known)
            else Screened(kept, unknown + [ops[n].operationId], ops, n + 1, docs, known)
  {
    assert ops[..n + 1] == ops[..n] + [ops[n]];
    KeepDistinct(kept, ops, n);
  }

  lemma KeepDistinct(kept: seq<Operation>, ops: seq<Operation>, i: nat)
    requires i < |ops| && DistinctOperations(ops) && DistinctOperations(kept)
    requires forall op :: op in kept ==> op in ops[..i]
    ensures DistinctOperations(kept + [ops[i]])
  {
    forall a | 0 <= a < |kept| ensures kept[a].operationId != ops[i].operationId {
      assert kept[a] in kept;
      var j :| 0 <= j < i && ops[j] == kept[a];
    }
  }

  ghost function Outside(rs: seq<Report>, inside: set<Id>): seq<Report> {
    if rs == [] then []
    else
      var rest := Outside(rs[..|rs| - 1], inside);
      if rs[|rs| - 1].operationId in inside then rest else rest + [rs[|rs| - 1]]
  }

  lemma OutsideStep(rs: seq<Report>, i: nat, inside: set<Id>)
    requires i < |rs|
    ensures Outside(rs[..i + 1], inside)
         == if rs[i].operationId in inside then Outside(rs[..i], inside) else Outside(rs[..i], inside) + [rs[i]]
  {
    assert rs[..i + 1][..i] == rs[..i];
  }

  ghost function Reported(ops: map<Id, OpDoc>, rs: seq<Report>): map<Id, OpDoc> {
    map k | k in ops :: ApplyReports(ops[k], ReportsFor(rs, k))
  }

  lemma ReportedStep(ops: map<Id, OpDoc>, rs: seq<Report>, i: nat)
    requires i < |rs|
    ensures var k := rs[i].operationId;
      var before, after := Reported(ops, rs[..i]), Reported(ops, rs[..i + 1]);
      && (k in ops ==> after == before[k := ApplyReport(before[k], rs[i])] && before[k].orderId == ops[k].orderId)
      && (k !in ops ==> after == before)
  {
    forall k | k in ops
      ensures var before, after := Reported(ops, rs[..i])[k], Reported(ops, rs[..i + 1])[k];
        && after == (if rs[i].operationId == k then ApplyReport(before, rs[i]) else before)
        && before.orderId == ops[k].orderId
    {
      OneMoreReport(ops[k], rs, i, k);
      ReportsKeepPlan(ops[k], ReportsFor(rs[..i], k));
    }
  }

  method IndexById(ops: seq<Operation>) returns (byId: map<Id, Operation>)
    requires DistinctOperations(ops)
    ensures byId.Keys == Ids(ops)
    ensures forall k :: k in byId ==> byId[k] in ops && byId[k].operationId == k
    ensures forall op :: op in ops ==> byId[op.operationId] == op
  {
    byId := map[];
    for i := 0 to |ops|
      invariant forall k :: k in byId ==> byId[k] in ops && byId[k].operationId == k
      invariant forall j :: 0 <= j < i ==> ops[j].operationId in byId && byId[ops[j].operationId] == ops[j]
    {
      byId := byId[ops[i].operationId := ops[i]];
    }
  }

  method ApplyInBatch(batch: Batch, op: Operation, update: Report)
    requires batch.Valid() && op in batch.operations && op.operationId == update.operationId
    modifies op, batch`docs
    ensures batch.Valid()
    ensures batch.docs
         == old(batch.docs)[update.operationId := ApplyReport(old(batch.docs)[update.operationId], update)]
  {
    op.Apply(update);
    batch.docs := batch.docs[update.operationId := op.doc];
    forall other | other in batch.operations && other != op ensures other.operationId != op.operationId {
      var i, j :| 0 <= i < |batch.operations| && 0 <= j < |batch.operations|
                && batch.operations[i] == op && batch.operations[j] == other;
    }
  }

  method RouteUpdate(batch: Batch, byId: map<Id, Operation>, update: Report)
    requires batch.Valid() && byId.Keys == batch.docs.Keys
    requires forall k :: k in byId ==> byId[k] in batch.operations && byId[k].operationId == k
    modifies batch`deferred, batch`appliedInBatch, batch`docs, batch.operations
    ensures batch.Valid()
    ensures if update.operationId in byId
            then batch.docs
                 == old(batch.docs)[update.operationId := ApplyReport(old(batch.docs)[update.operationId], update)]
                 && batch.deferred == old(batch.deferred) && batch.appliedInBatch == old(batch.appliedInBatch) + 1
            else batch.docs == old(batch.docs)
                 && batch.deferred == old(batch.deferred) + [update]
                 && batch.appliedInBatch == old(batch.appliedInBatch)
  {
    if update.operationId in byId {
      ApplyInBatch(batch, byId[update.operationId], update);
      batch.appliedInBatch := batch.appliedInBatch + 1;
    } else {
      batch.deferred := batch.deferred + [update];
    }
  }

  /** The batch after the first `n` reports: applied to its documents or deferred, and counted. */
  ghost predicate Routed(docs: map<Id, OpDoc>, deferred: seq<Report>, applied: nat,
                         start: map<Id, OpDoc>, rs: seq<Report>, n: nat)
    requires n <= |rs|
  {
    && docs == Reported(start, rs[..n])
    && deferred == Outside(rs[..n], start.Keys)
    && applied + |deferred| == n
  }

  lemma RoutedStep(docs: map<Id, OpDoc>, deferred: seq<Report>, applied: nat,
                   start: map<Id, OpDoc>, rs: seq<Report>, n: nat)
    requires n < |rs| && Routed(docs, deferred, applied, start, rs, n)
    ensures var k := rs[n].operationId;
            if k in start
            then k in docs && Routed(docs[k := ApplyReport(docs[k], rs[n])], deferred, applied + 1, start, rs, n + 1)
            else Routed(docs, deferred + [rs[n]], applied, start, rs, n + 1)
  {
    ReportedStep(start, rs, n);
    OutsideStep(rs, n, start.Keys);
  }

  /** Reports for operations of the batch are applied in memory, in order; the rest are deferred. */
  method ApplyProgress(batch: Batch)
    requires batch.Valid()
    requires batch.deferred == [] && batch.appliedInBatch == 0
    modifies batch`deferred, batch`appliedInBatch, batch`docs, batch.operations
    ensures batch.Valid()
    ensures batch.docs == Reported(old(batch.docs), batch.progress)
    ensures batch.deferred == Outside(batch.progress, old(batch.docs).Keys)
    ensures batch.appliedInBatch + |batch.deferred| == |batch.progress|
  {
    var byId := IndexById(batch.operations);
    var progress := batch.progress;
    ghost var start := batch.docs;
    assert progress[..0] == [];
    for i := 0 to |progress|
      invariant batch.progress == progress && batch.operations == old(batch.operations)
      invariant batch.Valid() && batch.docs.Keys == start.Keys
      invariant Routed(batch.docs, batch.deferred, batch.appliedInBatch, start, progress, i)
    {
      RoutedStep(batch.docs, batch.deferred, batch.appliedInBatch, start, progress, i);
      RouteUpdate(batch, byId, progress[i]);
    }
    assert progress[..|progress|] == progress;
  }

  /** Deferred reports update the stored operations; a report about an unknown one becomes an issue. */
  method ApplyDeferredProgress(session: Session, updates: seq<Report>) returns (applied: nat, unknown: seq<Report>)
    requires Referential(session.data)
    modifies session`data
    ensures session.data == Data(old(session.data).orders, Reported(old(session.data).operations, updates))
    ensures unknown == Outside(updates, old(session.data).operations.Keys)
    ensures applied + |unknown| == |updates|
    ensures Referential(session.data)
  {
    applied, unknown := 0, [];
    ghost var start := session.data;
    assert updates[..0] == [] && Reported(start.operations, []) == start.operations;
    for i := 0 to |updates|
      invariant session.data.orders == start.orders && Referential(session.data)
      invariant Routed(session.data.operations, unknown, applied, start.operations, updates, i)
    {
      var update := updates[i];
      RoutedStep(session.data.operations, unknown, applied, start.operations, updates, i);
      if update.operationId in session.data.operations {
        StoreProgress(session, update);
        applied := applied + 1;
      } else {
        unknown := unknown + [update];
      }
    }
    assert updates[..|updates|] == updates;
  }

  method StoreProgress(session: Session, update: Report)
    requires Referential(session.data) && update.operationId in session.data.operations
    modifies session`data
    ensures session.data == old(session.data).(operations := old(session.data).operations[update.operationId :=
                              ApplyReport(old(session.data).operations[update.operationId], update)])
    ensures Referential(session.data)
  {
    var doc := ApplyReport(session.data.operations[update.operationId], update);
    var order := session.data.orders[doc.orderId];
    session.UpsertOrders(map[doc.orderId := order], map[update.operationId := doc], false);
  }

  /** All reports of a run, by operation. */
  ghost function Grouped(progress: seq<Report>): map<Id, seq<Report>> {
    map k | k in (set r | r in progress :: r.operationId) :: ReportsFor(progress, k)
  }

  lemma GroupedReports(orders: map<Id, OrderDoc>, docs: map<Id, OpDoc>, progress: seq<Report>)
    ensures forall k :: ReportsAbout(Fetched(orders, docs, Grouped(progress)), k) == ReportsFor(progress, k)
  {
    forall k ensures ReportsAbout(Fetched(orders, docs, Grouped(progress)), k) == ReportsFor(progress, k) {
      ReportsForMembers(progress, k);
      if ReportsFor(progress, k) != [] {
        var r := ReportsFor(progress, k)[0];
        assert r in ReportsFor(progress, k);
      }
    }
  }

  lemma {:induction false} OutsideReports(rs: seq<Report>, inside: set<Id>, k: Id)
    ensures ReportsFor(Outside(rs, inside), k) == if k in inside then [] else ReportsFor(rs, k)
  {
    if rs != [] {
      OutsideReports(rs[..|rs| - 1], inside, k);
      var rest, last := Outside(rs[..|rs| - 1], inside), rs[|rs| - 1];
      assert (rest + [last])[..|rest|] == rest;
    }
  }

  /** The batch's operations, split by whether their order was fetched. */
  method SplitByOrder(batch: Batch) returns (own: map<Id, OpDoc>, foreign: map<Id, OpDoc>)
    requires batch.Valid()
    ensures own == map k | k in batch.docs && batch.docs[k].orderId in batch.orders :: batch.docs[k]
    ensures foreign == map k | k in batch.docs && batch.docs[k].orderId !in batch.orders :: batch.docs[k]
  {
    own, foreign := map[], map[];
    ghost var ops, docs := batch.operations, batch.docs;
    for i := 0 to |batch.operations|
      invariant forall k :: k in own ==> k in docs && own[k] == docs[k] && own[k].orderId in batch.orders
      invariant forall k :: k in foreign ==> k in docs && foreign[k] == docs[k] && foreign[k].orderId !in batch.orders
      invariant forall j :: 0 <= j < i ==> ops[j].operationId in own || ops[j].operationId in foreign
    {
      var op := batch.operations[i];
      assert docs[op.operationId] == op.doc;
      if op.doc.orderId in batch.orders {
        own := own[op.operationId := op.doc];
      } else {
        foreign := foreign[op.operationId := op.doc];
      }
    }
    forall k | k in docs ensures k in own || k in foreign {
      assert k in Ids(ops);
      var op :| op in ops && op.operationId == k;
    }
  }

  /** Orders with their own operations first, then changed operations of orders that were not fetched. */
  method UpsertBatch(session: Session, batch: Batch, mode: SyncMode, ghost f: Fetched)
    requires batch.Valid() && batch.orders == f.orders && batch.docs == Batched(session.data, f)
    modifies session`data
    ensures session.data == Data(WithOrders(old(session.data), f), WithBatch(old(session.data), f, mode))
  {
    ghost var d := session.data;
    forall k | k in batch.docs
      ensures batch.docs[k].orderId == f.operations[k].orderId && batch.docs[k].orderId in WithOrders(d, f)
    {
      ReportsKeepPlan(f.operations[k], ReportsAbout(f, k));
    }
    var own, foreign := SplitByOrder(batch);
    UpsertOwn(session, batch, own, mode, f);
    if foreign != map[] {
      UpsertForeign(session, foreign);
    }
    BatchUnion(Unreplaced(d, f, mode), batch.docs, batch.orders.Keys, own, foreign);
  }

  lemma BatchUnion(rest: map<Id, OpDoc>, docs: map<Id, OpDoc>, orders: set<Id>,
                   own: map<Id, OpDoc>, foreign: map<Id, OpDoc>)
    requires own == map k | k in docs && docs[k].orderId in orders :: docs[k]
    requires foreign == map k | k in docs && docs[k].orderId !in orders :: docs[k]
    ensures rest + own + foreign == rest + docs
    ensures foreign == map[] ==> rest + own == rest + docs
  {
  }

  ghost function Unreplaced(d: Data, f: Fetched, mode: SyncMode): map<Id, OpDoc> {
    map k | k in d.operations && !Replaced(d, f, mode, k) :: d.operations[k]
  }

  method UpsertOwn(session: Session, batch: Batch, own: map<Id, OpDoc>, mode: SyncMode, ghost f: Fetched)
    requires batch.orders == f.orders
    requires own == map k | k in Batched(session.data, f) && f.operations[k].orderId in f.orders
                    :: Batched(session.data, f)[k]
    requires forall k :: k in own ==> own[k].orderId in f.orders
    modifies session`data
    ensures session.data == Data(WithOrders(old(session.data), f), Unreplaced(old(session.data), f, mode) + own)
  {
    var orders := map o | o in batch.orders :: StoredOrder(batch.orders[o], None);
    OwnReplace(session.data, f, mode, own);
    session.UpsertOrders(orders, own, mode.FULL?);
  }

  /** A replacing upsert deletes what the merge replaces. */
  lemma OwnReplace(d: Data, f: Fetched, mode: SyncMode, own: map<Id, OpDoc>)
    requires own == map k | k in Batched(d, f) && f.operations[k].orderId in f.orders :: Batched(d, f)[k]
    ensures (map k | k in d.operations && !(mode.FULL? && d.operations[k].orderId in f.orders && k !in own)
               :: d.operations[k]) == Unreplaced(d, f, mode)
  {
  }

  /** The orders of foreign operations are read back and written unchanged. */
  method UpsertForeign(session: Session, foreign: map<Id, OpDoc>)
    requires forall k :: k in foreign ==> foreign[k].orderId in session.data.orders
    modifies session`data
    ensures session.data == Data(old(session.data).orders, old(session.data).operations + foreign)
  {
    var wanted := set k | k in foreign :: foreign[k].orderId;
    var stored := map o | o in session.data.orders && o in wanted :: session.data.orders[o];
    session.UpsertOrders(stored, foreign, false);
  }

  method Reconcile(session: Session, fetched: set<Id>, mode: SyncMode, prune: bool, at: Time)
    modifies session`data
    ensures session.data == Reconciled(old(session.data), fetched, mode, prune, at)
    ensures mode.INCREMENTAL? || (!prune && fetched == {}) ==> session.data == old(session.data)
    ensures mode.FULL? && !prune && fetched != {} ==>
              && session.data.operations == old(session.data).operations
              && session.data.orders.Keys == old(session.data).orders.Keys
              && forall o :: o in session.data.orders ==>
                   session.data.orders[o] ==
                     var was := old(session.data).orders[o];
                     if o in fetched || was.doc.status in {COMPLETED, PACKED, SHIPPED, CANCELLED} then was
                     else StoredOrder(OrderDoc(CANCELLED, was.doc.body), Some(at))
    ensures mode.FULL? && prune ==>
              session.data.orders
              == map o | o in old(session.data).orders && o in fetched :: old(session.data).orders[o]
    ensures mode.FULL? && prune && Referential(old(session.data)) ==>
              session.data.operations == map k | k in old(session.data).operations
                && old(session.data).operations[k].orderId in fetched :: old(session.data).operations[k]
  {
    if mode.FULL? {
      if prune {
        session.data := DeleteMissing(session.data, fetched);
      } else if fetched != {} {
        session.data := session.data.(orders := CloseMissing(session.data.orders, fetched, at));
      }
    }
  }

  /** Everything a run writes, given that validation and progress routing have happened. */
  method Upsert(session: Session, batch: Batch, mode: SyncMode, prune: bool, at: Time, ghost f: Fetched)
    returns (progressWritten: nat, unknown: seq<Report>)
    requires batch.Valid() && Referential(session.data)
    requires batch.orders == f.orders && batch.docs == Batched(session.data, f)
    requires forall k :: ReportsAbout(f, k) == ReportsFor(batch.progress, k)
    requires batch.deferred == Outside(batch.progress, batch.docs.Keys)
    requires batch.appliedInBatch + |batch.deferred| == |batch.progress|
    modifies session`data
    ensures session.data == Merge(old(session.data), f, mode, prune, at)
    ensures progressWritten + |unknown| == |batch.progress|
    ensures forall r :: r in unknown ==> r in batch.progress && r.operationId !in WithBatch(old(session.data), f, mode)
  {
    ghost var d := session.data;
    UpsertBatch(session, batch, mode, f);
    BatchReferential(d, f, mode);
    ghost var middle := session.data.operations;
    var applied;
    applied, unknown := ApplyDeferredProgress(session, batch.deferred);
    progressWritten := batch.appliedInBatch + applied;
    DeferredMatches(d, f, mode, batch.progress);
    Reconcile(session, batch.orders.Keys, mode, prune, at);
    OutsideMembers(batch.progress, batch.docs.Keys);
    OutsideMembers(batch.deferred, middle.Keys);
  }

  lemma {:induction false} OutsideMembers(rs: seq<Report>, inside: set<Id>)
    ensures forall r :: r in Outside(rs, inside) ==> r in rs && r.operationId !in inside
    ensures |Outside(rs, inside)| <= |rs|
  {
    if rs != [] {
      OutsideMembers(rs[..|rs| - 1], inside);
      assert rs == rs[..|rs| - 1] + [rs[|rs| - 1]];
    }
  }

  lemma BatchReferential(d: Data, f: Fetched, mode: SyncMode)
    requires Referential(d)
    ensures Referential(Data(WithOrders(d, f), WithBatch(d, f, mode)))
  {
    forall k | k in Batched(d, f) ensures Batched(d, f)[k].orderId in WithOrders(d, f) {
      ReportsKeepPlan(f.operations[k], ReportsAbout(f, k));
    }
  }

  lemma DeferredMatches(d: Data, f: Fetched, mode: SyncMode, progress: seq<Report>)
    requires forall k :: ReportsAbout(f, k) == ReportsFor(progress, k)
    ensures Reported(WithBatch(d, f, mode), Outside(progress, Batched(d, f).Keys))
         == WithDeferred(WithBatch(d, f, mode), Kept(d, f), f)
  {
    var ops, inside := WithBatch(d, f, mode), Batched(d, f).Keys;
    assert inside == Kept(d, f).Keys;
    DeferredReports(ops, Kept(d, f), f, progress);
  }

  lemma DeferredReports(ops: map<Id, OpDoc>, kept: map<Id, OpDoc>, f: Fetched, progress: seq<Report>)
    requires forall k :: ReportsAbout(f, k) == ReportsFor(progress, k)
    ensures Reported(ops, Outside(progress, kept.Keys)) == WithDeferred(ops, kept, f)
  {
    forall k | k in ops
      ensures ApplyReports(ops[k], ReportsFor(Outside(progress, kept.Keys), k))
           == if k in kept then ops[k] else ApplyReports(ops[k], ReportsAbout(f, k))
    {
      OutsideReports(progress, kept.Keys, k);
    }
  }

  lemma BatchedReports(d: Data, f: Fetched, progress: seq<Report>)
    requires forall k :: ReportsAbout(f, k) == ReportsFor(progress, k)
    ensures Reported(Kept(d, f), progress) == Batched(d, f)
  {
  }

  predicate ReportLeq(a: Report, b: Report) {
    a.reportedAt < b.reportedAt || (a.reportedAt == b.reportedAt && StrLeq(a.operationId, b.operationId))
  }

  lemma ReportLeqOrder()
    ensures Preorder(ReportLeq)
  {
    StrLeqOrder();
    forall a: Report, b: Report, c: Report | ReportLeq(a, b) && ReportLeq(b, c) ensures ReportLeq(a, c) {
      if a.reportedAt == b.reportedAt == c.reportedAt {
        StrLeqTransitive(a.operationId, b.operationId, c.operationId);
      }
    }
    forall a: Report, b: Report ensures ReportLeq(a, b) || ReportLeq(b, a) {
      StrLeqTotal(a.operationId, b.operationId);
    }
  }

  /** A run handles the reports by time, those of one time by the operations' ids, and loses none. */
  lemma ReportsAreChronological(reports: seq<Report>)
    ensures var rs := Sort(ReportLeq, reports);
      && multiset(rs) == multiset(reports)
      && forall i, j :: 0 <= i < j < |rs| ==>
           && rs[i].reportedAt <= rs[j].reportedAt
           && (rs[i].reportedAt == rs[j].reportedAt ==> StrLeq(rs[i].operationId, rs[j].operationId))
  {
    ReportLeqOrder();
    SortSorted(ReportLeq, reports);
    SortMembers(ReportLeq, reports);
  }

  /** The last report about an operation is not earlier than the others about it. */
  lemma {:induction false} LastIsLatest(rs: seq<Report>, k: Id)
    requires forall i, j :: 0 <= i < j < |rs| ==> rs[i].reportedAt <= rs[j].reportedAt
    ensures var mine := ReportsFor(rs, k);
      forall r :: r in mine ==> r.reportedAt <= mine[|mine| - 1].reportedAt
  {
    if rs != [] {
      var front, last := rs[..|rs| - 1], rs[|rs| - 1];
      LastIsLatest(front, k);
      ReportsForMembers(rs, k);
      forall r | r in rs ensures r.reportedAt <= last.reportedAt {
        var j :| 0 <= j < |rs| && rs[j] == r;
      }
      var rest := ReportsFor(front, k);
      assert ReportsFor(rs, k) == if last.operationId == k then rest + [last] else rest;
    }
  }

  /** The operation shows a report about it than which none about it is later. */
  ghost predicate ShowsLatest(op: OpDoc, reports: seq<Report>, k: Id) {
    exists r :: r in reports && r.operationId == k && op.status == r.status && op.lastReport == Some(r.reportedAt)
                && forall q :: q in reports && q.operationId == k ==> q.reportedAt <= r.reportedAt
  }

  /**
   * In whatever order the ERP serves the reports, the one that decides an operation's status after the run is
   * about that operation, and no report about it is later.
   */
  lemma LatestReportDecides(d: Data, orders: map<Id, OrderDoc>, docs: map<Id, OpDoc>, reports: seq<Report>,
                            mode: SyncMode, prune: bool, at: Time, k: Id)
    requires var f := Fetched(orders, docs, Grouped(Sort(ReportLeq, reports)));
      k in Merge(d, f, mode, prune, at).operations
    requires exists r :: r in reports && r.operationId == k
    ensures var f := Fetched(orders, docs, Grouped(Sort(ReportLeq, reports)));
      ShowsLatest(Merge(d, f, mode, prune, at).operations[k], reports, k)
  {
    var sorted := Sort(ReportLeq, reports);
    var f := Fetched(orders, docs, Grouped(sorted));
    ReportsAreChronological(reports);
    SortMembers(ReportLeq, reports);
    GroupedReports(orders, docs, sorted);
    RoutingRefinesFold(d, f, mode, prune, at, k);
    var op := if k in Kept(d, f) then f.operations[k] else d.operations[k];
    LastOfReports(op, sorted, k);
    SameReports(ApplyReports(op, ReportsFor(sorted, k)), sorted, reports, k);
  }

  lemma SameReports(op: OpDoc, rs: seq<Report>, qs: seq<Report>, k: Id)
    requires ShowsLatest(op, rs, k) && forall r :: r in rs <==> r in qs
    ensures ShowsLatest(op, qs, k)
  {
  }

  lemma LastOfReports(op: OpDoc, rs: seq<Report>, k: Id)
    requires forall i, j :: 0 <= i < j < |rs| ==> rs[i].reportedAt <= rs[j].reportedAt
    requires exists r :: r in rs && r.operationId == k
    ensures ShowsLatest(ApplyReports(op, ReportsFor(rs, k)), rs, k)
  {
    ReportsForMembers(rs, k);
    LastIsLatest(rs, k);
    var mine := ReportsFor(rs, k);
    var q :| q in rs && q.operationId == k;
    assert q in mine;
    LastWordWins(op, mine, |mine| - 1);
    var r := mine[|mine| - 1];
    assert r in mine && r in rs && r.operationId == k;
  }

  /** What validation keeps. */
  lemma KeptDocs(d: Data, f: Fetched)
    ensures (map k | k in f.operations && OrderKnown(d, Fetched(f.orders, map[], map[]), f.operations[k].orderId)
               :: f.operations[k]) == Kept(d, f)
  {
  }

  /** Validate, then route the progress: the batch holds its operations with their reports. */
  method Prepare(session: Session, batch: Batch, ghost f: Fetched) returns (unknownOrder: seq<Id>)
    requires batch.Valid() && batch.orders == f.orders && batch.docs == f.operations
    requires batch.deferred == [] && batch.appliedInBatch == 0
    requires forall k :: ReportsAbout(f, k) == ReportsFor(batch.progress, k)
    modifies batch`operations, batch`deferred, batch`appliedInBatch, batch`docs, batch.operations
    ensures batch.Valid() && batch.orders == f.orders && batch.progress == old(batch.progress)
    ensures forall op :: op in batch.operations ==> op in old(batch.operations)
    ensures batch.docs == Batched(session.data, f)
    ensures batch.deferred == Outside(batch.progress, batch.docs.Keys)
    ensures batch.appliedInBatch + |batch.deferred| == |batch.progress|
  {
    unknownOrder := Validate(session, batch);
    KeptDocs(session.data, f);
    ghost var had := old(batch.operations);
    forall i | 0 <= i < |batch.operations| ensures exists j :: 0 <= j < |had| && had[j] == batch.operations[i] {
      assert batch.operations[i] in batch.operations;
    }
    ApplyProgress(batch);
    BatchedReports(session.data, f, batch.progress);
  }

  /** From the normalised batch to the written store: validate, route the progress, upsert. */
  method WriteBatch(session: Session, mode: SyncMode, prune: bool, startedAt: Time,
                    orders: map<Id, OrderDoc>, operations: seq<Operation>, progress: seq<Report>,
                    ghost docs: map<Id, OpDoc>)
    requires Referential(session.data) && DistinctOperations(operations) && Holds(operations, docs)
    modifies session`data, operations
    ensures session.data
         == Merge(old(session.data), Fetched(orders, docs, Grouped(progress)), mode, prune, startedAt)
  {
    ghost var d, f := session.data, Fetched(orders, docs, Grouped(progress));
    var batch := new Batch(orders, operations, progress, docs);
    GroupedReports(orders, docs, progress);
    var issues := Prepare(session, batch, f);
    var written, unknown := Upsert(session, batch, mode, prune, startedAt, f);
  }

  /**
   * One run. The connector's answers are parameters: `fetchFails` when a fetch gave up after its
   * retries, `flushFails` when a later statement raised. Whatever fails, the data of the last commit
   * survives and only a failed row is added; a completed run commits the merge and its row together.
   */
  method Run(session: Session, mode: SyncMode, prune: bool, startedAt: Time,
             orders: map<Id, OrderDoc>, operations: seq<Operation>, reports: seq<Report>,
             fetchFails: bool, flushFails: bool, ghost docs: map<Id, OpDoc>)
    returns (completed: bool, since: Option<Time>)
    requires session.data == session.committedData && session.runs == session.committedRuns
    requires Referential(session.data) && DistinctOperations(operations) && Holds(operations, docs)
    modifies session, operations
    ensures completed <==> !fetchFails && !flushFails
    ensures since == SinceFor(old(session.runs), mode)
    ensures session.data == session.committedData && session.runs == session.committedRuns
    ensures session.runs == old(session.runs) +
              [RunRecord(mode, if completed then COMPLETED_RUN else FAILED_RUN, startedAt)]
    ensures session.data ==
              if completed
              then Merge(old(session.data), Fetched(orders, docs, Grouped(Sort(ReportLeq, reports))),
                         mode, prune, startedAt)
              else old(session.data)
    ensures Referential(session.data)
  {
    since := if mode.FULL? then None else LatestCompleted(session.runs);
    session.runs := session.runs + [RunRecord(mode, RUNNING, startedAt)];
    session.Commit();
    if fetchFails {
      session.Rollback();
      Finish(session, FAILED_RUN);
      return false, since;
    }
    ghost var f := Fetched(orders, docs, Grouped(Sort(ReportLeq, reports)));
    MergeReferential(session.data, f, mode, prune, startedAt);
    WriteBatch(session, mode, prune, startedAt, orders, operations, Sort(ReportLeq, reports), docs);
    if flushFails {
      session.Rollback();
      Finish(session, FAILED_RUN);
      return false, since;
    }
    Finish(session, COMPLETED_RUN);
    return true, since;
  }

  method Finish(session: Session, status: RunStatus)
    requires session.runs != []
    modifies session
    ensures session.data == old(session.data) == session.committedData
    ensures var last := |old(session.runs)| - 1;
            session.runs == old(session.runs)[last := old(session.runs)[last].(status := status)]
    ensures session.committedRuns == session.runs
  {
    var last := |session.runs| - 1;
    session.runs := session.runs[last := session.runs[last].(status := status)];
    session.Commit();
  }
}

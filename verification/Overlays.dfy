/**
 * Planner overlays: priority overrides, holds, moves and schedule locks, what each action does to them
 * and what holds over every history of actions (backend/app/services/override_service.py,
 * lock_service.py, snapshot_service.py, backend/app/domain/models.py).
 */
module Overlays {
  import opened Prelude

  type Id = string
  type Time = int

  datatype LockType = ORDER | MACHINE | SEQUENCE | TIME_SLOT

  datatype OverrideType =
    | INCREASE_PRIORITY | DECREASE_PRIORITY | SET_PRIORITY | FORCE_NEXT
    | HOLD_ORDER | RELEASE_HOLD | MOVE_ORDER | LOCK_MACHINE_ASSIGNMENT

  /** A half-open interval. */
  datatype Window = Window(start: Time, end: Time)

  predicate Overlaps(a: Window, b: Window) {
    a.start < b.end && b.start < a.end
  }

  datatype Lock = Lock(
    id: Id, kind: LockType, createdBy: Id, createdAt: Time, orderId: Option<Id>, machineId: Option<Id>,
    window: Option<Window>, sequence: seq<Id>, active: bool)

  datatype Override = Override(
    id: Id, orderId: Id, kind: OverrideType, createdBy: Id, createdAt: Time, value: Option<int>,
    target: Option<Id>, expiresAt: Option<Time>, active: bool)

  predicate ActiveAt(o: Override, now: Time) {
    o.active && (o.expiresAt.None? || now < o.expiresAt.value)
  }

  predicate LiveAt(l: Lock, now: Time) {
    l.active && (l.window.None? || l.window.value.end > now)
  }

  /**
   * The stored rows, in the order in which they were added. `companions` is history only: it says
   * which move added a lock, and no action reads it.
   */
  datatype Overlay = Overlay(overrides: seq<Override>, locks: seq<Lock>, companions: map<Id, Id>)

  // ------------------------------------------------------------- hold decisions

  predicate IsDecision(o: Override, order: Id, now: Time) {
    o.orderId == order && ActiveAt(o, now) && (o.kind.HOLD_ORDER? || o.kind.RELEASE_HOLD?)
  }

  /** The order in which decisions are ranked: creation time, then id. */
  predicate Later(a: Override, b: Override) {
    a.createdAt > b.createdAt || (a.createdAt == b.createdAt && StrLess(b.id, a.id))
  }

  function LatestDecision(os: seq<Override>, order: Id, now: Time): Option<Override> {
    if os == [] then None
    else
      var latest, o := LatestDecision(os[..|os| - 1], order, now), os[|os| - 1];
      if IsDecision(o, order, now) && (latest.None? || Later(o, latest.value)) then Some(o) else latest
  }

  datatype OrderView = OrderView(isOpen: bool, onHold: bool)

  /** An ERP hold always wins; otherwise the latest planner decision applies. */
  predicate EffectiveHold(v: OrderView, order: Id, os: seq<Override>, now: Time) {
    v.onHold || (LatestDecision(os, order, now).Some? && LatestDecision(os, order, now).value.kind.HOLD_ORDER?)
  }

  /** The latest decision is a decision, and every other one ranks no later. */
  lemma {:induction false} LatestIsMaximum(os: seq<Override>, order: Id, now: Time)
    ensures var r := LatestDecision(os, order, now);
      && (r.Some? ==> r.value in os && IsDecision(r.value, order, now))
      && forall o :: o in os && IsDecision(o, order, now) ==> r.Some? && (o == r.value || !Later(o, r.value))
  {
    if os != [] {
      var rest, last := os[..|os| - 1], os[|os| - 1];
      LatestIsMaximum(rest, order, now);
      assert os == rest + [last];
      forall o | o in os && IsDecision(o, order, now)
        ensures LatestDecision(os, order, now).Some?
        ensures o == LatestDecision(os, order, now).value || !Later(o, LatestDecision(os, order, now).value)
      {
        var r := LatestDecision(rest, order, now);
        if o in rest && r.Some? && r != LatestDecision(os, order, now) {
          LaterTransitive(o, r.value, last);
        }
      }
    }
  }

  lemma LaterTransitive(a: Override, b: Override, c: Override)
    requires a == b || !Later(a, b)
    requires Later(c, b)
    ensures !Later(a, c)
  {
    StrLeqTotal(a.id, b.id);
    StrLeqTotal(a.id, c.id);
    StrLeqTotal(b.id, c.id);
    if StrLeq(a.id, b.id) && StrLeq(b.id, c.id) {
      StrLeqTransitive(a.id, b.id, c.id);
    }
  }

  ghost predicate DistinctOverrides(os: seq<Override>) {
    forall i, j :: 0 <= i < j < |os| ==> os[i].id != os[j].id
  }

  /** The decision depends neither on the order of the rows nor on rows that are not in force. */
  lemma DecisionOrderFree(os: seq<Override>, ps: seq<Override>, order: Id, now: Time)
    requires DistinctOverrides(os) && forall o :: IsDecision(o, order, now) ==> (o in os <==> o in ps)
    ensures LatestDecision(os, order, now) == LatestDecision(ps, order, now)
  {
    LatestIsMaximum(os, order, now);
    LatestIsMaximum(ps, order, now);
    var a, b := LatestDecision(os, order, now), LatestDecision(ps, order, now);
    if a.Some? && b.Some? && a != b {
      var i :| 0 <= i < |os| && os[i] == a.value;
      var j :| 0 <= j < |os| && os[j] == b.value;
      StrLeqTotal(a.value.id, b.value.id);
    }
  }

  // ------------------------------------------------------------ lock conflicts

  predicate Reserves(l: Lock) {
    (l.kind.MACHINE? || l.kind.TIME_SLOT?) && l.machineId.Some? && l.window.Some?
  }

  /** The pairs that a planner may not hold at once. */
  predicate Conflicting(a: Lock, b: Lock) {
    || (Reserves(a) && Reserves(b) && a.machineId == b.machineId && Overlaps(a.window.value, b.window.value))
    || (a.kind.ORDER? && b.kind.ORDER? && a.orderId == b.orderId)
    || (a.kind.SEQUENCE? && b.kind.SEQUENCE? && exists o :: o in a.sequence && o in b.sequence)
  }

  predicate Covers(w: Window, t: Time) {
    w.start <= t < w.end
  }

  /**
   * Overlapping, in instants: two windows overlap exactly when some instant lies in both, or one of them is
   * empty and stands strictly inside the other.
   */
  lemma OverlapsExactly(a: Window, b: Window)
    requires a.start <= a.end && b.start <= b.end
    ensures Overlaps(a, b) <==>
              || (exists t :: Covers(a, t) && Covers(b, t))
              || (a.start == a.end && b.start < a.start < b.end)
              || (b.start == b.end && a.start < b.start < a.end)
  {
    var t := if a.start >= b.start then a.start else b.start;
    if Overlaps(a, b) && a.start < a.end && b.start < b.end {
      assert Covers(a, t) && Covers(b, t);
    }
  }

  /** A lock that reserves time on this machine, has not been released and is not over. */
  predicate HoldsMachine(l: Lock, machine: Id, now: Time) {
    && l.active && (l.kind == MACHINE || l.kind == TIME_SLOT) && l.machineId == Some(machine)
    && l.window.Some? && now < l.window.value.end
  }

  /** Some instant of the window is reserved already. */
  ghost predicate Booked(ls: seq<Lock>, machine: Id, w: Window, now: Time) {
    exists i, t :: 0 <= i < |ls| && HoldsMachine(ls[i], machine, now) && Covers(ls[i].window.value, t) && Covers(w, t)
  }

  /** For reservations: a conflict is an instant that both would have, as long as no window is empty. */
  lemma ConflictIsSharedInstant(l: Lock, machine: Id, ls: seq<Lock>, now: Time)
    requires HoldsMachine(l, machine, now)
    ensures Booked(ls, machine, l.window.value, now) ==>
              exists i :: 0 <= i < |ls| && LiveAt(ls[i], now) && Conflicting(l, ls[i])
    ensures (l.window.value.start < l.window.value.end
             && forall i :: 0 <= i < |ls| && ls[i].window.Some? ==> ls[i].window.value.start < ls[i].window.value.end)
            && (exists i :: 0 <= i < |ls| && LiveAt(ls[i], now) && Conflicting(l, ls[i])) ==>
              Booked(ls, machine, l.window.value, now)
  {
    if i, t :| 0 <= i < |ls| && HoldsMachine(ls[i], machine, now) && Covers(ls[i].window.value, t)
               && Covers(l.window.value, t) {
      assert LiveAt(ls[i], now) && Conflicting(l, ls[i]);
    }
    if i :| 0 <= i < |ls| && LiveAt(ls[i], now) && Conflicting(l, ls[i]) {
      var a, b := ls[i].window.value, l.window.value;
      if a.start < a.end && b.start < b.end {
        OverlapsExactly(a, b);
        var t :| Covers(a, t) && Covers(b, t);
        assert HoldsMachine(ls[i], machine, now);
      }
    }
  }

  // ---------------------------------------------------------------- actions

  datatype Action =
    | Adjust(override: Override)              // increase or decrease
    | Replace(override: Override)             // set priority, force next, lock machine assignment
    | Hold(override: Override)
    | Release(override: Override)
    | Move(override: Override, lock: Lock)
    | Cancel(index: nat)
    | Create(lock: Lock)
    | Unlock(index: nat)

  function Deactivated(os: seq<Override>, order: Id, kind: OverrideType): (r: seq<Override>)
    ensures |r| == |os|
  {
    seq(|os|, i requires 0 <= i < |os| =>
      if os[i].orderId == order && os[i].kind == kind then os[i].(active := false) else os[i])
  }

  type Key = (Id, Time, Option<Id>)

  /** The keys under which the moves of an order filed their locks. */
  function MoveKeys(os: seq<Override>, order: Id, creator: Option<Id>): set<Key> {
    set i | 0 <= i < |os| && os[i].orderId == order && os[i].kind.MOVE_ORDER?
            && (creator.None? || os[i].createdBy == creator.value) :: (os[i].createdBy, os[i].createdAt, os[i].target)
  }

  predicate FiledUnder(l: Lock, order: Id, keys: set<Key>) {
    l.orderId == Some(order) && (l.kind.ORDER? || l.kind.TIME_SLOT?)
    && (l.createdBy, l.createdAt, l.machineId) in keys
  }

  function Released(ls: seq<Lock>, order: Id, keys: set<Key>): (r: seq<Lock>)
    ensures |r| == |ls|
  {
    seq(|ls|, i requires 0 <= i < |ls| => if FiledUnder(ls[i], order, keys) then ls[i].(active := false) else ls[i])
  }

  /** What an action leaves behind; cancelling or unlocking a row that does not exist changes nothing. */
  function Effect(s: Overlay, a: Action): Overlay {
    match a
    case Adjust(o) => s.(overrides := s.overrides + [o])
    case Replace(o) => s.(overrides := Deactivated(s.overrides, o.orderId, o.kind) + [o])
    case Hold(o) => s.(overrides := Deactivated(s.overrides, o.orderId, RELEASE_HOLD) + [o])
    case Release(o) => s.(overrides := Deactivated(s.overrides, o.orderId, HOLD_ORDER) + [o])
    case Move(o, l) =>
      var os := Deactivated(Deactivated(s.overrides, o.orderId, MOVE_ORDER), o.orderId, LOCK_MACHINE_ASSIGNMENT);
      Overlay(os + [o], Released(s.locks, o.orderId, MoveKeys(os, o.orderId, None)) + [l], s.companions[l.id := o.id])
    case Cancel(i) =>
      if i >= |s.overrides| then s else
      var o := s.overrides[i];
      var os := s.overrides[i := o.(active := false)];
      if o.kind.MOVE_ORDER?
      then s.(overrides := os, locks := Released(s.locks, o.orderId, MoveKeys(os, o.orderId, Some(o.createdBy))))
      else s.(overrides := os)
    case Create(l) => s.(locks := s.locks + [l])
    case Unlock(i) => if i >= |s.locks| then s else s.(locks := s.locks[i := s.locks[i].(active := false)])
  }

  const MINUTE: Time := 60_000_000

  function Max(a: int, b: int): int {
    if a >= b then a else b
  }

  /** The companion lock of a move: a slot when a start was given, else a pin that ends with the move. */
  function MoveLock(o: Override, id: Id, start: Option<Time>, duration: Time): Lock {
    Lock(id, if start.Some? then TIME_SLOT else ORDER, o.createdBy, o.createdAt, Some(o.orderId), o.target,
         if start.Some? then Some(Window(start.value, start.value + Max(duration, MINUTE)))
         else if o.expiresAt.Some? then Some(Window(o.createdAt, o.expiresAt.value)) else None,
         [], true)
  }

  /** A slot of the machine's minutes, of one minute at least; without a start a pin that ends with the move. */
  lemma MoveLockReads(o: Override, id: Id, start: Option<Time>, duration: Time)
    ensures var l := MoveLock(o, id, start, duration);
      && l.id == id && l.active && l.createdBy == o.createdBy && l.createdAt == o.createdAt
      && l.orderId == Some(o.orderId) && l.machineId == o.target && l.sequence == []
      && (start.Some? ==>
            && l.kind == TIME_SLOT && l.window.Some? && l.window.value.start == start.value
            && var length := l.window.value.end - l.window.value.start;
               length >= duration && length >= 60_000_000 && (length == duration || length == 60_000_000))
      && (start.None? && o.expiresAt.Some? ==>
            l.kind == ORDER && l.window == Some(Window(o.createdAt, o.expiresAt.value)))
      && (start.None? && o.expiresAt.None? ==> l.kind == ORDER && l.window.None?)
  {
  }

  predicate FreshOverride(s: Overlay, o: Override, now: Time) {
    && o.active && o.createdAt == now && (o.expiresAt.Some? ==> o.expiresAt.value > now)
    && forall i :: 0 <= i < |s.overrides| ==> s.overrides[i].id != o.id
  }

  predicate FreshLock(s: Overlay, l: Lock, now: Time) {
    && l.active && l.createdAt == now && l.id !in s.companions
    && forall i :: 0 <= i < |s.locks| ==> s.locks[i].id != l.id
  }

  /** What the services check before they write. */
  ghost predicate Enabled(s: Overlay, a: Action, now: Time) {
    match a
    case Adjust(o) => FreshOverride(s, o, now) && (o.kind.INCREASE_PRIORITY? || o.kind.DECREASE_PRIORITY?)
    case Replace(o) =>
      FreshOverride(s, o, now) && (o.kind.SET_PRIORITY? || o.kind.FORCE_NEXT? || o.kind.LOCK_MACHINE_ASSIGNMENT?)
    case Hold(o) =>
      FreshOverride(s, o, now) && o.kind.HOLD_ORDER?
      && !EffectiveHold(OrderView(true, false), o.orderId, s.overrides, now)
    case Release(o) =>
      FreshOverride(s, o, now) && o.kind.RELEASE_HOLD? && o.expiresAt.None?
      && EffectiveHold(OrderView(true, false), o.orderId, s.overrides, now)
    case Move(o, l) =>
      FreshOverride(s, o, now) && o.kind.MOVE_ORDER? && o.target.Some? && FreshLock(s, l, now)
      && exists start, duration :: l == MoveLock(o, l.id, start, duration)
    case Cancel(i) => i < |s.overrides| && s.overrides[i].active
    case Create(l) =>
      FreshLock(s, l, now) && (l.kind.MACHINE? || l.kind.TIME_SLOT? ==> Reserves(l))
      && forall i :: 0 <= i < |s.locks| && LiveAt(s.locks[i], now) ==> !Conflicting(l, s.locks[i])
    case Unlock(i) => i < |s.locks| && s.locks[i].active
  }

  // -------------------------------------------------------------- invariants

  predicate OnePerOrder(kind: OverrideType) {
    kind.SET_PRIORITY? || kind.FORCE_NEXT? || kind.MOVE_ORDER? || kind.LOCK_MACHINE_ASSIGNMENT?
  }

  ghost predicate SingleOverrides(s: Overlay) {
    forall i, j :: (0 <= i < j < |s.overrides| && s.overrides[i].active && s.overrides[j].active
                    && s.overrides[i].orderId == s.overrides[j].orderId
                    && s.overrides[i].kind == s.overrides[j].kind) ==>
      !OnePerOrder(s.overrides[i].kind)
  }

  ghost predicate CompanionOf(l: Lock, o: Override) {
    && o.kind.MOVE_ORDER? && l.orderId == Some(o.orderId) && (l.kind.ORDER? || l.kind.TIME_SLOT?)
    && (l.createdBy, l.createdAt, l.machineId) == (o.createdBy, o.createdAt, o.target)
  }

  /** Every active companion lock belongs to a move that is still active. */
  ghost predicate LocksFollowMoves(s: Overlay) {
    forall j :: 0 <= j < |s.locks| && s.locks[j].active && s.locks[j].id in s.companions ==>
      exists i :: 0 <= i < |s.overrides| && s.overrides[i].id == s.companions[s.locks[j].id]
                  && s.overrides[i].active && CompanionOf(s.locks[j], s.overrides[i])
  }

  ghost predicate SingleDecisions(s: Overlay, now: Time) {
    forall i, j :: (0 <= i < |s.overrides| && 0 <= j < |s.overrides|
                    && IsDecision(s.overrides[i], s.overrides[i].orderId, now)
                    && IsDecision(s.overrides[j], s.overrides[i].orderId, now)) ==> i == j
  }

  /** Two live locks conflict only if the later one was added by a move. */
  ghost predicate Disjoint(s: Overlay, now: Time) {
    forall i, j :: (0 <= i < j < |s.locks| && LiveAt(s.locks[i], now) && LiveAt(s.locks[j], now)
                    && Conflicting(s.locks[j], s.locks[i])) ==>
      s.locks[j].id in s.companions && !s.locks[j].kind.SEQUENCE?
  }

  ghost predicate Tidy(s: Overlay) {
    && DistinctOverrides(s.overrides)
    && (forall i, j :: 0 <= i < j < |s.locks| ==> s.locks[i].id != s.locks[j].id)
    && (forall k :: k in s.companions ==> exists j :: 0 <= j < |s.locks| && s.locks[j].id == k)
  }

  ghost predicate Inv(s: Overlay, now: Time) {
    Tidy(s) && SingleOverrides(s) && LocksFollowMoves(s) && SingleDecisions(s, now) && Disjoint(s, now)
  }

  lemma OverridesStayDistinct(s: Overlay, a: Action, now: Time)
    requires DistinctOverrides(s.overrides) && Enabled(s, a, now)
    ensures DistinctOverrides(Effect(s, a).overrides)
  {
  }

  lemma LocksStayDistinct(s: Overlay, a: Action, now: Time)
    requires forall i, j :: 0 <= i < j < |s.locks| ==> s.locks[i].id != s.locks[j].id
    requires Enabled(s, a, now)
    ensures forall i, j :: 0 <= i < j < |Effect(s, a).locks| ==> Effect(s, a).locks[i].id != Effect(s, a).locks[j].id
  {
  }

  lemma LocksKeepPlaces(s: Overlay, a: Action)
    ensures |s.locks| <= |Effect(s, a).locks|
    ensures forall i :: 0 <= i < |s.locks| ==> Effect(s, a).locks[i].id == s.locks[i].id
  {
  }

  lemma TidyKept(s: Overlay, a: Action, now: Time)
    requires Tidy(s) && Enabled(s, a, now)
    ensures Tidy(Effect(s, a))
  {
    var s' := Effect(s, a);
    OverridesStayDistinct(s, a, now);
    LocksStayDistinct(s, a, now);
    LocksKeepPlaces(s, a);
    forall k | k in s'.companions ensures exists j :: 0 <= j < |s'.locks| && s'.locks[j].id == k {
      if k in s.companions {
        var j :| 0 <= j < |s.locks| && s.locks[j].id == k;
        assert s'.locks[j].id == k;
      } else {
        assert s'.locks[|s.locks|].id == k;
      }
    }
  }

  lemma SingleOverridesKept(s: Overlay, a: Action, now: Time)
    requires SingleOverrides(s) && Enabled(s, a, now)
    ensures SingleOverrides(Effect(s, a))
  {
  }

  /** With a single decision in force, whether the order is held says what that decision is. */
  lemma OneKindOfDecision(s: Overlay, order: Id, now: Time)
    requires SingleDecisions(s, now)
    ensures forall i :: 0 <= i < |s.overrides| && IsDecision(s.overrides[i], order, now) ==>
              (s.overrides[i].kind.HOLD_ORDER? <==> EffectiveHold(OrderView(true, false), order, s.overrides, now))
  {
    LatestIsMaximum(s.overrides, order, now);
    forall i | 0 <= i < |s.overrides| && IsDecision(s.overrides[i], order, now)
      ensures LatestDecision(s.overrides, order, now) == Some(s.overrides[i])
    {
      assert s.overrides[i] in s.overrides;
      var k :| 0 <= k < |s.overrides| && s.overrides[k] == LatestDecision(s.overrides, order, now).value;
      assert i == k;
    }
  }

  lemma SingleDecisionsKept(s: Overlay, a: Action, now: Time)
    requires SingleDecisions(s, now) && Enabled(s, a, now)
    ensures SingleDecisions(Effect(s, a), now)
  {
    var s' := Effect(s, a);
    if a.Hold? || a.Release? {
      LatestIsMaximum(s.overrides, a.override.orderId, now);
      OneKindOfDecision(s, a.override.orderId, now);
    }
  }

  lemma DisjointKept(s: Overlay, a: Action, now: Time)
    requires Tidy(s) && Disjoint(s, now) && Enabled(s, a, now)
    ensures Disjoint(Effect(s, a), now)
  {
    var s' := Effect(s, a);
    forall i, j | 0 <= i < j < |s'.locks| && LiveAt(s'.locks[i], now) && LiveAt(s'.locks[j], now)
                  && Conflicting(s'.locks[j], s'.locks[i])
      ensures s'.locks[j].id in s'.companions && !s'.locks[j].kind.SEQUENCE?
    {
      if j < |s.locks| {
        assert s'.locks[i] == s.locks[i] && s'.locks[j] == s.locks[j];
      }
    }
  }

  lemma LocksFollowMovesKept(s: Overlay, a: Action, now: Time)
    requires Tidy(s) && SingleOverrides(s) && LocksFollowMoves(s) && Enabled(s, a, now)
    ensures LocksFollowMoves(Effect(s, a))
  {
    var s' := Effect(s, a);
    forall j | 0 <= j < |s'.locks| && s'.locks[j].active && s'.locks[j].id in s'.companions
      ensures exists i :: 0 <= i < |s'.overrides| && s'.overrides[i].id == s'.companions[s'.locks[j].id]
                          && s'.overrides[i].active && CompanionOf(s'.locks[j], s'.overrides[i])
    {
      if j < |s.locks| {
        OldLockFollows(s, a, now, j);
      } else {
        assert s'.overrides[|s.overrides|] == a.override;
      }
    }
  }

  lemma OldLockFollows(s: Overlay, a: Action, now: Time, j: nat)
    requires Tidy(s) && SingleOverrides(s) && LocksFollowMoves(s) && Enabled(s, a, now)
    requires var s' := Effect(s, a);
      j < |s.locks| && j < |s'.locks| && s'.locks[j].active && s'.locks[j].id in s'.companions
    ensures var s' := Effect(s, a);
      exists i :: 0 <= i < |s'.overrides| && s'.overrides[i].id == s'.companions[s'.locks[j].id]
                  && s'.overrides[i].active && CompanionOf(s'.locks[j], s'.overrides[i])
  {
    var s' := Effect(s, a);
    RowsStay(s, a);
    CompanionsStay(s, a, now, j);
    var i :| 0 <= i < |s.overrides| && s.overrides[i].id == s.companions[s.locks[j].id]
             && s.overrides[i].active && CompanionOf(s.locks[j], s.overrides[i]);
    LockEndsWithMove(s, a, now, i, j);
    assert s'.overrides[i] == s.overrides[i];
  }

  /** An action that ends a move releases the lock filed with it. */
  lemma LockEndsWithMove(s: Overlay, a: Action, now: Time, i: nat, j: nat)
    requires Tidy(s) && SingleOverrides(s) && Enabled(s, a, now)
    requires i < |s.overrides| && j < |s.locks| && s.overrides[i].active && CompanionOf(s.locks[j], s.overrides[i])
    ensures Effect(s, a).overrides[i] == s.overrides[i] || !Effect(s, a).locks[j].active
  {
    var o := s.overrides[i];
    var key := (o.createdBy, o.createdAt, o.target);
    if a.Move? && a.override.orderId == o.orderId {
      var os := Deactivated(Deactivated(s.overrides, o.orderId, MOVE_ORDER), o.orderId, LOCK_MACHINE_ASSIGNMENT);
      assert os[i].createdBy == o.createdBy && os[i].kind == o.kind;
      assert key in MoveKeys(os, o.orderId, None);
      assert FiledUnder(s.locks[j], o.orderId, MoveKeys(os, o.orderId, None));
    } else if a.Cancel? && a.index == i {
      var os := s.overrides[i := o.(active := false)];
      assert os[i].createdBy == o.createdBy && os[i].kind == o.kind;
      assert key in MoveKeys(os, o.orderId, Some(o.createdBy));
      assert FiledUnder(s.locks[j], o.orderId, MoveKeys(os, o.orderId, Some(o.createdBy)));
    }
  }

  lemma ActionKeepsInv(s: Overlay, a: Action, now: Time)
    requires Inv(s, now) && Enabled(s, a, now)
    ensures Inv(Effect(s, a), now)
  {
    TidyKept(s, a, now);
    SingleOverridesKept(s, a, now);
    SingleDecisionsKept(s, a, now);
    DisjointKept(s, a, now);
    LocksFollowMovesKept(s, a, now);
  }

  /** Time only takes overrides and locks out of force. */
  lemma ClockKeepsInv(s: Overlay, now: Time, later: Time)
    requires Inv(s, now) && now <= later
    ensures Inv(s, later)
  {
  }

  // ----------------------------------------------------------------- histories

  /** An action and the instant at which it is taken. */
  datatype Event = Event(at: Time, action: Action)

  function After(s: Overlay, es: seq<Event>): Overlay {
    if es == [] then s else Effect(After(s, es[..|es| - 1]), es[|es| - 1].action)
  }

  /** A history: the clock never goes back, and every action was enabled when it was taken. */
  ghost predicate History(s: Overlay, es: seq<Event>) {
    es == []
    || (History(s, es[..|es| - 1])
        && (|es| > 1 ==> es[|es| - 2].at <= es[|es| - 1].at)
        && Enabled(After(s, es[..|es| - 1]), es[|es| - 1].action, es[|es| - 1].at))
  }

  const EMPTY: Overlay := Overlay([], [], map[])

  /**
   * Over every history and at every later instant: companion locks follow their moves, an order has at
   * most one active override of each exclusive kind and at most one hold decision in force, and live
   * reservations are disjoint except where a move added the later one.
   */
  lemma {:induction false} HistoriesKeepInv(es: seq<Event>, now: Time)
    requires History(EMPTY, es)
    requires es != [] ==> es[|es| - 1].at <= now
    ensures Inv(After(EMPTY, es), now)
    decreases |es|
  {
    if es != [] {
      var front, last := es[..|es| - 1], es[|es| - 1];
      HistoriesKeepInv(front, last.at);
      ActionKeepsInv(After(EMPTY, front), last.action, last.at);
      ClockKeepsInv(After(EMPTY, es), last.at, now);
    }
  }

  /** Over every history an order has at most one active request of each of these kinds. */
  lemma OneRequestPerKind(es: seq<Event>, i: nat, j: nat)
    requires History(EMPTY, es)
    requires var os := After(EMPTY, es).overrides;
      && i < |os| && j < |os| && os[i].active && os[j].active && os[i].orderId == os[j].orderId
      && os[i].kind == os[j].kind
      && os[i].kind in {SET_PRIORITY, FORCE_NEXT, MOVE_ORDER, LOCK_MACHINE_ASSIGNMENT}
    ensures i == j
  {
    HistoriesKeepInv(es, if es == [] then 0 else es[|es| - 1].at);
  }

  /** Without moves, the live reservations of a machine never overlap, and no order is locked twice. */
  lemma {:induction false} NoMovesNoConflicts(es: seq<Event>, now: Time)
    requires History(EMPTY, es) && forall e :: e in es ==> !e.action.Move?
    requires es != [] ==> es[|es| - 1].at <= now
    ensures var ls := After(EMPTY, es).locks;
      forall i, j :: 0 <= i < j < |ls| && LiveAt(ls[i], now) && LiveAt(ls[j], now) ==> !Conflicting(ls[j], ls[i])
  {
    HistoriesKeepInv(es, now);
    NoMovesNoCompanions(es);
  }

  /** In instants: without moves, no machine is ever reserved twice for one instant. */
  lemma NoDoubleBooking(es: seq<Event>, now: Time, machine: Id, i: nat, j: nat, t: Time)
    requires History(EMPTY, es) && forall e :: e in es ==> !e.action.Move?
    requires es != [] ==> es[|es| - 1].at <= now
    requires var ls := After(EMPTY, es).locks;
      i < j < |ls| && HoldsMachine(ls[i], machine, now) && HoldsMachine(ls[j], machine, now)
    ensures var ls := After(EMPTY, es).locks;
      var a, b := ls[i].window.value, ls[j].window.value;
      !(a.start <= t < a.end && b.start <= t < b.end)
  {
    var ls := After(EMPTY, es).locks;
    NoMovesNoConflicts(es, now);
    assert LiveAt(ls[i], now) && LiveAt(ls[j], now);
    assert !Conflicting(ls[j], ls[i]);
  }

  lemma {:induction false} NoMovesNoCompanions(es: seq<Event>)
    requires forall e :: e in es ==> !e.action.Move?
    ensures After(EMPTY, es).companions == map[]
    decreases |es|
  {
    if es != [] {
      assert es[|es| - 1] in es;
      NoMovesNoCompanions(es[..|es| - 1]);
    }
  }

  /** Right after a hold the order is held, and right after a release it is not, unless the ERP holds it. */
  lemma HoldTakesEffect(s: Overlay, a: Action, now: Time, v: OrderView)
    requires Inv(s, now) && Enabled(s, a, now) && (a.Hold? || a.Release?)
    ensures EffectiveHold(v, a.override.orderId, Effect(s, a).overrides, now) <==> v.onHold || a.Hold?
  {
    SingleDecisionsKept(s, a, now);
    OneKindOfDecision(Effect(s, a), a.override.orderId, now);
    var os := Effect(s, a).overrides;
    assert os[|os| - 1] == a.override && IsDecision(os[|os| - 1], a.override.orderId, now);
  }

  /** Until anything else is decided, a hold lasts exactly until it expires, and a release for good. */
  lemma HoldLastsUntilItExpires(s: Overlay, a: Action, now: Time, v: OrderView, later: Time)
    requires Inv(s, now) && Enabled(s, a, now) && (a.Hold? || a.Release?) && now <= later
    ensures EffectiveHold(v, a.override.orderId, Effect(s, a).overrides, later) <==>
              v.onHold || (a.Hold? && (a.override.expiresAt.None? || later < a.override.expiresAt.value))
  {
    var order, os := a.override.orderId, Effect(s, a).overrides;
    SingleDecisionsKept(s, a, now);
    LatestIsMaximum(os, order, later);
    assert os[|os| - 1] == a.override && IsDecision(a.override, order, now);
    forall o | o in os && IsDecision(o, order, later) ensures o == a.override {
      var i :| 0 <= i < |os| && os[i] == o;
      assert IsDecision(os[i], os[i].orderId, now) && IsDecision(os[|os| - 1], os[i].orderId, now);
    }
    assert a.override in os;
  }

  /** A companion slot has a window. */
  ghost predicate SlotsBounded(s: Overlay) {
    forall j :: 0 <= j < |s.locks| && s.locks[j].id in s.companions && s.locks[j].kind.TIME_SLOT? ==>
      s.locks[j].window.Some?
  }

  /** A companion pin ends with its move. */
  ghost predicate PinsEndWithMoves(s: Overlay) {
    forall i, j :: (0 <= j < |s.locks| && s.locks[j].id in s.companions && s.locks[j].kind.ORDER?
                    && 0 <= i < |s.overrides| && s.overrides[i].id == s.companions[s.locks[j].id]) ==>
      s.locks[j].window == Lifetime(s.overrides[i])
  }

  function Lifetime(o: Override): Option<Window> {
    if o.expiresAt.Some? then Some(Window(o.createdAt, o.expiresAt.value)) else None
  }

  /** No action changes anything of a row but whether it is active. */
  lemma RowsStay(s: Overlay, a: Action)
    ensures var s' := Effect(s, a);
      && |s.overrides| <= |s'.overrides| && |s.locks| <= |s'.locks|
      && (forall i :: 0 <= i < |s.overrides| ==> s'.overrides[i] == s.overrides[i].(active := s'.overrides[i].active))
      && (forall j :: 0 <= j < |s.locks| ==> s'.locks[j] == s.locks[j].(active := s'.locks[j].active))
  {
  }

  /** Companions refer to moves that exist. */
  ghost predicate MovesExist(s: Overlay) {
    forall k :: k in s.companions ==> exists i :: 0 <= i < |s.overrides| && s.overrides[i].id == s.companions[k]
  }

  lemma MovesExistKept(s: Overlay, a: Action)
    requires MovesExist(s)
    ensures MovesExist(Effect(s, a))
  {
    var s' := Effect(s, a);
    RowsStay(s, a);
    forall k | k in s'.companions
      ensures exists i :: 0 <= i < |s'.overrides| && s'.overrides[i].id == s'.companions[k]
    {
      if k in s.companions && s'.companions[k] == s.companions[k] {
        var i :| 0 <= i < |s.overrides| && s.overrides[i].id == s.companions[k];
        assert s'.overrides[i].id == s'.companions[k];
      } else {
        assert s'.overrides[|s.overrides|].id == s'.companions[k];
      }
    }
  }

  lemma SlotsStayBounded(s: Overlay, a: Action, now: Time)
    requires SlotsBounded(s) && Tidy(s) && Enabled(s, a, now)
    ensures SlotsBounded(Effect(s, a))
  {
    RowsStay(s, a);
  }

  /** The pin that a move adds. */
  lemma NewPin(s: Overlay, a: Action, now: Time)
    requires Enabled(s, a, now) && a.Move? && a.lock.kind.ORDER?
    ensures a.lock.window == Lifetime(a.override)
  {
  }

  lemma PinsStay(s: Overlay, a: Action, now: Time)
    requires PinsEndWithMoves(s) && MovesExist(s) && Tidy(s) && Enabled(s, a, now)
    ensures PinsEndWithMoves(Effect(s, a))
  {
    var s' := Effect(s, a);
    RowsStay(s, a);
    OverridesStayDistinct(s, a, now);
    forall i, j | 0 <= j < |s'.locks| && s'.locks[j].id in s'.companions && s'.locks[j].kind.ORDER?
                  && 0 <= i < |s'.overrides| && s'.overrides[i].id == s'.companions[s'.locks[j].id]
      ensures s'.locks[j].window == Lifetime(s'.overrides[i])
    {
      if j < |s.locks| {
        OldPinStays(s, a, now, i, j);
      } else {
        NewPin(s, a, now);
        assert s'.overrides[|s.overrides|].id == s'.overrides[i].id;
      }
    }
  }

  /** A new lock has a new id, so the origin of an old one stays. */
  lemma CompanionsStay(s: Overlay, a: Action, now: Time, j: nat)
    requires Enabled(s, a, now) && j < |s.locks| && s.locks[j].id in Effect(s, a).companions
    ensures s.locks[j].id in s.companions && Effect(s, a).companions[s.locks[j].id] == s.companions[s.locks[j].id]
  {
  }

  lemma OldPinStays(s: Overlay, a: Action, now: Time, i: nat, j: nat)
    requires PinsEndWithMoves(s) && MovesExist(s) && Tidy(s) && Enabled(s, a, now)
    requires DistinctOverrides(Effect(s, a).overrides)
    requires var s' := Effect(s, a);
      && j < |s.locks| && j < |s'.locks| && s'.locks[j].id in s'.companions && s'.locks[j].kind.ORDER?
      && i < |s'.overrides| && s'.overrides[i].id == s'.companions[s'.locks[j].id]
    ensures Effect(s, a).locks[j].window == Lifetime(Effect(s, a).overrides[i])
  {
    var s' := Effect(s, a);
    RowsStay(s, a);
    CompanionsStay(s, a, now, j);
    var k :| 0 <= k < |s.overrides| && s.overrides[k].id == s.companions[s.locks[j].id];
    assert s'.overrides[k].id == s'.overrides[i].id;
    assert k == i;
  }

  lemma {:induction false} HistoriesKeepShapes(es: seq<Event>)
    requires History(EMPTY, es)
    ensures SlotsBounded(After(EMPTY, es)) && PinsEndWithMoves(After(EMPTY, es)) && MovesExist(After(EMPTY, es))
    decreases |es|
  {
    if es != [] {
      var front, last := es[..|es| - 1], es[|es| - 1];
      HistoriesKeepShapes(front);
      HistoriesKeepInv(front, last.at);
      MovesExistKept(After(EMPTY, front), last.action);
      SlotsStayBounded(After(EMPTY, front), last.action, last.at);
      PinsStay(After(EMPTY, front), last.action, last.at);
    }
  }

  /**
   * Over every history, exactly when a companion lock is live although its move is not in force: it is a
   * slot, the move expired (it was neither cancelled nor replaced), and the slot ends later.
   */
  lemma CompanionOutlivesMoveExactly(es: seq<Event>, now: Time, i: nat, j: nat)
    requires History(EMPTY, es) && (es != [] ==> es[|es| - 1].at <= now)
    requires var s := After(EMPTY, es);
      && i < |s.overrides| && j < |s.locks| && s.locks[j].id in s.companions
      && s.overrides[i].id == s.companions[s.locks[j].id]
    ensures var l, o := After(EMPTY, es).locks[j], After(EMPTY, es).overrides[i];
      LiveAt(l, now) && !ActiveAt(o, now) <==>
        l.active && l.kind.TIME_SLOT? && l.window.Some?
        && o.expiresAt.Some? && o.expiresAt.value <= now < l.window.value.end
  {
    var s := After(EMPTY, es);
    HistoriesKeepInv(es, now);
    HistoriesKeepShapes(es);
    if s.locks[j].active {
      var k :| 0 <= k < |s.overrides| && s.overrides[k].id == s.companions[s.locks[j].id]
               && s.overrides[k].active && CompanionOf(s.locks[j], s.overrides[k]);
      assert k == i;
    }
  }

  // --------------------------------------------- locks made by the lock service

  predicate IsManual(s: Overlay, j: nat)
    requires j < |s.locks|
  {
    s.locks[j].id !in s.companions
  }

  predicate SharesKey(l: Lock, o: Override) {
    o.kind.MOVE_ORDER? && FiledUnder(l, o.orderId, {(o.createdBy, o.createdAt, o.target)})
  }

  /** Cancelling a move releases exactly the active locks that share a key with a move of the same creator. */
  lemma CancelReleasesExactly(s: Overlay, i: nat, j: nat)
    requires i < |s.overrides| && s.overrides[i].kind.MOVE_ORDER?
    requires j < |s.locks| && s.locks[j].active
    ensures !Effect(s, Cancel(i)).locks[j].active <==>
              exists k :: 0 <= k < |s.overrides| && s.overrides[k].orderId == s.overrides[i].orderId
                          && s.overrides[k].createdBy == s.overrides[i].createdBy
                          && SharesKey(s.locks[j], s.overrides[k])
  {
    var o := s.overrides[i];
    var os := s.overrides[i := o.(active := false)];
    var keys := MoveKeys(os, o.orderId, Some(o.createdBy));
    forall k | 0 <= k < |s.overrides|
      ensures os[k].orderId == s.overrides[k].orderId && os[k].createdBy == s.overrides[k].createdBy
      ensures os[k].kind == s.overrides[k].kind && os[k].createdAt == s.overrides[k].createdAt
      ensures os[k].target == s.overrides[k].target
    {
    }
    var key := (s.locks[j].createdBy, s.locks[j].createdAt, s.locks[j].machineId);
    if key in keys {
      var k :| 0 <= k < |os| && os[k].orderId == o.orderId && os[k].kind.MOVE_ORDER? && os[k].createdBy == o.createdBy
               && (os[k].createdBy, os[k].createdAt, os[k].target) == key;
      assert FiledUnder(s.locks[j], o.orderId, keys) ==> SharesKey(s.locks[j], s.overrides[k]);
    }
    if k :| 0 <= k < |s.overrides| && s.overrides[k].orderId == o.orderId
            && s.overrides[k].createdBy == o.createdBy && SharesKey(s.locks[j], s.overrides[k]) {
      assert os[k].kind.MOVE_ORDER? && (os[k].createdBy, os[k].createdAt, os[k].target) == key;
      assert key in keys;
    }
  }

  predicate Strict(es: seq<Event>) {
    forall i, j :: 0 <= i < j < |es| ==> es[i].at < es[j].at
  }

  /** The creation times of overrides and of locks that no move added. */
  ghost predicate TimesApart(s: Overlay, now: Time) {
    && (forall i :: 0 <= i < |s.overrides| ==> s.overrides[i].createdAt <= now)
    && (forall j :: 0 <= j < |s.locks| ==> s.locks[j].createdAt <= now)
    && (forall i, j :: 0 <= i < |s.overrides| && 0 <= j < |s.locks| && IsManual(s, j) ==>
          s.overrides[i].createdAt != s.locks[j].createdAt)
  }

  lemma TimesStayApart(s: Overlay, a: Action, before: Time, now: Time)
    requires TimesApart(s, before) && before < now && Tidy(s) && Enabled(s, a, now)
    ensures TimesApart(Effect(s, a), now)
  {
    RowsKeepCreation(s, a, now);
  }

  /** Existing rows keep their creation time and origin; an action adds an override or a manual lock, not both. */
  lemma RowsKeepCreation(s: Overlay, a: Action, now: Time)
    requires Tidy(s) && Enabled(s, a, now)
    ensures var s' := Effect(s, a);
      && |s.overrides| <= |s'.overrides| <= |s.overrides| + 1 && |s.locks| <= |s'.locks| <= |s.locks| + 1
      && (forall i :: 0 <= i < |s.overrides| ==> s'.overrides[i].createdAt == s.overrides[i].createdAt)
      && (forall i :: |s.overrides| <= i < |s'.overrides| ==> s'.overrides[i].createdAt == now)
      && (forall j :: 0 <= j < |s.locks| ==>
            s'.locks[j].createdAt == s.locks[j].createdAt && (IsManual(s', j) <==> IsManual(s, j)))
      && (forall j :: |s.locks| <= j < |s'.locks| ==>
            s'.locks[j].createdAt == now && (IsManual(s', j) ==> |s'.overrides| == |s.overrides|))
  {
  }

  lemma {:induction false} StrictHistoriesKeepTimesApart(es: seq<Event>)
    requires es != [] && History(EMPTY, es) && Strict(es)
    ensures TimesApart(After(EMPTY, es), es[|es| - 1].at)
    decreases |es|
  {
    var front, last := es[..|es| - 1], es[|es| - 1];
    if front == [] {
      TimesStayApart(EMPTY, last.action, last.at - 1, last.at);
    } else {
      StrictHistoriesKeepTimesApart(front);
      HistoriesKeepInv(front, last.at);
      TimesStayApart(After(EMPTY, front), last.action, front[|front| - 1].at, last.at);
    }
  }

  /** When the clock advances between actions, only unlocking releases a lock made by the lock service. */
  lemma ManualLocksSurvive(es: seq<Event>, e: Event, j: nat)
    requires es != [] && History(EMPTY, es + [e]) && Strict(es + [e])
    requires j < |After(EMPTY, es).locks| && IsManual(After(EMPTY, es), j) && After(EMPTY, es).locks[j].active
    requires e.action != Unlock(j)
    ensures j < |After(EMPTY, es + [e]).locks| && After(EMPTY, es + [e]).locks[j].active
  {
    var all, s := es + [e], After(EMPTY, es);
    assert all[..|all| - 1] == es;
    assert Strict(es) by {
      assert forall i :: 0 <= i < |es| ==> es[i] == all[i];
    }
    StrictHistoriesKeepTimesApart(es);
    if e.action.Move? {
      var os := Deactivated(Deactivated(s.overrides, e.action.override.orderId, MOVE_ORDER),
                            e.action.override.orderId, LOCK_MACHINE_ASSIGNMENT);
      assert forall i :: 0 <= i < |os| ==> os[i].createdAt == s.overrides[i].createdAt;
    } else if e.action.Cancel? && e.action.index < |s.overrides| && s.overrides[e.action.index].kind.MOVE_ORDER? {
      CancelReleasesExactly(s, e.action.index, j);
    }
  }

  /**
   * When the clock advances between actions, cancelling an active move releases its own companion lock and
   * no other.
   */
  lemma CancelReleasesOwnLock(es: seq<Event>, now: Time, i: nat, j: nat)
    requires es != [] && History(EMPTY, es) && Strict(es) && es[|es| - 1].at < now
    requires var s := After(EMPTY, es);
      && i < |s.overrides| && s.overrides[i].active && s.overrides[i].kind.MOVE_ORDER?
      && j < |s.locks| && s.locks[j].active
    ensures var s := After(EMPTY, es);
      !Effect(s, Cancel(i)).locks[j].active
      <==> s.locks[j].id in s.companions && s.companions[s.locks[j].id] == s.overrides[i].id
  {
    var s := After(EMPTY, es);
    StrictHistoriesKeepTimesApart(es);
    HistoriesKeepInv(es, now);
    CancelReleasesExactly(s, i, j);
    if !IsManual(s, j) {
      var k :| 0 <= k < |s.overrides| && s.overrides[k].id == s.companions[s.locks[j].id]
               && s.overrides[k].active && CompanionOf(s.locks[j], s.overrides[k]);
      if k == i {
        LockEndsWithMove(s, Cancel(i), now, i, j);
      }
    }
  }

  /** A move may reserve a slot that is already taken; only the moves are exempt from the check. */
  lemma MoveMayOverlap(a: Lock, o: Override, now: Time)
    requires FreshOverride(EMPTY, o, now) && o.kind.MOVE_ORDER? && o.target.Some? && o.id != a.id
    requires FreshLock(EMPTY, a, now) && Reserves(a) && a.machineId == o.target
    requires a.window.value.start < a.window.value.end
    requires now < a.window.value.end
    ensures exists b ::
      && Enabled(Effect(EMPTY, Create(a)), Move(o, b), now)
      && var s := Effect(Effect(EMPTY, Create(a)), Move(o, b));
         LiveAt(s.locks[0], now) && LiveAt(s.locks[1], now) && Conflicting(s.locks[1], s.locks[0])
  {
    var b := MoveLock(o, o.id, Some(a.window.value.start), a.window.value.end - a.window.value.start);
    var s := Effect(Effect(EMPTY, Create(a)), Move(o, b));
    assert Enabled(Effect(EMPTY, Create(a)), Move(o, b), now);
    assert s.locks[1] == b;
  }

  ghost predicate NoConflicts(ls: seq<Lock>, now: Time) {
    forall i, j :: 0 <= i < j < |ls| && LiveAt(ls[i], now) && LiveAt(ls[j], now) ==> !Conflicting(ls[j], ls[i])
  }

  /** A live lock that a move of the order would keep. */
  predicate KeptLive(s: Overlay, order: Id, i: nat, now: Time)
    requires i < |s.locks|
  {
    LiveAt(s.locks[i], now) && !FiledUnder(s.locks[i], order, MoveKeys(s.overrides, order, None))
  }

  /** What a planner can look at before moving an order: no lock that stays conflicts with the new one. */
  ghost predicate MoveIsFree(s: Overlay, o: Override, l: Lock, now: Time) {
    LiveAt(l, now) ==> forall i :: 0 <= i < |s.locks| && KeptLive(s, o.orderId, i, now) ==> !Conflicting(l, s.locks[i])
  }

  lemma DeactivationKeepsKeys(os: seq<Override>, order: Id, other: Id, kind: OverrideType, creator: Option<Id>)
    ensures MoveKeys(Deactivated(os, other, kind), order, creator) == MoveKeys(os, order, creator)
  {
    var ps := Deactivated(os, other, kind);
    assert forall i :: 0 <= i < |os| ==> ps[i] == os[i].(active := ps[i].active);
  }

  lemma LocksAfterMove(s: Overlay, o: Override, l: Lock)
    ensures Effect(s, Move(o, l)).locks == Released(s.locks, o.orderId, MoveKeys(s.overrides, o.orderId, None)) + [l]
  {
    var k, os := o.orderId, Deactivated(s.overrides, o.orderId, MOVE_ORDER);
    DeactivationKeepsKeys(s.overrides, k, k, MOVE_ORDER, None);
    DeactivationKeepsKeys(os, k, k, LOCK_MACHINE_ASSIGNMENT, None);
  }

  /** A move leaves no two conflicting live locks exactly when none that it keeps conflicts with its own. */
  lemma MoveOverlapsExactly(s: Overlay, o: Override, l: Lock, now: Time)
    requires NoConflicts(s.locks, now) && Enabled(s, Move(o, l), now)
    ensures NoConflicts(Effect(s, Move(o, l)).locks, now) <==> MoveIsFree(s, o, l, now)
  {
    LocksAfterMove(s, o, l);
    var ls, n := Effect(s, Move(o, l)).locks, |s.locks|;
    assert ls[n] == l;
    forall i | 0 <= i < n ensures LiveAt(ls[i], now) <==> KeptLive(s, o.orderId, i, now) {
    }
    assert forall i :: 0 <= i < n && LiveAt(ls[i], now) ==> ls[i] == s.locks[i];
  }

  /** Every other enabled action keeps live locks free of conflicts. */
  lemma OthersAddNoConflict(s: Overlay, a: Action, now: Time)
    requires NoConflicts(s.locks, now) && Enabled(s, a, now) && !a.Move?
    ensures NoConflicts(Effect(s, a).locks, now)
  {
    var s' := Effect(s, a);
    RowsStay(s, a);
    assert forall i :: 0 <= i < |s.locks| && LiveAt(s'.locks[i], now) ==> s'.locks[i] == s.locks[i];
  }

  /** At every instant up to the next event, and after the last one at every later instant. */
  ghost predicate NeverConflicting(es: seq<Event>) {
    forall k, now :: 0 < k <= |es| && es[k - 1].at <= now && (k < |es| ==> now <= es[k].at) ==>
      NoConflicts(After(EMPTY, es[..k]).locks, now)
  }

  ghost predicate MovesAreFree(es: seq<Event>) {
    forall k :: 0 <= k < |es| && es[k].action.Move? ==>
      MoveIsFree(After(EMPTY, es[..k]), es[k].action.override, es[k].action.lock, es[k].at)
  }

  /** The event at `k` was enabled in the state that the earlier ones left. */
  lemma {:induction false} EventAt(es: seq<Event>, k: nat)
    requires History(EMPTY, es) && k < |es|
    ensures After(EMPTY, es[..k + 1]) == Effect(After(EMPTY, es[..k]), es[k].action)
    ensures Enabled(After(EMPTY, es[..k]), es[k].action, es[k].at)
    ensures k > 0 ==> es[k - 1].at <= es[k].at
    decreases |es|
  {
    assert es[..k + 1][..k] == es[..k];
    if k < |es| - 1 {
      var front := es[..|es| - 1];
      EventAt(front, k);
      assert front[..k] == es[..k];
    }
  }

  /** Over every history: live locks never conflict exactly when no move took what a lock that it kept had reserved. */
  lemma NeverConflictingExactly(es: seq<Event>)
    requires History(EMPTY, es)
    ensures NeverConflicting(es) <==> MovesAreFree(es)
  {
    if NeverConflicting(es) {
      forall k | 0 <= k < |es| && es[k].action.Move?
        ensures MoveIsFree(After(EMPTY, es[..k]), es[k].action.override, es[k].action.lock, es[k].at)
      {
        PeacefulMove(es, k);
      }
    }
    if MovesAreFree(es) {
      forall k, now | 0 < k <= |es| && es[k - 1].at <= now ensures NoConflicts(After(EMPTY, es[..k]).locks, now) {
        FreeMovesKeepPeace(es, k);
        ConflictsOnlyPass(After(EMPTY, es[..k]).locks, es[k - 1].at, now);
      }
    }
  }

  lemma PeacefulMove(es: seq<Event>, k: nat)
    requires History(EMPTY, es) && NeverConflicting(es) && k < |es| && es[k].action.Move?
    ensures MoveIsFree(After(EMPTY, es[..k]), es[k].action.override, es[k].action.lock, es[k].at)
  {
    EventAt(es, k);
    if k + 1 < |es| {
      EventAt(es, k + 1);
    }
    PeaceAt(es, k, es[k].at);
    PeaceAt(es, k + 1, es[k].at);
    assert es[k].action == Move(es[k].action.override, es[k].action.lock);
    MoveOverlapsExactly(After(EMPTY, es[..k]), es[k].action.override, es[k].action.lock, es[k].at);
  }

  lemma PeaceAt(es: seq<Event>, k: nat, now: Time)
    requires NeverConflicting(es) && k <= |es|
    requires (k > 0 ==> es[k - 1].at <= now) && (k < |es| ==> now <= es[k].at)
    ensures NoConflicts(After(EMPTY, es[..k]).locks, now)
  {
  }

  lemma ConflictsOnlyPass(ls: seq<Lock>, now: Time, later: Time)
    requires NoConflicts(ls, now) && now <= later
    ensures NoConflicts(ls, later)
  {
  }

  lemma {:induction false} FreeMovesKeepPeace(es: seq<Event>, k: nat)
    requires History(EMPTY, es) && MovesAreFree(es) && 0 < k <= |es|
    ensures NoConflicts(After(EMPTY, es[..k]).locks, es[k - 1].at)
  {
    var e, s := es[k - 1], After(EMPTY, es[..k - 1]);
    EventAt(es, k - 1);
    if k > 1 {
      FreeMovesKeepPeace(es, k - 1);
      ConflictsOnlyPass(s.locks, es[k - 2].at, e.at);
    }
    if e.action.Move? {
      MoveOverlapsExactly(s, e.action.override, e.action.lock, e.at);
    } else {
      OthersAddNoConflict(s, e.action, e.at);
    }
  }
}

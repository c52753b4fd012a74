/** The planner's services over the overlay rows; each action is proved to be one step of `Overlays`. */
module OverlayServices {
  import opened Prelude
  import opened Overlays

  datatype Error = NotFound | Conflict | Validation

  /** Rows differ only in that some active ones of one kind on one order are not active any more. */
  ghost predicate OnlyDeactivated(before: seq<Override>, after: seq<Override>, order: Id, kind: OverrideType) {
    && |after| == |before|
    && forall i :: 0 <= i < |before| ==>
         || after[i] == before[i]
         || (before[i].orderId == order && before[i].kind == kind && before[i].active
             && after[i] == before[i].(active := false))
  }

  class OverlayStore {
    var overrides: seq<Override>
    var locks: seq<Lock>
    ghost var companions: map<Id, Id>

    constructor ()
      ensures View() == EMPTY
    {
      overrides, locks, companions := [], [], map[];
    }

    ghost function View(): Overlay
      reads this
    {
      Overlay(overrides, locks, companions)
    }

    ghost predicate FreshId(id: Id)
      reads this
    {
      && id !in companions
      && (forall i :: 0 <= i < |overrides| ==> overrides[i].id != id)
      && (forall j :: 0 <= j < |locks| ==> locks[j].id != id)
    }

    /** The overrides in force, in whatever order the query lists them. */
    method ListActive(now: Time) returns (active: seq<Override>)
      ensures forall o :: o in active <==> o in overrides && ActiveAt(o, now)
    {
      active := [];
      for i := 0 to |overrides|
        invariant forall o :: o in active <==> o in overrides[..i] && ActiveAt(o, now)
      {
        assert overrides[..i + 1] == overrides[..i] + [overrides[i]];
        if ActiveAt(overrides[i], now) {
          active := active + [overrides[i]];
        }
      }
      assert overrides[..|overrides|] == overrides;
    }

    /** No override of that kind stays active on the order; nothing else changes. */
    method Deactivate(order: Id, kind: OverrideType)
      modifies this`overrides
      ensures OnlyDeactivated(old(overrides), overrides, order, kind)
      ensures forall o :: o in overrides && o.orderId == order && o.kind == kind ==> !o.active
      ensures overrides == Deactivated(old(overrides), order, kind)
    {
      ghost var start := overrides;
      for i := 0 to |overrides|
        invariant OnlyDeactivated(start, overrides, order, kind)
        invariant forall k :: 0 <= k < i && overrides[k].orderId == order && overrides[k].kind == kind ==>
                    !overrides[k].active
      {
        if overrides[i].orderId == order && overrides[i].active && overrides[i].kind == kind {
          overrides := overrides[i := overrides[i].(active := false)];
        }
      }
    }

    /** Release the companion locks of the moves of an order, all of them or one creator's. */
    method ReleaseMoveLocks(order: Id, creator: Option<Id>)
      modifies this`locks
      ensures locks == Released(old(locks), order, MoveKeys(overrides, order, creator))
    {
      var keys := MoveKeys(overrides, order, creator);
      ghost var start := locks;
      for j := 0 to |locks|
        invariant |locks| == |start|
        invariant forall k :: 0 <= k < |locks| ==>
                    locks[k] == if k < j && FiledUnder(start[k], order, keys)
                                then start[k].(active := false) else start[k]
      {
        var l := locks[j];
        if l.orderId == Some(order) && l.active && (l.kind.ORDER? || l.kind.TIME_SLOT?) {
          if (l.createdBy, l.createdAt, l.machineId) in keys {
            locks := locks[j := l.(active := false)];
          }
        }
      }
    }
  }

  /** The most recent hold decision, by a running comparison. */
  method LatestHoldDecision(order: Id, os: seq<Override>, now: Time) returns (latest: Option<Override>)
    ensures latest == LatestDecision(os, order, now)
  {
    latest := None;
    for i := 0 to |os|
      invariant latest == LatestDecision(os[..i], order, now)
    {
      assert os[..i + 1][..i] == os[..i];
      if os[i].orderId == order && ActiveAt(os[i], now) {
        if os[i].kind.HOLD_ORDER? || os[i].kind.RELEASE_HOLD? {
          if latest.None? || Later(os[i], latest.value) {
            latest := Some(os[i]);
          }
        }
      }
    }
    assert os[..|os|] == os;
  }

  function Prepared(order: Id, reason: string, expiresAt: Option<Time>, now: Time, orders: map<Id, OrderView>):
    Result<(), Error>
  {
    if !ReasonOk(reason) then Err(Validation)
    else if order !in orders then Err(NotFound)
    else if !orders[order].isOpen then Err(Conflict)
    else if expiresAt.Some? && expiresAt.value <= now then Err(Validation)
    else Ok(())
  }

  /** Which requests about an order get through, and what refuses the others. */
  lemma PreparedExactly(order: Id, reason: string, expiresAt: Option<Time>, now: Time, orders: map<Id, OrderView>)
    ensures var r := Prepared(order, reason, expiresAt, now, orders);
      var known, open := order in orders, order in orders && orders[order].isOpen;
      && (r.Ok? <==> ReasonOk(reason) && open && (expiresAt.None? || now < expiresAt.value))
      && (r == Err(NotFound) <==> ReasonOk(reason) && !known)
      && (r == Err(Conflict) <==> ReasonOk(reason) && known && !open)
      && (r == Err(Validation) <==> !ReasonOk(reason) || (open && expiresAt.Some? && expiresAt.value <= now))
  {
  }

  /** Synced orders and machines, and the clock, at the time of a request. */
  datatype Context = Context(now: Time, orders: map<Id, OrderView>, machines: set<Id>, lockWindow: Time)

  class OverrideService {
    const db: OverlayStore

    constructor (db: OverlayStore)
      ensures this.db == db
    {
      this.db := db;
    }

    method Add(o: Override)
      modifies db`overrides
      ensures db.overrides == old(db.overrides) + [o]
    {
      db.overrides := db.overrides + [o];
    }

    method AdjustPriority(order: Id, raise: bool, points: int, user: Id, reason: string, expiresAt: Option<Time>,
                          c: Context, id: Id)
      returns (r: Result<(), Error>)
      requires db.FreshId(id)
      modifies db
      ensures r == if points <= 0 || points > 100 then Err(Validation)
                   else Prepared(order, reason, expiresAt, c.now, c.orders)
      ensures r.Err? ==> db.View() == old(db.View())
      ensures r.Ok? ==>
                var a := Adjust(Override(id, order, if raise then INCREASE_PRIORITY else DECREASE_PRIORITY, user, c.now,
                                         Some(points), None, expiresAt, true));
                Enabled(old(db.View()), a, c.now) && db.View() == Effect(old(db.View()), a)
    {
      if points <= 0 || points > 100 {
        return Err(Validation);
      }
      r := Prepared(order, reason, expiresAt, c.now, c.orders);
      if r.Ok? {
        Add(Override(id, order, if raise then INCREASE_PRIORITY else DECREASE_PRIORITY, user, c.now, Some(points), None,
                     expiresAt, true));
      }
    }

    method SetPriority(order: Id, score: int, user: Id, reason: string, expiresAt: Option<Time>, c: Context, id: Id)
      returns (r: Result<(), Error>)
      requires db.FreshId(id)
      modifies db
      ensures r == if score < 0 || score > 100 then Err(Validation)
                   else Prepared(order, reason, expiresAt, c.now, c.orders)
      ensures r.Err? ==> db.View() == old(db.View())
      ensures r.Ok? ==>
                var a := Replace(Override(id, order, SET_PRIORITY, user, c.now, Some(score), None, expiresAt, true));
                Enabled(old(db.View()), a, c.now) && db.View() == Effect(old(db.View()), a)
    {
      if score < 0 || score > 100 {
        return Err(Validation);
      }
      r := Prepared(order, reason, expiresAt, c.now, c.orders);
      if r.Ok? {
        db.Deactivate(order, SET_PRIORITY);
        Add(Override(id, order, SET_PRIORITY, user, c.now, Some(score), None, expiresAt, true));
      }
    }

    method ForceNext(order: Id, user: Id, reason: string, expiresAt: Option<Time>, c: Context, id: Id)
      returns (r: Result<(), Error>)
      requires db.FreshId(id)
      modifies db
      ensures r == Prepared(order, reason, expiresAt, c.now, c.orders)
      ensures r.Err? ==> db.View() == old(db.View())
      ensures r.Ok? ==>
                var a := Replace(Override(id, order, FORCE_NEXT, user, c.now, None, None, expiresAt, true));
                Enabled(old(db.View()), a, c.now) && db.View() == Effect(old(db.View()), a)
    {
      r := Prepared(order, reason, expiresAt, c.now, c.orders);
      if r.Ok? {
        db.Deactivate(order, FORCE_NEXT);
        Add(Override(id, order, FORCE_NEXT, user, c.now, None, None, expiresAt, true));
      }
    }

    /** Is the order held by the ERP, by a planner, or not at all? */
    method HoldState(order: Id, c: Context) returns (onHold: bool, current: Option<Override>)
      requires order in c.orders && DistinctOverrides(db.overrides)
      ensures onHold == EffectiveHold(c.orders[order], order, db.overrides, c.now)
      ensures current.Some? <==> onHold && !c.orders[order].onHold
    {
      var active := db.ListActive(c.now);
      DecisionOrderFree(db.overrides, active, order, c.now);
      if c.orders[order].onHold {
        return true, None;
      }
      var decision := LatestHoldDecision(order, active, c.now);
      if decision.Some? && decision.value.kind.HOLD_ORDER? {
        return true, decision;
      }
      return false, None;
    }

    method HoldOrder(order: Id, user: Id, reason: string, expiresAt: Option<Time>, c: Context, id: Id)
      returns (r: Result<(), Error>)
      requires db.FreshId(id) && DistinctOverrides(db.overrides)
      modifies db
      ensures r == if Prepared(order, reason, expiresAt, c.now, c.orders).Ok?
                      && EffectiveHold(c.orders[order], order, old(db.overrides), c.now)
                   then Err(Conflict) else Prepared(order, reason, expiresAt, c.now, c.orders)
      ensures r.Err? ==> db.View() == old(db.View())
      ensures r.Ok? ==>
                var a := Hold(Override(id, order, HOLD_ORDER, user, c.now, None, None, expiresAt, true));
                Enabled(old(db.View()), a, c.now) && db.View() == Effect(old(db.View()), a)
    {
      r := Prepared(order, reason, expiresAt, c.now, c.orders);
      if r.Ok? {
        var onHold, current := HoldState(order, c);
        if onHold {
          return Err(Conflict);
        }
        db.Deactivate(order, RELEASE_HOLD);
        Add(Override(id, order, HOLD_ORDER, user, c.now, None, None, expiresAt, true));
      }
    }

    /** Only a planner's hold can be released here; one set in the ERP has to be released there. */
    method ReleaseOrder(order: Id, user: Id, reason: string, c: Context, id: Id) returns (r: Result<(), Error>)
      requires db.FreshId(id) && DistinctOverrides(db.overrides)
      modifies db
      ensures r == if Prepared(order, reason, None, c.now, c.orders).Ok?
                      && (c.orders[order].onHold || !EffectiveHold(c.orders[order], order, old(db.overrides), c.now))
                   then Err(Conflict) else Prepared(order, reason, None, c.now, c.orders)
      ensures r.Err? ==> db.View() == old(db.View())
      ensures r.Ok? ==>
                var a := Release(Override(id, order, RELEASE_HOLD, user, c.now, None, None, None, true));
                Enabled(old(db.View()), a, c.now) && db.View() == Effect(old(db.View()), a)
    {
      r := Prepared(order, reason, None, c.now, c.orders);
      if r.Ok? {
        var onHold, current := HoldState(order, c);
        if !onHold || current.None? {
          return Err(Conflict);
        }
        db.Deactivate(order, HOLD_ORDER);
        Add(Override(id, order, RELEASE_HOLD, user, c.now, None, None, None, true));
      }
    }

    /** `eligibility` is the constraint engine's answer: the minutes on the machine, or a refusal. */
    method MoveOrder(order: Id, machine: Id, user: Id, reason: string, start: Option<Time>, expiresAt: Option<Time>,
                     eligibility: Result<Time, Error>, c: Context, id: Id, lockId: Id)
      returns (r: Result<(), Error>)
      requires db.FreshId(id) && db.FreshId(lockId)
      modifies db
      ensures r == MoveAllowed(order, machine, reason, start, expiresAt, eligibility, c)
      ensures r.Err? ==> db.View() == old(db.View())
      ensures r.Ok? ==>
                var o := Override(id, order, MOVE_ORDER, user, c.now, None, Some(machine), expiresAt, true);
                var a := Move(o, MoveLock(o, lockId, start, eligibility.value));
                Enabled(old(db.View()), a, c.now) && db.View() == Effect(old(db.View()), a)
    {
      r := MoveAllowed(order, machine, reason, start, expiresAt, eligibility, c);
      if r.Ok? {
        var o := Override(id, order, MOVE_ORDER, user, c.now, None, Some(machine), expiresAt, true);
        db.Deactivate(order, MOVE_ORDER);
        db.Deactivate(order, LOCK_MACHINE_ASSIGNMENT);
        db.ReleaseMoveLocks(order, None);
        Add(o);
        db.locks := db.locks + [MoveLock(o, lockId, start, eligibility.value)];
        db.companions := db.companions[lockId := id];
      }
    }

    method LockMachineAssignment(order: Id, machine: Id, user: Id, reason: string, expiresAt: Option<Time>,
                                 eligibility: Result<Time, Error>, c: Context, id: Id)
      returns (r: Result<(), Error>)
      requires db.FreshId(id)
      modifies db
      ensures r == MoveAllowed(order, machine, reason, None, expiresAt, eligibility, c)
      ensures r.Err? ==> db.View() == old(db.View())
      ensures r.Ok? ==>
                var a := Replace(Override(id, order, LOCK_MACHINE_ASSIGNMENT, user, c.now, None, Some(machine),
                                          expiresAt, true));
                Enabled(old(db.View()), a, c.now) && db.View() == Effect(old(db.View()), a)
    {
      r := MoveAllowed(order, machine, reason, None, expiresAt, eligibility, c);
      if r.Ok? {
        db.Deactivate(order, LOCK_MACHINE_ASSIGNMENT);
        Add(Override(id, order, LOCK_MACHINE_ASSIGNMENT, user, c.now, None, Some(machine), expiresAt, true));
      }
    }

    /** Cancelling a move releases its companion lock as well. */
    method CancelOverride(id: Id, reason: string) returns (r: Result<(), Error>)
      requires DistinctOverrides(db.overrides)
      modifies db
      ensures r.Ok? <==> ReasonOk(reason) && exists i :: 0 <= i < |old(db.overrides)| && old(db.overrides)[i].id == id
                                                         && old(db.overrides)[i].active
      ensures r.Err? ==> db.View() == old(db.View())
      ensures r.Ok? ==>
                exists i :: 0 <= i < |old(db.overrides)| && old(db.overrides)[i].id == id
                  && Enabled(old(db.View()), Cancel(i), 0) && db.View() == Effect(old(db.View()), Cancel(i))
    {
      if !ReasonOk(reason) {
        return Err(Validation);
      }
      var i := 0;
      while i < |db.overrides| && db.overrides[i].id != id
        invariant 0 <= i <= |db.overrides|
        invariant forall k :: 0 <= k < i ==> db.overrides[k].id != id
      {
        i := i + 1;
      }
      if i == |db.overrides| {
        return Err(NotFound);
      }
      var current := db.overrides[i];
      if !current.active {
        return Err(Conflict);
      }
      db.overrides := db.overrides[i := current.(active := false)];
      if current.kind.MOVE_ORDER? {
        db.ReleaseMoveLocks(current.orderId, Some(current.createdBy));
      }
      assert db.View() == Effect(old(db.View()), Cancel(i));
      return Ok(());
    }
  }

  function MoveAllowed(order: Id, machine: Id, reason: string, start: Option<Time>, expiresAt: Option<Time>,
                       eligibility: Result<Time, Error>, c: Context): Result<(), Error>
  {
    var prepared := Prepared(order, reason, expiresAt, c.now, c.orders);
    if prepared.Err? then prepared
    else if start.Some? && start.value <= c.now then Err(Validation)
    else if machine !in c.machines then Err(NotFound)
    else if start.Some? && expiresAt.Some? && start.value >= expiresAt.value then Err(Validation)
    else if eligibility.Err? then Err(eligibility.error)
    else Ok(())
  }

  /** A move gets through exactly when it lies ahead, before its own expiry, on a machine that may take the order. */
  lemma MoveAllowedExactly(order: Id, machine: Id, reason: string, start: Option<Time>, expiresAt: Option<Time>,
                           eligibility: Result<Time, Error>, c: Context)
    ensures MoveAllowed(order, machine, reason, start, expiresAt, eligibility, c).Ok? <==>
              && ReasonOk(reason) && order in c.orders && c.orders[order].isOpen && machine in c.machines
              && (expiresAt.Some? ==> c.now < expiresAt.value)
              && (start.Some? ==> c.now < start.value)
              && (start.Some? && expiresAt.Some? ==> start.value < expiresAt.value)
              && eligibility.Ok?
    ensures eligibility != Err(NotFound) ==>
              MoveAllowed(order, machine, reason, start, expiresAt, eligibility, c) == Err(NotFound) ==>
                order !in c.orders || machine !in c.machines
    ensures eligibility != Err(Conflict) ==>
              MoveAllowed(order, machine, reason, start, expiresAt, eligibility, c) == Err(Conflict) ==>
                order in c.orders && !c.orders[order].isOpen
  {
    PreparedExactly(order, reason, expiresAt, c.now, c.orders);
  }

  // ------------------------------------------------------------- lock service

  datatype LockRequest = LockRequest(
    kind: LockType, orderId: Option<Id>, machineId: Option<Id>, start: Option<Time>, end: Option<Time>,
    sequence: seq<Id>)

  function OpenOrder(order: Id, c: Context): Result<(), Error> {
    if order !in c.orders then Err(NotFound) else if c.orders[order].isOpen then Ok(()) else Err(Conflict)
  }

  /** The reserved interval: the request's, completed from the clock and the configured length. */
  function WindowFor(q: LockRequest, c: Context): Result<Option<Window>, Error> {
    if q.start.None? && q.end.None? then
      if q.kind.ORDER? || q.kind.SEQUENCE? then Ok(None)
      else if c.lockWindow < 0 then Err(Validation)
      else Ok(Some(Window(c.now, c.now + c.lockWindow)))
    else
      var start := q.start.GetOr(c.now);
      var end := q.end.GetOr(start + c.lockWindow);
      if end <= start || end <= c.now then Err(Validation) else Ok(Some(Window(start, end)))
  }

  /** Which window a request gets: bounds that are missing are filled in, and it must not be over. */
  lemma WindowCases(q: LockRequest, c: Context)
    ensures match (q.start, q.end)
      case (Some(s), Some(e)) =>
        WindowFor(q, c) == if s < e && c.now < e then Ok(Some(Window(s, e))) else Err(Validation)
      case (Some(s), None) =>
        WindowFor(q, c) == if 0 < c.lockWindow && c.now < s + c.lockWindow then Ok(Some(Window(s, s + c.lockWindow)))
                           else Err(Validation)
      case (None, Some(e)) => WindowFor(q, c) == if c.now < e then Ok(Some(Window(c.now, e))) else Err(Validation)
      case (None, None) =>
        match q.kind
        case ORDER | SEQUENCE => WindowFor(q, c) == Ok(None)
        case MACHINE | TIME_SLOT =>
          WindowFor(q, c) == if 0 <= c.lockWindow then Ok(Some(Window(c.now, c.now + c.lockWindow)))
                             else Err(Validation)
  {
  }

  predicate DistinctIds(s: seq<Id>) {
    forall i, j :: 0 <= i < j < |s| ==> s[i] != s[j]
  }

  function FirstClosed(s: seq<Id>, c: Context): Result<(), Error> {
    if s == [] then Ok(())
    else if OpenOrder(s[0], c).Err? then OpenOrder(s[0], c)
    else FirstClosed(s[1..], c)
  }

  /** Empty ids in a requested sequence are ignored. */
  function NonEmpty(s: seq<Id>): seq<Id> {
    if s == [] then [] else (if s[0] == "" then [] else [s[0]]) + NonEmpty(s[1..])
  }

  /** Everything that is checked before the conflicts; the result is the window. */
  function Checked(q: LockRequest, reason: string, c: Context): Result<Option<Window>, Error> {
    var sequence := NonEmpty(q.sequence);
    if !ReasonOk(reason) then Err(Validation)
    else if q.machineId.Some? && q.machineId.value !in c.machines then Err(NotFound)
    else if q.orderId.Some? && OpenOrder(q.orderId.value, c).Err? then Err(OpenOrder(q.orderId.value, c).error)
    else
      match q.kind
      case ORDER => if q.orderId.None? then Err(Validation) else WindowFor(q, c)
      case MACHINE => if q.machineId.None? then Err(Validation) else WindowFor(q, c)
      case TIME_SLOT => if q.machineId.None? then Err(Validation) else WindowFor(q, c)
      case SEQUENCE =>
        if |sequence| < 2 || !DistinctIds(sequence) then Err(Validation)
        else if FirstClosed(sequence, c).Err? then Err(FirstClosed(sequence, c).error)
        else WindowFor(q, c)
  }

  /** A checked reservation names its machine and has a window, which lies ahead unless none was given. */
  lemma CheckedReservation(q: LockRequest, reason: string, c: Context)
    requires (q.kind.MACHINE? || q.kind.TIME_SLOT?) && Checked(q, reason, c).Ok?
    ensures q.machineId.Some? && q.machineId.value in c.machines && Checked(q, reason, c).value.Some?
    ensures var w := Checked(q, reason, c).value.value;
      if q.start.None? && q.end.None? then w == Window(c.now, c.now + c.lockWindow) && 0 <= c.lockWindow
      else w.start < w.end && c.now < w.end
           && w.start == q.start.GetOr(c.now) && (q.end.Some? ==> w.end == q.end.value)
           && (q.end.None? ==> w.end == w.start + c.lockWindow)
  {
  }

  lemma {:induction false} AllOpen(s: seq<Id>, c: Context)
    ensures FirstClosed(s, c).Ok? <==> forall o :: o in s ==> o in c.orders && c.orders[o].isOpen
    ensures FirstClosed(s, c) != Err(Validation)
    ensures FirstClosed(s, c) == Err(NotFound) ==> exists o :: o in s && o !in c.orders
    ensures FirstClosed(s, c) == Err(Conflict) ==> exists o :: o in s && o in c.orders && !c.orders[o].isOpen
  {
    if s != [] {
      AllOpen(s[1..], c);
      assert s == [s[0]] + s[1..];
    }
  }

  lemma {:induction false} EmptyIdsIgnored(s: seq<Id>)
    ensures forall o :: multiset(NonEmpty(s))[o] == if o == "" then 0 else multiset(s)[o]
    ensures forall o :: o in NonEmpty(s) <==> o in s && o != ""
  {
    if s != [] {
      EmptyIdsIgnored(s[1..]);
      assert s == [s[0]] + s[1..];
    }
  }

  /** Which lock requests get as far as the conflict check, kind by kind. */
  lemma CheckedExactly(q: LockRequest, reason: string, c: Context)
    ensures Checked(q, reason, c).Ok? <==>
              && ReasonOk(reason) && WindowFor(q, c).Ok?
              && (q.machineId.Some? ==> q.machineId.value in c.machines)
              && (q.orderId.Some? ==> q.orderId.value in c.orders && c.orders[q.orderId.value].isOpen)
              && match q.kind
                 case ORDER => q.orderId.Some?
                 case MACHINE | TIME_SLOT => q.machineId.Some?
                 case SEQUENCE =>
                   && |NonEmpty(q.sequence)| >= 2
                   && (forall i, j :: 0 <= i < j < |NonEmpty(q.sequence)| ==>
                         NonEmpty(q.sequence)[i] != NonEmpty(q.sequence)[j])
                   && (forall o :: o in q.sequence && o != "" ==> o in c.orders && c.orders[o].isOpen)
    ensures Checked(q, reason, c).Ok? ==> Checked(q, reason, c) == WindowFor(q, c)
  {
    AllOpen(NonEmpty(q.sequence), c);
    EmptyIdsIgnored(q.sequence);
  }

  /** What a missing row or a closed order has to do with a refusal. */
  lemma CheckedRefusals(q: LockRequest, reason: string, c: Context)
    ensures Checked(q, reason, c) == Err(NotFound) ==>
              || (q.machineId.Some? && q.machineId.value !in c.machines)
              || (q.orderId.Some? && q.orderId.value !in c.orders)
              || (exists o :: o in q.sequence && o != "" && o !in c.orders)
    ensures Checked(q, reason, c) == Err(Conflict) ==>
              || (q.orderId.Some? && q.orderId.value in c.orders && !c.orders[q.orderId.value].isOpen)
              || (exists o :: o in q.sequence && o in c.orders && !c.orders[o].isOpen)
  {
    AllOpen(NonEmpty(q.sequence), c);
    EmptyIdsIgnored(q.sequence);
  }

  class LockService {
    const db: OverlayStore

    constructor (db: OverlayStore)
      ensures this.db == db
    {
      this.db := db;
    }

    /** Does a live lock conflict with the requested one? */
    method CheckConflicts(l: Lock, now: Time) returns (conflict: bool)
      ensures conflict <==> exists i :: 0 <= i < |db.locks| && LiveAt(db.locks[i], now) && Conflicting(l, db.locks[i])
      ensures forall machine :: HoldsMachine(l, machine, now) ==>
                Booked(db.locks, machine, l.window.value, now) ==> conflict
      ensures forall machine ::
                (HoldsMachine(l, machine, now) && conflict && l.window.value.start < l.window.value.end
                 && forall i :: 0 <= i < |db.locks| && db.locks[i].window.Some? ==>
                      db.locks[i].window.value.start < db.locks[i].window.value.end) ==>
                  Booked(db.locks, machine, l.window.value, now)
    {
      forall machine | HoldsMachine(l, machine, now) {
        ConflictIsSharedInstant(l, machine, db.locks, now);
      }
      for i := 0 to |db.locks|
        invariant forall k :: 0 <= k < i && LiveAt(db.locks[k], now) ==> !Conflicting(l, db.locks[k])
      {
        var other := db.locks[i];
        if LiveAt(other, now) {
          if (l.kind.MACHINE? || l.kind.TIME_SLOT?) && l.machineId.Some? && l.window.Some? {
            if other.machineId == l.machineId && other.window.Some? && (other.kind.MACHINE? || other.kind.TIME_SLOT?)
               && Overlaps(other.window.value, l.window.value) {
              return true;
            }
          }
          if l.kind.ORDER? && other.kind.ORDER? && other.orderId == l.orderId {
            return true;
          }
          if l.kind.SEQUENCE? && other.kind.SEQUENCE? {
            var shared := set o | o in l.sequence && o in other.sequence;
            if shared != {} {
              var o :| o in shared;
              return true;
            }
            assert forall o :: o in l.sequence && o in other.sequence ==> o in shared;
          }
        }
      }
      return false;
    }

    method CreateLock(q: LockRequest, user: Id, reason: string, c: Context, id: Id) returns (r: Result<(), Error>)
      requires db.FreshId(id)
      modifies db
      ensures r.Err? ==> db.View() == old(db.View())
      ensures Checked(q, reason, c).Err? ==> r == Err(Checked(q, reason, c).error)
      ensures Checked(q, reason, c).Ok? ==>
                var l := Lock(id, q.kind, user, c.now, q.orderId, q.machineId, Checked(q, reason, c).value,
                              NonEmpty(q.sequence), true);
                && (r.Ok? <==> Enabled(old(db.View()), Create(l), c.now))
                && (r.Ok? ==> db.View() == Effect(old(db.View()), Create(l)))
                && (r.Err? ==> r.error == Conflict)
      ensures r.Ok? && (q.kind.MACHINE? || q.kind.TIME_SLOT?) ==>
                && q.machineId.Some? && Checked(q, reason, c).value.Some?
                && !Booked(old(db.locks), q.machineId.value, Checked(q, reason, c).value.value, c.now)
      ensures Checked(q, reason, c).Ok? && (q.kind.MACHINE? || q.kind.TIME_SLOT?) && c.lockWindow > 0
              && (forall i :: 0 <= i < |old(db.locks)| && old(db.locks)[i].window.Some? ==>
                    old(db.locks)[i].window.value.start < old(db.locks)[i].window.value.end) ==>
                && q.machineId.Some? && Checked(q, reason, c).value.Some?
                && (r.Err? <==> Booked(old(db.locks), q.machineId.value, Checked(q, reason, c).value.value, c.now))
    {
      var window := Checked(q, reason, c);
      if window.Err? {
        return Err(window.error);
      }
      var l := Lock(id, q.kind, user, c.now, q.orderId, q.machineId, window.value, NonEmpty(q.sequence), true);
      if q.kind.MACHINE? || q.kind.TIME_SLOT? {
        CheckedReservation(q, reason, c);
        if c.now < window.value.value.end {
          ConflictIsSharedInstant(l, q.machineId.value, db.locks, c.now);
        }
      }
      var conflict := CheckConflicts(l, c.now);
      if conflict {
        return Err(Conflict);
      }
      db.locks := db.locks + [l];
      return Ok(());
    }

    method ReleaseLock(id: Id, reason: string) returns (r: Result<(), Error>)
      requires forall i, j :: 0 <= i < j < |db.locks| ==> db.locks[i].id != db.locks[j].id
      modifies db
      ensures r.Ok? <==> ReasonOk(reason) && exists i :: 0 <= i < |old(db.locks)| && old(db.locks)[i].id == id
                                                         && old(db.locks)[i].active
      ensures r.Err? ==> db.View() == old(db.View())
      ensures r.Ok? ==>
                exists i :: 0 <= i < |old(db.locks)| && old(db.locks)[i].id == id
                  && Enabled(old(db.View()), Unlock(i), 0) && db.View() == Effect(old(db.View()), Unlock(i))
    {
      if !ReasonOk(reason) {
        return Err(Validation);
      }
      var i := 0;
      while i < |db.locks| && db.locks[i].id != id
        invariant 0 <= i <= |db.locks|
        invariant forall k :: 0 <= k < i ==> db.locks[k].id != id
      {
        i := i + 1;
      }
      if i == |db.locks| {
        return Err(NotFound);
      }
      if !db.locks[i].active {
        return Err(Conflict);
      }
      db.locks := db.locks[i := db.locks[i].(active := false)];
      assert db.View() == Effect(old(db.View()), Unlock(i));
      return Ok(());
    }
  }
}

/**
 * The lifecycle of schedule versions: manual approval, publication through the writeback gateway, and
 * automatic replanning (backend/app/services/schedule_service.py, replanning_service.py,
 * writeback_service.py, backend/app/integration/writeback.py, backend/app/db/repositories/schedule.py).
 */
module ScheduleVersions {
  import opened Prelude

  datatype Status = DRAFT | APPROVED | PUBLISHED | SUPERSEDED | REJECTED

  datatype WritebackMode = READ_ONLY | APPROVAL | WRITEBACK | CONTROLLED_AUTO

  datatype ReceiptStatus = SENT | SKIPPED_READ_ONLY | REJECTED_BY_RULES | SEND_FAILED

  datatype Error = NotFound | Conflict | Validation | Integration | Configuration | Pipeline

  /** A resolved user id, never empty. */
  type Actor = s: string | s != "" witness "system"

  datatype Version = Version(
    status: Status, trigger: string, receipt: Option<ReceiptStatus>,
    approvedBy: Option<Actor>, publishedBy: Option<Actor>)

  const PAGE_LIMIT: nat := 1000
  const TRIGGER_REPLAN: string := "replan"

  /** The table SCHEDULE_TRANSITIONS. */
  predicate CanMove(a: Status, b: Status) {
    match a
    case DRAFT => b.APPROVED? || b.REJECTED? || b.SUPERSEDED?
    case APPROVED => b.PUBLISHED? || b.REJECTED? || b.SUPERSEDED?
    case PUBLISHED => b.SUPERSEDED?
    case SUPERSEDED => false
    case REJECTED => false
  }

  predicate IsReplan(v: Version) {
    TRIGGER_REPLAN <= v.trigger
  }

  predicate Accepted(r: ReceiptStatus) {
    r.SENT? || r.SKIPPED_READ_ONLY?
  }

  // Version number n is row n - 1: numbers are handed out in order and rows are never deleted.
  predicate Exists(vs: seq<Version>, n: nat) {
    1 <= n <= |vs|
  }

  predicate Has(vs: seq<Version>, n: nat, s: Status) {
    Exists(vs, n) && vs[n - 1].status == s
  }

  /** Approved or published. */
  predicate Live(vs: seq<Version>, n: nat) {
    Has(vs, n, APPROVED) || Has(vs, n, PUBLISHED)
  }

  /** Rows differ only in that some live ones other than `keep` are superseded. */
  ghost predicate OnlySuperseded(before: seq<Version>, after: seq<Version>, keep: nat) {
    && |after| == |before|
    && forall i :: 0 <= i < |before| ==>
         || after[i] == before[i]
         || (i + 1 != keep && Live(before, i + 1) && after[i] == before[i].(status := SUPERSEDED))
  }

  lemma SupersededRows(before: seq<Version>, after: seq<Version>, keep: nat)
    requires OnlySuperseded(before, after, keep) && forall n: nat :: Live(after, n) ==> n == keep
    ensures forall i :: 0 <= i < |before| ==>
              after[i] == if i + 1 != keep && Live(before, i + 1) then before[i].(status := SUPERSEDED) else before[i]
  {
    forall i | 0 <= i < |before|
      ensures after[i] == if i + 1 != keep && Live(before, i + 1) then before[i].(status := SUPERSEDED) else before[i]
    {
      assert Live(after, i + 1) ==> i + 1 == keep;
    }
  }

  /** The numbers up to `k` in a status, newest first. */
  function Matching(vs: seq<Version>, s: Status, k: nat): (r: seq<nat>)
    requires k <= |vs|
    ensures forall n :: n in r <==> 1 <= n <= k && Has(vs, n, s)
  {
    if k == 0 then [] else (if vs[k - 1].status == s then [k] else []) + Matching(vs, s, k - 1)
  }

  function Page(vs: seq<Version>, s: Status): seq<nat> {
    var all := Matching(vs, s, |vs|);
    if |all| <= PAGE_LIMIT then all else all[..PAGE_LIMIT]
  }

  ghost predicate AtMostOne(vs: seq<Version>, s: Status) {
    forall m, n :: Has(vs, m, s) && Has(vs, n, s) ==> m == n
  }

  // ----------------------------------------------------- what each action does

  function Approve(vs: seq<Version>, n: nat, user: Actor): seq<Version> {
    seq(|vs|, i requires 0 <= i < |vs| =>
      if i + 1 == n then vs[i].(status := APPROVED, approvedBy := Some(user))
      else if vs[i].status.APPROVED? then vs[i].(status := SUPERSEDED) else vs[i])
  }

  function Reject(vs: seq<Version>, n: nat): seq<Version> {
    seq(|vs|, i requires 0 <= i < |vs| => if i + 1 == n then vs[i].(status := REJECTED) else vs[i])
  }

  function Publish(vs: seq<Version>, n: nat, user: Actor, receipt: ReceiptStatus): seq<Version> {
    seq(|vs|, i requires 0 <= i < |vs| =>
      if i + 1 == n then vs[i].(status := PUBLISHED, receipt := Some(receipt), publishedBy := Some(user))
      else if vs[i].status.APPROVED? || vs[i].status.PUBLISHED? then vs[i].(status := SUPERSEDED) else vs[i])
  }

  function Generate(vs: seq<Version>, trigger: string): seq<Version> {
    vs + [Version(DRAFT, trigger, None, None, None)]
  }

  /** The listed versions superseded, but not `keep` and, if asked, only replanning versions. */
  function Marked(vs: seq<Version>, listed: seq<nat>, keep: nat, replansOnly: bool): (r: seq<Version>)
    ensures |r| == |vs|
  {
    seq(|vs|, i requires 0 <= i < |vs| =>
      if i + 1 in listed && i + 1 != keep && (replansOnly ==> IsReplan(vs[i]))
      then vs[i].(status := SUPERSEDED) else vs[i])
  }

  function OneMarked(vs: seq<Version>, n: nat, keep: nat, replansOnly: bool): seq<Version>
    requires Exists(vs, n)
  {
    if n != keep && (replansOnly ==> IsReplan(vs[n - 1])) then vs[n - 1 := vs[n - 1].(status := SUPERSEDED)] else vs
  }

  /** The next listed version: it can be superseded, and is, unless it is kept or not asked for. */
  lemma MarkedStep(vs: seq<Version>, s: Status, listed: seq<nat>, j: nat, keep: nat, replansOnly: bool)
    requires j < |listed| && Has(vs, listed[j], s) && !s.REJECTED?
    ensures var n, before := listed[j], Marked(vs, listed[..j], keep, replansOnly);
            && Exists(before, n) && !before[n - 1].status.REJECTED?
            && Marked(vs, listed[..j + 1], keep, replansOnly) == OneMarked(before, n, keep, replansOnly)
  {
    var n := listed[j];
    var before, after := Marked(vs, listed[..j], keep, replansOnly), Marked(vs, listed[..j + 1], keep, replansOnly);
    ListedSoFar(listed, j);
    assert IsReplan(before[n - 1]) == IsReplan(vs[n - 1]);
    forall i | 0 <= i < |vs| && i != n - 1 ensures after[i] == before[i] {
    }
  }

  lemma MarkedEnds(vs: seq<Version>, listed: seq<nat>, keep: nat, replansOnly: bool)
    ensures Marked(vs, listed[..0], keep, replansOnly) == vs
    ensures Marked(vs, listed[..|listed|], keep, replansOnly) == Marked(vs, listed, keep, replansOnly)
  {
    assert listed[..0] == [] && listed[..|listed|] == listed;
  }

  lemma ListedSoFar(listed: seq<nat>, j: nat)
    requires j < |listed|
    ensures forall n :: n in listed[..j + 1] <==> n in listed[..j] || n == listed[j]
  {
    assert listed[..j + 1] == listed[..j] + [listed[j]];
  }

  /** Older replanning drafts on the page of newest drafts are superseded. */
  function SupersedePending(vs: seq<Version>, keep: nat): seq<Version> {
    seq(|vs|, i requires 0 <= i < |vs| =>
      if i + 1 in Page(vs, DRAFT) && i + 1 != keep && IsReplan(vs[i]) then vs[i].(status := SUPERSEDED) else vs[i])
  }

  // ----------------------------------------------------------------- gateway

  // A gateway answers a publish request; `Custom` stands for an injected one with any behaviour.
  datatype Gateway = ReadOnlyGateway | MockGateway(hasRule: bool) | CustomGateway

  /** `ruleAllows` is the verdict of the auto-publish rule, `custom` an injected gateway's answer. */
  datatype Answer = Answer(ruleAllows: bool, custom: Result<ReceiptStatus, Error>)

  /** The gateway's preconditions. An actor id is never empty, so APPROVAL always has its user. */
  function Transmit(g: Gateway, mode: WritebackMode, answer: Answer): Result<ReceiptStatus, Error> {
    match g
    case ReadOnlyGateway => Ok(SKIPPED_READ_ONLY)
    case MockGateway(hasRule) =>
      if mode.READ_ONLY? then Ok(SKIPPED_READ_ONLY)
      else if mode.CONTROLLED_AUTO? && !hasRule then Err(Configuration)
      else if mode.CONTROLLED_AUTO? && !answer.ruleAllows then Ok(REJECTED_BY_RULES)
      else Ok(SENT)
    case CustomGateway => answer.custom
  }

  function EffectiveMode(configured: WritebackMode, auto: bool): WritebackMode {
    if configured.CONTROLLED_AUTO? && !auto then APPROVAL else configured
  }

  /** The receipt a publication attempt obtains, or why there is none. */
  function Attempt(g: Gateway, configured: WritebackMode, auto: bool, answer: Answer): Result<ReceiptStatus, Error> {
    if auto && !configured.CONTROLLED_AUTO? then Err(Conflict)
    else Transmit(g, EffectiveMode(configured, auto), answer)
  }

  /**
   * What the built-in gateway answers: by hand it sends in every mode but READ_ONLY, automatically only
   * under CONTROLLED_AUTO and with a rule that allows it.
   */
  lemma BuiltInAttempt(hasRule: bool, mode: WritebackMode, auto: bool, answer: Answer)
    ensures var r := Attempt(MockGateway(hasRule), mode, auto, answer);
      if !auto then r == Ok(if mode == READ_ONLY then SKIPPED_READ_ONLY else SENT)
      else if mode != CONTROLLED_AUTO then r == Err(Conflict)
      else if !hasRule then r == Err(Configuration)
      else r == Ok(if answer.ruleAllows then SENT else REJECTED_BY_RULES)
  {
  }

  lemma BuiltInPublication(vs: seq<Version>, n: nat, user: Actor, reason: string, hasRule: bool, mode: WritebackMode,
                           auto: bool, answer: Answer)
    ensures var r, attempt := CanPublish(vs, n, reason, MockGateway(hasRule), mode, auto, answer),
                              Attempt(MockGateway(hasRule), mode, auto, answer);
      && (r.Ok? <==> && ReasonOk(reason) && 1 <= n <= |vs| && vs[n - 1].status == APPROVED
                     && (auto ==> mode == CONTROLLED_AUTO && hasRule && answer.ruleAllows))
      && (r.Ok? ==> attempt == Ok(if mode == READ_ONLY then SKIPPED_READ_ONLY else SENT)
                    && Publish(vs, n, user, attempt.value)[n - 1].receipt == Some(attempt.value))
  {
    BuiltInAttempt(hasRule, mode, auto, answer);
  }

  // ----------------------------------------------------------------- service

  class ScheduleService {
    var versions: seq<Version>
    var gateway: Option<Gateway>
    var sent: seq<nat>        // versions that left the system, in order; nothing takes one back
    ghost var lost: set<nat>  // places in `sent` of those whose request was rolled back
    const mode: WritebackMode

    constructor (mode: WritebackMode, gateway: Option<Gateway>)
      ensures versions == [] && sent == [] && lost == {} && this.mode == mode && this.gateway == gateway
      ensures Safe(versions)
    {
      versions, sent, lost, this.mode, this.gateway := [], [], {}, mode, gateway;
    }

    function GatewayInUse(): Gateway
      reads this`gateway
    {
      if gateway.Some? then gateway.value
      else if mode.READ_ONLY? then ReadOnlyGateway else MockGateway(true)
    }

    method ListVersions(s: Status) returns (page: seq<nat>)
      ensures page == Page(versions, s)
      ensures |page| <= 1000 && forall n :: n in page ==> 1 <= n <= |versions| && versions[n - 1].status == s
      ensures forall n: nat :: 1 <= n <= |versions| && versions[n - 1].status == s ==>
                n in page || (|page| == 1000 && forall m :: m in page ==> n < m)
    {
      page := [];
      var n := |versions|;
      while n > 0 && |page| < PAGE_LIMIT
        invariant 0 <= n <= |versions|
        invariant |page| <= PAGE_LIMIT
        invariant Matching(versions, s, |versions|) == page + Matching(versions, s, n)
      {
        if versions[n - 1].status == s {
          page := page + [n];
        }
        n := n - 1;
      }
      PageLists(versions, s);
    }

    method SetStatus(n: nat, s: Status, user: Option<Actor>) returns (r: Result<(), Error>)
      modifies this`versions
      ensures r == if !Exists(old(versions), n) then Err(NotFound)
                   else if old(versions)[n - 1].status == s || CanMove(old(versions)[n - 1].status, s) then Ok(())
                   else Err(Conflict)
      ensures Exists(old(versions), n) ==>
                (r.Ok? <==> var was := old(versions)[n - 1].status;
                            was == s || (was, s) in {(DRAFT, APPROVED), (DRAFT, REJECTED), (DRAFT, SUPERSEDED),
                                                     (APPROVED, PUBLISHED), (APPROVED, REJECTED),
                                                     (APPROVED, SUPERSEDED), (PUBLISHED, SUPERSEDED)})
      ensures versions == if r.Err? || old(versions)[n - 1].status == s then old(versions)
                          else old(versions)[n - 1 := Moved(old(versions)[n - 1], s, user)]
    {
      if !Exists(versions, n) {
        return Err(NotFound);
      }
      var row := versions[n - 1];
      if row.status == s {
        return Ok(());
      }
      if !CanMove(row.status, s) {
        return Err(Conflict);
      }
      versions := versions[n - 1 := Moved(row, s, user)];
      return Ok(());
    }

    method SupersedeOne(n: nat)
      requires Exists(versions, n) && !versions[n - 1].status.REJECTED?
      modifies this`versions
      ensures versions == old(versions)[n - 1 := old(versions)[n - 1].(status := SUPERSEDED)]
    {
      var r := SetStatus(n, SUPERSEDED, None);
    }

    method SupersedeListed(s: Status, keep: nat, replansOnly: bool)
      requires s.DRAFT? || s.APPROVED?
      modifies this`versions
      ensures versions == Marked(old(versions), Page(old(versions), s), keep, replansOnly)
    {
      var page := ListVersions(s);
      PageMembers(versions, s);
      ghost var start := versions;
      MarkedEnds(start, page, keep, replansOnly);
      for j := 0 to |page|
        invariant versions == Marked(start, page[..j], keep, replansOnly)
      {
        assert page[j] in page && Has(start, page[j], s);
        MarkedStep(start, s, page, j, keep, replansOnly);
        SupersedeUnlessKept(page[j], keep, replansOnly);
      }
    }

    method SupersedeUnlessKept(n: nat, keep: nat, replansOnly: bool)
      requires Exists(versions, n) && !versions[n - 1].status.REJECTED?
      modifies this`versions
      ensures versions == OneMarked(old(versions), n, keep, replansOnly)
    {
      if n != keep && (!replansOnly || IsReplan(versions[n - 1])) {
        SupersedeOne(n);
      }
    }

    method ApproveVersion(n: nat, user: Actor, reason: string) returns (r: Result<(), Error>)
      requires Safe(versions)
      modifies this`versions
      ensures r == CanApprove(old(versions), n, reason)
      ensures versions == if r.Ok? then Approve(old(versions), n, user) else old(versions)
    {
      r := CanApprove(versions, n, reason);
      if r.Ok? {
        AtMostOneFitsPage(versions, APPROVED);
        SupersedeListed(APPROVED, n, false);
        r := SetStatus(n, APPROVED, Some(user));
      }
    }

    method RejectVersion(n: nat, reason: string) returns (r: Result<(), Error>)
      modifies this`versions
      ensures r == CanReject(old(versions), n, reason)
      ensures versions == if r.Ok? then Reject(old(versions), n) else old(versions)
    {
      r := CanReject(versions, n, reason);
      if r.Ok? {
        r := SetStatus(n, REJECTED, None);
      }
    }

    /** The gateway is chosen at first use and kept. */
    method UseGateway() returns (g: Gateway)
      modifies this`gateway
      ensures g == old(GatewayInUse()) == GatewayInUse()
      ensures old(gateway).None? && mode == READ_ONLY ==> g == ReadOnlyGateway
      ensures old(gateway).None? && mode != READ_ONLY ==> g == MockGateway(true)
    {
      if gateway.None? {
        gateway := Some(if mode.READ_ONLY? then ReadOnlyGateway else MockGateway(true));
      }
      g := gateway.value;
    }

    /** ScheduleRepository.supersede_others writes the rows without consulting the transition table. */
    method SupersedeOthers(keep: nat)
      modifies this`versions
      ensures |versions| == |old(versions)|
      ensures forall n: nat :: Live(versions, n) ==> n == keep
      ensures OnlySuperseded(old(versions), versions, keep)
    {
      ghost var start := versions;
      for i := 0 to |versions|
        invariant |versions| == |start|
        invariant forall n: nat :: n <= i && Live(versions, n) ==> n == keep
        invariant forall k :: i <= k < |start| ==> versions[k] == start[k]
        invariant OnlySuperseded(start, versions, keep)
      {
        ghost var rows := versions;
        if i + 1 != keep && Live(versions, i + 1) {
          versions := versions[i := versions[i].(status := SUPERSEDED)];
        }
        assert forall n: nat :: n <= i && Live(versions, n) ==> Live(rows, n);
        assert Live(versions, i + 1) ==> i + 1 == keep;
      }
    }

    method PublishVersion(n: nat, user: Actor, reason: string, auto: bool, answer: Answer)
      returns (r: Result<(), Error>)
      modifies this`versions, this`gateway, this`sent
      ensures r == CanPublish(old(versions), n, reason, old(GatewayInUse()), mode, auto, answer)
      ensures GatewayInUse() == old(GatewayInUse())
      ensures r.Ok? ==> versions == Publish(old(versions), n, user, Attempt(GatewayInUse(), mode, auto, answer).value)
      ensures sent == if r.Ok? && Attempt(GatewayInUse(), mode, auto, answer) == Ok(SENT)
                      then old(sent) + [n] else old(sent)
      ensures old(GatewayInUse()).MockGateway? ==>
                (r.Ok? <==> && ReasonOk(reason) && 1 <= n <= |old(versions)| && old(versions)[n - 1].status == APPROVED
                            && (auto ==> mode == CONTROLLED_AUTO && old(GatewayInUse()).hasRule && answer.ruleAllows))
      ensures old(GatewayInUse()).MockGateway? && r.Ok? ==>
                if mode == READ_ONLY
                then sent == old(sent) && versions[n - 1].receipt == Some(SKIPPED_READ_ONLY)
                else sent == old(sent) + [n] && versions[n - 1].receipt == Some(SENT)
    {
      if GatewayInUse().MockGateway? {
        BuiltInPublication(versions, n, user, reason, GatewayInUse().hasRule, mode, auto, answer);
      }
      if !ReasonOk(reason) {
        return Err(Validation);
      } else if !Exists(versions, n) {
        return Err(NotFound);
      } else if versions[n - 1].status != APPROVED {
        return Err(Conflict);
      } else if auto && !mode.CONTROLLED_AUTO? {
        return Err(Conflict);
      }
      var g := UseGateway();
      var receipt := Transmit(g, EffectiveMode(mode, auto), answer);
      if receipt.Err? {
        return Err(receipt.error);
      }
      r := RecordPublication(n, user, receipt.value);
    }

    /** The receipt is kept; unless it is a refusal, the version is published and the others are superseded. */
    method RecordPublication(n: nat, user: Actor, receipt: ReceiptStatus) returns (r: Result<(), Error>)
      requires Has(versions, n, APPROVED)
      modifies this`versions, this`sent
      ensures r == if Accepted(receipt) then Ok(()) else Err(Integration)
      ensures r.Ok? ==> versions == Publish(old(versions), n, user, receipt)
      ensures sent == if receipt == SENT then old(sent) + [n] else old(sent)
    {
      versions := versions[n - 1 := versions[n - 1].(receipt := Some(receipt))];
      if !Accepted(receipt) {
        return Err(Integration);
      }
      if receipt.SENT? {
        sent := sent + [n];
      }
      ghost var before := versions;
      SupersedeOthers(n);
      SupersededRows(before, versions, n);
      r := SetStatus(n, PUBLISHED, Some(user));
    }

    /** One replanning evaluation; the engine's verdicts are in `e`. */
    method Evaluate(e: Evaluation, user: Actor, answer: Answer) returns (r: Result<Action, Error>)
      requires Safe(versions)
      modifies this`versions, this`gateway, this`sent
      ensures GatewayInUse() == old(GatewayInUse())
      ensures r == EvaluationResult(old(versions), GatewayInUse(), mode, e, answer)
      ensures r.Ok? ==> versions == Evaluated(old(versions), GatewayInUse(), mode, e, user, answer)
      ensures sent == if r == Ok(PUBLISHED_NOW) && Attempt(GatewayInUse(), mode, true, answer) == Ok(SENT)
                      then old(sent) + [|old(versions)| + 1] else old(sent)
    {
      if !e.triggered {
        return Ok(NOT_TRIGGERED);
      }
      if !e.pipelineOk {
        return Err(Pipeline);
      }
      versions := Generate(versions, TRIGGER_REPLAN + ":" + e.trigger);
      var candidate := |versions|;
      GenerateSafe(old(versions), TRIGGER_REPLAN + ":" + e.trigger);
      if !e.shouldReplan {
        var rejected := RejectVersion(candidate, e.reason);
        return if rejected.Ok? then Ok(REJECTED_NOW) else Err(rejected.error);
      }
      if e.requiresApproval {
        SupersedeListed(DRAFT, candidate, true);
        return Ok(AWAITING_APPROVAL);
      }
      r := Adopt(e, candidate, user, answer, old(versions));
    }

    /** A candidate that needs no approval is approved, and published at once under controlled automation. */
    method Adopt(e: Evaluation, candidate: nat, user: Actor, answer: Answer, ghost before: seq<Version>)
      returns (r: Result<Action, Error>)
      requires Safe(versions) && e.triggered && e.pipelineOk && e.shouldReplan && !e.requiresApproval
      requires versions == Generate(before, TRIGGER_REPLAN + ":" + e.trigger) && candidate == |before| + 1
      modifies this`versions, this`gateway, this`sent
      ensures GatewayInUse() == old(GatewayInUse())
      ensures r == EvaluationResult(before, GatewayInUse(), mode, e, answer)
      ensures r.Ok? ==> versions == Evaluated(before, GatewayInUse(), mode, e, user, answer)
      ensures sent == if r == Ok(PUBLISHED_NOW) && Attempt(GatewayInUse(), mode, true, answer) == Ok(SENT)
                      then old(sent) + [|before| + 1] else old(sent)
    {
      var approved := ApproveVersion(candidate, user, e.reason);
      if approved.Err? {
        return Err(approved.error);
      }
      if mode.CONTROLLED_AUTO? {
        var published := PublishVersion(candidate, user, e.reason, true, answer);
        return if published.Ok? then Ok(PUBLISHED_NOW) else Err(published.error);
      }
      return Ok(APPROVED_NOW);
    }

    ghost function State(): World
      reads this
    {
      World(versions, GatewayInUse(), mode, sent, lost)
    }

    /**
     * One request in its unit of work (session_scope): an exception rolls the database back, and so does
     * a failure of the flushes or the commit at its end. What was sent stays sent.
     */
    method Execute(request: Request) returns (ok: bool)
      requires Safe(versions)
      modifies this
      ensures State() == Exec(old(State()), request)
      ensures Safe(versions)
    {
      ExecSafe(State(), request);
      var saved := versions;
      ghost var before := |sent|;
      ok := Perform(request.op);
      if !ok || !request.commits {
        versions := saved;
        lost := if |sent| > before then lost + {before} else lost;
      }
    }

    /** The body of a request. */
    method Perform(op: Op) returns (ok: bool)
      requires Safe(versions)
      modifies this`versions, this`gateway, this`sent
      ensures ok ==> State() == Performed(old(State()), op)
      ensures !ok ==> sent == old(sent) && GatewayInUse() == old(GatewayInUse())
                      && Performed(old(State()), op) == old(State())
    {
      match op {
      case DoGenerate(trigger, pipelineOk) =>
        ok := pipelineOk;
        if pipelineOk {
          versions := Generate(versions, trigger);
        }
      case DoApprove(n, user, reason) =>
        var r := ApproveVersion(n, user, reason);
        ok := r.Ok?;
      case DoReject(n, reason) =>
        var r := RejectVersion(n, reason);
        ok := r.Ok?;
      case DoPublish(n, user, reason, answer) =>
        var r := PublishVersion(n, user, reason, false, answer);
        ok := r.Ok?;
      case DoEvaluate(e, user, answer) =>
        var r := Evaluate(e, user, answer);
        ok := r.Ok?;
      }
    }
  }

  function Moved(row: Version, s: Status, user: Option<Actor>): Version {
    match s
    case APPROVED => row.(status := s, approvedBy := user)
    case PUBLISHED => row.(status := s, publishedBy := user)
    case _ => row.(status := s)
  }

  // ------------------------------------------------------- requests and runs

  function CanApprove(vs: seq<Version>, n: nat, reason: string): Result<(), Error> {
    if !ReasonOk(reason) then Err(Validation)
    else if !Exists(vs, n) then Err(NotFound)
    else if vs[n - 1].status.DRAFT? then Ok(()) else Err(Conflict)
  }

  function CanReject(vs: seq<Version>, n: nat, reason: string): Result<(), Error> {
    if !ReasonOk(reason) then Err(Validation)
    else if !Exists(vs, n) then Err(NotFound)
    else if vs[n - 1].status.DRAFT? || vs[n - 1].status.APPROVED? then Ok(()) else Err(Conflict)
  }

  function CanPublish(vs: seq<Version>, n: nat, reason: string, g: Gateway, mode: WritebackMode, auto: bool,
                      answer: Answer):
    Result<(), Error>
  {
    if !ReasonOk(reason) then Err(Validation)
    else if !Exists(vs, n) then Err(NotFound)
    else if !vs[n - 1].status.APPROVED? then Err(Conflict)
    else
      match Attempt(g, mode, auto, answer)
      case Err(e) => Err(e)
      case Ok(receipt) => if Accepted(receipt) then Ok(()) else Err(Integration)
  }

  datatype Evaluation = Evaluation(
    triggered: bool, trigger: string, pipelineOk: bool, shouldReplan: bool, requiresApproval: bool, reason: string)

  datatype Action = NOT_TRIGGERED | REJECTED_NOW | AWAITING_APPROVAL | APPROVED_NOW | PUBLISHED_NOW

  function Candidate(vs: seq<Version>, e: Evaluation): seq<Version> {
    Generate(vs, TRIGGER_REPLAN + ":" + e.trigger)
  }

  function EvaluationResult(vs: seq<Version>, g: Gateway, mode: WritebackMode, e: Evaluation, answer: Answer):
    Result<Action, Error>
  {
    if !e.triggered then Ok(NOT_TRIGGERED)
    else if !e.pipelineOk then Err(Pipeline)
    else if !e.shouldReplan then (if ReasonOk(e.reason) then Ok(REJECTED_NOW) else Err(Validation))
    else if e.requiresApproval then Ok(AWAITING_APPROVAL)
    else if !ReasonOk(e.reason) then Err(Validation)
    else if !mode.CONTROLLED_AUTO? then Ok(APPROVED_NOW)
    else
      match Attempt(g, mode, true, answer)
      case Err(error) => Err(error)
      case Ok(receipt) => if Accepted(receipt) then Ok(PUBLISHED_NOW) else Err(Integration)
  }

  function Evaluated(vs: seq<Version>, g: Gateway, mode: WritebackMode, e: Evaluation, user: Actor, answer: Answer):
    seq<Version>
    requires EvaluationResult(vs, g, mode, e, answer).Ok?
  {
    var n, vs' := |vs| + 1, Candidate(vs, e);
    match EvaluationResult(vs, g, mode, e, answer).value
    case NOT_TRIGGERED => vs
    case REJECTED_NOW => Reject(vs', n)
    case AWAITING_APPROVAL => SupersedePending(vs', n)
    case APPROVED_NOW => Approve(vs', n, user)
    case PUBLISHED_NOW => Publish(Approve(vs', n, user), n, user, Attempt(g, mode, true, answer).value)
  }

  /** `lost` holds the places in `sent` of the transmissions whose request was rolled back. */
  datatype World = World(
    versions: seq<Version>, gateway: Gateway, mode: WritebackMode, sent: seq<nat>, lost: set<nat>)

  datatype Op =
    | DoGenerate(trigger: string, pipelineOk: bool)
    | DoApprove(n: nat, user: Actor, reason: string)
    | DoReject(n: nat, reason: string)
    | DoPublish(n: nat, user: Actor, reason: string, answer: Answer)
    | DoEvaluate(e: Evaluation, user: Actor, answer: Answer)

  /** A request, and whether the flushes and the commit at the end of its unit of work succeed. */
  datatype Request = Request(op: Op, commits: bool)

  /** What a request leaves behind; rolled back, it leaves what it sent. */
  function Exec(w: World, r: Request): World {
    var done := Performed(w, r.op);
    if r.commits then done
    else w.(sent := done.sent, lost := if |done.sent| > |w.sent| then w.lost + {|w.sent|} else w.lost)
  }

  /** What the body of a request does; one that raises does nothing. */
  function Performed(w: World, op: Op): World {
    match op
    case DoGenerate(trigger, pipelineOk) =>
      if pipelineOk then w.(versions := Generate(w.versions, trigger)) else w
    case DoApprove(n, user, reason) =>
      if CanApprove(w.versions, n, reason).Ok? then w.(versions := Approve(w.versions, n, user)) else w
    case DoReject(n, reason) =>
      if CanReject(w.versions, n, reason).Ok? then w.(versions := Reject(w.versions, n)) else w
    case DoPublish(n, user, reason, answer) =>
      if CanPublish(w.versions, n, reason, w.gateway, w.mode, false, answer).Ok?
      then
        var receipt := Attempt(w.gateway, w.mode, false, answer).value;
        w.(versions := Publish(w.versions, n, user, receipt), sent := if receipt.SENT? then w.sent + [n] else w.sent)
      else w
    case DoEvaluate(e, user, answer) =>
      if EvaluationResult(w.versions, w.gateway, w.mode, e, answer).Ok?
      then
        var published := EvaluationResult(w.versions, w.gateway, w.mode, e, answer) == Ok(PUBLISHED_NOW);
        w.(versions := Evaluated(w.versions, w.gateway, w.mode, e, user, answer),
           sent := if published && Attempt(w.gateway, w.mode, true, answer) == Ok(SENT)
                   then w.sent + [|w.versions| + 1] else w.sent)
      else w
  }

  function Run(w: World, rs: seq<Request>): World {
    if rs == [] then w else Exec(Run(w, rs[..|rs| - 1]), rs[|rs| - 1])
  }

  // ------------------------------------------------------------------ safety

  lemma PageMembers(vs: seq<Version>, s: Status)
    ensures forall n :: n in Page(vs, s) ==> Has(vs, n, s)
    ensures |Matching(vs, s, |vs|)| <= PAGE_LIMIT ==> forall n :: Has(vs, n, s) ==> n in Page(vs, s)
  {
  }

  /** What is not on the page is older than everything on it, and the page is full. */
  lemma PageIsNewest(vs: seq<Version>, s: Status)
    ensures forall n :: Has(vs, n, s) ==>
              n in Page(vs, s) || (|Page(vs, s)| == PAGE_LIMIT && forall m :: m in Page(vs, s) ==> n < m)
  {
    var all, page := Matching(vs, s, |vs|), Page(vs, s);
    MatchingDescends(vs, s, |vs|);
    forall n | Has(vs, n, s) && n !in page ensures |page| == PAGE_LIMIT && forall m :: m in page ==> n < m {
      assert n in all;
      var i :| 0 <= i < |all| && all[i] == n;
      FrontHolds(all, |page|, i);
    }
  }

  lemma PageLists(vs: seq<Version>, s: Status)
    ensures var page := Page(vs, s);
      && |page| <= 1000 && (forall n :: n in page ==> 1 <= n <= |vs| && vs[n - 1].status == s)
      && forall n: nat :: 1 <= n <= |vs| && vs[n - 1].status == s ==>
           n in page || (|page| == 1000 && forall m :: m in page ==> n < m)
  {
    PageMembers(vs, s);
    PageIsNewest(vs, s);
    assert forall n :: n in Page(vs, s) ==> Has(vs, n, s);
    forall n: nat | 1 <= n <= |vs| && vs[n - 1].status == s ensures Has(vs, n, s) {
    }
  }

  lemma FrontHolds(xs: seq<nat>, k: nat, i: nat)
    requires k <= |xs| && i < |xs|
    ensures i < k ==> xs[i] in xs[..k]
  {
  }

  lemma {:induction false} MatchingDescends(vs: seq<Version>, s: Status, k: nat)
    requires k <= |vs|
    ensures forall i, j :: 0 <= i < j < |Matching(vs, s, k)| ==> Matching(vs, s, k)[i] > Matching(vs, s, k)[j]
  {
    if k > 0 {
      MatchingDescends(vs, s, k - 1);
      var rest := Matching(vs, s, k - 1);
      forall i | 0 <= i < |rest| ensures rest[i] <= k - 1 {
        assert rest[i] in rest;
      }
    }
  }

  /** The invariant is what makes the thousand-row page enough. */
  lemma AtMostOneFitsPage(vs: seq<Version>, s: Status)
    requires AtMostOne(vs, s)
    ensures forall n :: n in Page(vs, s) <==> Has(vs, n, s)
  {
    var all := Matching(vs, s, |vs|);
    MatchingDescends(vs, s, |vs|);
    forall i | 0 <= i < |all| ensures all[i] == all[0] {
      assert all[i] in all && all[0] in all;
    }
    PageMembers(vs, s);
  }

  /** At most one version is approved, at most one is published, and that one was approved and sent on. */
  ghost predicate Safe(vs: seq<Version>) {
    && AtMostOne(vs, APPROVED) && AtMostOne(vs, PUBLISHED)
    && (forall i :: 0 <= i < |vs| && vs[i].status.APPROVED? ==> vs[i].approvedBy.Some?)
    && (forall i :: 0 <= i < |vs| && vs[i].status.PUBLISHED? ==>
          vs[i].approvedBy.Some? && vs[i].receipt.Some? && Accepted(vs[i].receipt.value))
  }

  lemma GenerateSafe(vs: seq<Version>, trigger: string)
    requires Safe(vs)
    ensures Safe(Generate(vs, trigger))
  {
    var vs' := Generate(vs, trigger);
    forall n, s | Has(vs', n, s) && s != DRAFT ensures Has(vs, n, s) {
    }
  }

  lemma PerformedSafe(w: World, op: Op)
    requires Safe(w.versions)
    ensures Safe(Performed(w, op).versions)
  {
    match op
    case DoGenerate(trigger, _) => GenerateSafe(w.versions, trigger);
    case DoApprove(n, user, reason) =>
      if CanApprove(w.versions, n, reason).Ok? {
        ApproveSafe(w.versions, n, user);
      }
    case DoReject(n, reason) =>
      if CanReject(w.versions, n, reason).Ok? {
        RejectSafe(w.versions, n);
      }
    case DoPublish(n, user, reason, answer) =>
      if CanPublish(w.versions, n, reason, w.gateway, w.mode, false, answer).Ok? {
        PublishSafe(w.versions, n, user, Attempt(w.gateway, w.mode, false, answer).value);
      }
    case DoEvaluate(e, user, answer) =>
      if EvaluationResult(w.versions, w.gateway, w.mode, e, answer).Ok? {
        EvaluatedSafe(w.versions, w.gateway, w.mode, e, user, answer);
      }
  }

  lemma ExecSafe(w: World, r: Request)
    requires Safe(w.versions)
    ensures Safe(Exec(w, r).versions)
  {
    PerformedSafe(w, r.op);
  }

  lemma EvaluatedSafe(vs: seq<Version>, g: Gateway, mode: WritebackMode, e: Evaluation, user: Actor, answer: Answer)
    requires Safe(vs) && EvaluationResult(vs, g, mode, e, answer).Ok?
    ensures Safe(Evaluated(vs, g, mode, e, user, answer))
  {
    var n, vs' := |vs| + 1, Candidate(vs, e);
    GenerateSafe(vs, TRIGGER_REPLAN + ":" + e.trigger);
    match EvaluationResult(vs, g, mode, e, answer).value
    case NOT_TRIGGERED =>
    case REJECTED_NOW => RejectSafe(vs', n);
    case AWAITING_APPROVAL => SupersedePendingSafe(vs', n);
    case APPROVED_NOW => ApproveSafe(vs', n, user);
    case PUBLISHED_NOW =>
      ApproveSafe(vs', n, user);
      PublishSafe(Approve(vs', n, user), n, user, Attempt(g, mode, true, answer).value);
  }

  lemma ApproveSafe(vs: seq<Version>, n: nat, user: Actor)
    requires Safe(vs) && Has(vs, n, DRAFT)
    ensures Safe(Approve(vs, n, user))
  {
    var vs' := Approve(vs, n, user);
    assert forall m :: Has(vs', m, APPROVED) ==> m == n;
    assert forall m :: Has(vs', m, PUBLISHED) ==> Has(vs, m, PUBLISHED);
  }

  lemma RejectSafe(vs: seq<Version>, n: nat)
    requires Safe(vs)
    ensures Safe(Reject(vs, n))
  {
    var vs' := Reject(vs, n);
    assert forall m, s: Status :: Has(vs', m, s) && s != REJECTED ==> Has(vs, m, s);
  }

  lemma SupersedePendingSafe(vs: seq<Version>, n: nat)
    requires Safe(vs)
    ensures Safe(SupersedePending(vs, n))
  {
    var vs' := SupersedePending(vs, n);
    assert forall m, s: Status :: Has(vs', m, s) && s != SUPERSEDED ==> Has(vs, m, s);
  }

  lemma PublishSafe(vs: seq<Version>, n: nat, user: Actor, receipt: ReceiptStatus)
    requires Safe(vs) && Has(vs, n, APPROVED) && Accepted(receipt)
    ensures Safe(Publish(vs, n, user, receipt))
  {
    var vs' := Publish(vs, n, user, receipt);
    assert forall m :: !Has(vs', m, APPROVED);
    assert forall m :: Has(vs', m, PUBLISHED) ==> m == n;
  }

  /** Every reachable state is safe. */
  lemma {:induction false} RunsSafe(w: World, rs: seq<Request>)
    requires Safe(w.versions)
    ensures Safe(Run(w, rs).versions)
    decreases |rs|
  {
    if rs != [] {
      RunsSafe(w, rs[..|rs| - 1]);
      ExecSafe(Run(w, rs[..|rs| - 1]), rs[|rs| - 1]);
    }
  }

  /** A request moves an existing version along the transition table or leaves its status alone. */
  lemma ExecMoves(w: World, r: Request, n: nat)
    requires Exists(w.versions, n)
    ensures Exists(Exec(w, r).versions, n)
    ensures var a, b := w.versions[n - 1], Exec(w, r).versions[n - 1];
      (a.status == b.status || CanMove(a.status, b.status)) && a.trigger == b.trigger
  {
    if r.op.DoEvaluate? {
      PageMembers(Candidate(w.versions, r.op.e), DRAFT);
    }
  }

  /** SUPERSEDED and REJECTED are never left, over any run. */
  lemma {:induction false} FinalStatesStay(w: World, rs: seq<Request>, n: nat)
    requires Exists(w.versions, n) && (w.versions[n - 1].status.SUPERSEDED? || w.versions[n - 1].status.REJECTED?)
    ensures Exists(Run(w, rs).versions, n) && Run(w, rs).versions[n - 1].status == w.versions[n - 1].status
    decreases |rs|
  {
    if rs != [] {
      FinalStatesStay(w, rs[..|rs| - 1], n);
      ExecMoves(Run(w, rs[..|rs| - 1]), rs[|rs| - 1], n);
    }
  }

  /** How a request can make a version PUBLISHED: by hand from APPROVED, or by a replan nobody has to approve. */
  lemma PublishedOnlyThroughGateway(w: World, r: Request, n: nat)
    requires Has(Exec(w, r).versions, n, PUBLISHED) && !Has(w.versions, n, PUBLISHED)
    ensures r.commits && (r.op.DoPublish? || r.op.DoEvaluate?)
    ensures var attempt := Attempt(w.gateway, w.mode, r.op.DoEvaluate?, r.op.answer);
      attempt.Ok? && Accepted(attempt.value) && Exec(w, r).versions[n - 1].receipt == Some(attempt.value)
    ensures r.op.DoPublish? ==> n == r.op.n && Has(w.versions, n, APPROVED)
    ensures r.op.DoEvaluate? ==>
              n == |w.versions| + 1 && r.op.e.shouldReplan && !r.op.e.requiresApproval && w.mode.CONTROLLED_AUTO?
  {
    if r.op.DoEvaluate? {
      PageMembers(Candidate(w.versions, r.op.e), DRAFT);
    }
  }

  /** Where a triggered evaluation that commits leaves its candidate. */
  lemma CandidateFollowsDecision(w: World, e: Evaluation, user: Actor, answer: Answer)
    requires e.triggered && EvaluationResult(w.versions, w.gateway, w.mode, e, answer).Ok?
    ensures var vs, n := Exec(w, Request(DoEvaluate(e, user, answer), true)).versions, |w.versions| + 1;
      && |vs| == n && IsReplan(vs[n - 1])
      && (vs[n - 1].status.REJECTED? <==> !e.shouldReplan)
      && (vs[n - 1].status.DRAFT? <==> e.shouldReplan && e.requiresApproval)
      && (vs[n - 1].status.APPROVED? <==> e.shouldReplan && !e.requiresApproval && !w.mode.CONTROLLED_AUTO?)
      && (vs[n - 1].status.PUBLISHED? <==> e.shouldReplan && !e.requiresApproval && w.mode.CONTROLLED_AUTO?)
  {
  }

  // -------------------------------------------------------- pending replans

  predicate Pending(vs: seq<Version>, n: nat) {
    Has(vs, n, DRAFT) && IsReplan(vs[n - 1])
  }

  ghost predicate AtMostOnePending(vs: seq<Version>) {
    forall m, n :: Pending(vs, m) && Pending(vs, n) ==> m == n
  }

  /** A new proposal replaces exactly the older ones on the page of newest drafts. */
  lemma PendingAfterProposal(w: World, e: Evaluation, user: Actor, answer: Answer, n: nat)
    requires EvaluationResult(w.versions, w.gateway, w.mode, e, answer) == Ok(AWAITING_APPROVAL)
    ensures Pending(Exec(w, Request(DoEvaluate(e, user, answer), true)).versions, n) <==>
              n == |w.versions| + 1 || (Pending(w.versions, n) && n !in Page(Candidate(w.versions, e), DRAFT))
  {
  }

  /** Replanning aside, nothing generates a version with a replanning trigger. */
  predicate ManualTriggers(op: Op) {
    op.DoGenerate? ==> !(TRIGGER_REPLAN <= op.trigger)
  }

  /** An evaluation sees at most as many drafts as one page holds, its own candidate included. */
  predicate DraftsFitPage(w: World, op: Op) {
    op.DoEvaluate? ==> |Matching(Candidate(w.versions, op.e), DRAFT, |w.versions| + 1)| <= PAGE_LIMIT
  }

  lemma ExecKeepsOnePending(w: World, r: Request)
    requires AtMostOnePending(w.versions) && ManualTriggers(r.op) && DraftsFitPage(w, r.op)
    ensures AtMostOnePending(Exec(w, r).versions)
  {
    var vs', op := Exec(w, r).versions, r.op;
    if r.commits && op.DoEvaluate?
       && EvaluationResult(w.versions, w.gateway, w.mode, op.e, op.answer) == Ok(AWAITING_APPROVAL)
    {
      PageMembers(Candidate(w.versions, op.e), DRAFT);
      forall n | Pending(vs', n) ensures n == |w.versions| + 1 {
        PendingAfterProposal(w, op.e, op.user, op.answer, n);
      }
    } else {
      forall n | Pending(vs', n) ensures Pending(w.versions, n) {
        if Exists(w.versions, n) {
          ExecMoves(w, r, n);
        }
      }
    }
  }

  predicate AllManageable(w: World, rs: seq<Request>) {
    rs == [] || (AllManageable(w, rs[..|rs| - 1]) && ManualTriggers(rs[|rs| - 1].op)
                 && DraftsFitPage(Run(w, rs[..|rs| - 1]), rs[|rs| - 1].op))
  }

  /** Between requests at most one replanning proposal awaits approval. */
  lemma {:induction false} RunsKeepOnePending(w: World, rs: seq<Request>)
    requires AtMostOnePending(w.versions) && AllManageable(w, rs)
    ensures AtMostOnePending(Run(w, rs).versions)
    decreases |rs|
  {
    if rs != [] {
      RunsKeepOnePending(w, rs[..|rs| - 1]);
      ExecKeepsOnePending(Run(w, rs[..|rs| - 1]), rs[|rs| - 1]);
    }
  }

  // ------------------------------------------------------- what leaves the system

  /** The version that a request sends to the ERP, if it sends one. */
  function Sends(w: World, op: Op): Option<nat> {
    match op
    case DoPublish(n, _, reason, answer) =>
      if CanPublish(w.versions, n, reason, w.gateway, w.mode, false, answer).Ok?
         && Attempt(w.gateway, w.mode, false, answer) == Ok(SENT)
      then Some(n) else None
    case DoEvaluate(e, _, answer) =>
      if EvaluationResult(w.versions, w.gateway, w.mode, e, answer) == Ok(PUBLISHED_NOW)
         && Attempt(w.gateway, w.mode, true, answer) == Ok(SENT)
      then Some(|w.versions| + 1) else None
    case _ => None
  }

  /**
   * What a request sends is PUBLISHED afterwards exactly when the request commits. Rolled back, it leaves
   * a plan at the ERP whose version is still APPROVED, or, for a replan, does not exist.
   */
  lemma SentIsPublishedExactly(w: World, r: Request)
    ensures match Sends(w, r.op)
      case None => Exec(w, r).sent == w.sent && Exec(w, r).lost == w.lost
      case Some(n) =>
        && Exec(w, r).sent == w.sent + [n]
        && Exec(w, r).lost == (if r.commits then w.lost else w.lost + {|w.sent|})
        && (Has(Exec(w, r).versions, n, PUBLISHED) <==> r.commits)
        && (!r.commits ==>
              if r.op.DoPublish? then Has(Exec(w, r).versions, n, APPROVED) else !Exists(Exec(w, r).versions, n))
        && (if r.op.DoPublish? then Has(w.versions, n, APPROVED) else !Exists(w.versions, n))
  {
    if r.op.DoEvaluate? {
      PageMembers(Candidate(w.versions, r.op.e), DRAFT);
    }
  }

  /**
   * Every transmission that was not rolled back is of a version that is published or superseded now, and
   * its number was never sent again.
   */
  ghost predicate SentAccounted(w: World) {
    && (forall i :: 0 <= i < |w.sent| && i !in w.lost ==>
          Has(w.versions, w.sent[i], PUBLISHED) || Has(w.versions, w.sent[i], SUPERSEDED))
    && (forall i, k :: 0 <= i < k < |w.sent| && w.sent[i] == w.sent[k] ==> i in w.lost)
    && (forall i :: i in w.lost ==> i < |w.sent|)
  }

  lemma ExecAccounts(w: World, r: Request)
    requires SentAccounted(w)
    ensures SentAccounted(Exec(w, r))
  {
    var w' := Exec(w, r);
    SentIsPublishedExactly(w, r);
    forall i | 0 <= i < |w.sent| && i !in w.lost
      ensures Has(w'.versions, w.sent[i], PUBLISHED) || Has(w'.versions, w.sent[i], SUPERSEDED)
    {
      ExecMoves(w, r, w.sent[i]);
    }
  }

  /** In READ_ONLY the built-in gateways send nothing. */
  lemma ReadOnlySendsNothing(w: World, op: Op)
    requires w.mode.READ_ONLY? && !w.gateway.CustomGateway?
    ensures Sends(w, op).None?
  {
  }

  lemma {:induction false} RunsAccountForSent(w: World, rs: seq<Request>)
    requires SentAccounted(w)
    ensures SentAccounted(Run(w, rs))
    ensures w.mode.READ_ONLY? && !w.gateway.CustomGateway? ==> Run(w, rs).sent == w.sent
    decreases |rs|
  {
    if rs != [] {
      var before := Run(w, rs[..|rs| - 1]);
      RunsAccountForSent(w, rs[..|rs| - 1]);
      RunKeepsSettings(w, rs[..|rs| - 1]);
      ExecAccounts(before, rs[|rs| - 1]);
      SentIsPublishedExactly(before, rs[|rs| - 1]);
      if w.mode.READ_ONLY? && !w.gateway.CustomGateway? {
        ReadOnlySendsNothing(before, rs[|rs| - 1].op);
      }
    }
  }

  /** Where in the run each transmission comes from: it is lost exactly when its request did not commit. */
  lemma {:induction false} SentByRequest(w: World, rs: seq<Request>, i: nat)
    requires |w.sent| <= i < |Run(w, rs).sent| && SentAccounted(w)
    ensures exists k :: 0 <= k < |rs| && Sends(Run(w, rs[..k]), rs[k].op) == Some(Run(w, rs).sent[i])
                        && (i in Run(w, rs).lost <==> !rs[k].commits)
    decreases |rs|
  {
    if rs != [] {
      var n := |rs| - 1;
      var before := Run(w, rs[..n]);
      RunsAccountForSent(w, rs[..n]);
      SentIsPublishedExactly(before, rs[n]);
      if i < |before.sent| {
        SentByRequest(w, rs[..n], i);
        var k :| 0 <= k < n && Sends(Run(w, rs[..n][..k]), rs[..n][k].op) == Some(before.sent[i])
                 && (i in before.lost <==> !rs[..n][k].commits);
        assert rs[..n][..k] == rs[..k];
      } else {
        assert Sends(Run(w, rs[..n]), rs[n].op) == Some(Run(w, rs).sent[i]);
      }
    }
  }

  lemma {:induction false} RunKeepsSettings(w: World, rs: seq<Request>)
    ensures Run(w, rs).mode == w.mode && Run(w, rs).gateway == w.gateway
    decreases |rs|
  {
    if rs != [] {
      RunKeepsSettings(w, rs[..|rs| - 1]);
    }
  }
}

/**
 * What each request does, in plain terms: which rows change to what, and whether the plan leaves for the ERP
 * (backend/app/services/schedule_service.py, backend/app/services/replanning_service.py,
 * backend/app/integration/writeback.py).
 */
module ScheduleOutcomes {
  import opened Prelude
  import opened ScheduleVersions

  /** The request may publish version `n` as far as its reason and its status are concerned. */
  predicate Publishable(w: World, n: nat, reason: string) {
    ReasonOk(reason) && 1 <= n <= |w.versions| && w.versions[n - 1].status == APPROVED
  }

  /**
   * The receipt of a manual publication. The built-in gateway sends in every mode but READ_ONLY, whatever
   * the auto-publish rule says; an injected one says itself whether it sent or skipped, and anything else
   * publishes nothing.
   */
  function ManualReceipt(w: World, answer: Answer): Option<ReceiptStatus> {
    match w.gateway
    case ReadOnlyGateway => Some(SKIPPED_READ_ONLY)
    case MockGateway(_) => Some(if w.mode == READ_ONLY then SKIPPED_READ_ONLY else SENT)
    case CustomGateway =>
      if answer.custom == Ok(SENT) then Some(SENT)
      else if answer.custom == Ok(SKIPPED_READ_ONLY) then Some(SKIPPED_READ_ONLY)
      else None
  }

  /** The receipt of an automatic publication, which takes place under CONTROLLED_AUTO only. */
  function AutoReceipt(w: World, answer: Answer): Option<ReceiptStatus>
    requires w.mode == CONTROLLED_AUTO
  {
    match w.gateway
    case ReadOnlyGateway => Some(SKIPPED_READ_ONLY)
    case MockGateway(hasRule) => if hasRule && answer.ruleAllows then Some(SENT) else None
    case CustomGateway => ManualReceipt(w, answer)
  }

  /** Version `n` is published with this receipt; no other stays approved or published; nothing else changes. */
  ghost predicate PublishedAs(before: seq<Version>, after: seq<Version>, n: nat, receipt: ReceiptStatus,
                              approver: Option<Actor>, user: Actor)
    requires 1 <= n <= |before|
  {
    && |after| == |before|
    && after[n - 1] == Version(PUBLISHED, before[n - 1].trigger, Some(receipt), approver, Some(user))
    && forall i :: 0 <= i < |before| && i + 1 != n ==>
         after[i] == if before[i].status == APPROVED || before[i].status == PUBLISHED
                     then before[i].(status := SUPERSEDED) else before[i]
  }

  /** What left for the ERP by this request. */
  function Sending(receipt: ReceiptStatus, n: nat): seq<nat> {
    if receipt == SENT then [n] else []
  }

  /** A manual publication, completely. */
  lemma PublishOutcome(w: World, n: nat, user: Actor, reason: string, answer: Answer)
    ensures var w', receipt := Performed(w, DoPublish(n, user, reason, answer)), ManualReceipt(w, answer);
      if Publishable(w, n, reason) && receipt.Some?
      then w' == w.(versions := w'.versions, sent := w.sent + Sending(receipt.value, n))
           && PublishedAs(w.versions, w'.versions, n, receipt.value, w.versions[n - 1].approvedBy, user)
      else w' == w
  {
  }

  /** With the built-in gateway a publication reaches the ERP in every mode but READ_ONLY. */
  lemma PublicationReachesErp(w: World, n: nat, user: Actor, reason: string, answer: Answer)
    requires w.gateway.MockGateway? && Publishable(w, n, reason)
    ensures var w' := Exec(w, Request(DoPublish(n, user, reason, answer), true));
      && w'.versions[n - 1].status == PUBLISHED
      && (w.mode in {APPROVAL, WRITEBACK, CONTROLLED_AUTO} ==>
            w'.sent == w.sent + [n] && w'.versions[n - 1].receipt == Some(SENT))
      && (w.mode == READ_ONLY ==> w'.sent == w.sent && w'.versions[n - 1].receipt == Some(SKIPPED_READ_ONLY))
  {
    PublishOutcome(w, n, user, reason, answer);
  }

  /** An automatic publication reaches the ERP exactly under CONTROLLED_AUTO with a rule that allows it. */
  lemma AutomaticPublicationReachesErp(w: World, e: Evaluation, user: Actor, answer: Answer)
    requires w.gateway.MockGateway? && e.triggered && e.pipelineOk && ReasonOk(e.reason)
    ensures var w' := Exec(w, Request(DoEvaluate(e, user, answer), true));
      && w'.sent == (if w.mode == CONTROLLED_AUTO && w.gateway.hasRule && answer.ruleAllows
                        && e.shouldReplan && !e.requiresApproval
                     then w.sent + [|w.versions| + 1] else w.sent)
      && (w'.sent != w.sent ==> w'.versions[|w.versions|].status == PUBLISHED
                                && w'.versions[|w.versions|].receipt == Some(SENT))
  {
    EvaluateOutcome(w, e, user, answer);
  }

  /** A version stems from a replan when its trigger begins with that word. */
  lemma ReplansByTrigger(v: Version)
    ensures IsReplan(v) <==> |v.trigger| >= 6 && v.trigger[..6] == "replan"
  {
  }

  /** A sequence of requests is carried out one after the other. */
  lemma OneMoreRequest(w: World, rs: seq<Request>, r: Request)
    ensures Run(w, rs + [r]) == Exec(Run(w, rs), r)
  {
    assert (rs + [r])[..|rs|] == rs;
  }

  /** The new version of an evaluation. */
  function NewVersion(e: Evaluation, status: Status, receipt: Option<ReceiptStatus>, approver: Option<Actor>,
                      publisher: Option<Actor>): Version {
    Version(status, "replan" + ":" + e.trigger, receipt, approver, publisher)
  }

  /** No other version stays approved, or, once the new one is published, published. */
  ghost predicate OthersYield(before: seq<Version>, after: seq<Version>, published: bool) {
    && |after| == |before| + 1
    && forall i :: 0 <= i < |before| ==>
         after[i] == if before[i].status == APPROVED || (published && before[i].status == PUBLISHED)
                     then before[i].(status := SUPERSEDED) else before[i]
  }

  /** An evaluation, completely, but for which older proposals a new one replaces (`PendingAfterProposal`). */
  lemma EvaluateOutcome(w: World, e: Evaluation, user: Actor, answer: Answer)
    ensures var w' := Performed(w, DoEvaluate(e, user, answer));
      var vs, vs', k := w.versions, w'.versions, |w.versions|;
      if !e.triggered || !e.pipelineOk then w' == w
      else if e.shouldReplan && e.requiresApproval then
        && w' == w.(versions := vs') && |vs'| == k + 1 && vs'[k] == NewVersion(e, DRAFT, None, None, None)
        && forall i :: 0 <= i < k ==>
             vs'[i] == vs[i] || (vs[i].status == DRAFT && vs'[i] == vs[i].(status := SUPERSEDED))
      else if !ReasonOk(e.reason) then w' == w
      else if !e.shouldReplan then w' == w.(versions := vs + [NewVersion(e, REJECTED, None, None, None)])
      else if w.mode != CONTROLLED_AUTO then
        && w' == w.(versions := vs') && OthersYield(vs, vs', false)
        && vs'[k] == NewVersion(e, APPROVED, None, Some(user), None)
      else
        match AutoReceipt(w, answer)
        case None => w' == w
        case Some(receipt) =>
          && w' == w.(versions := vs', sent := w.sent + Sending(receipt, k + 1))
          && OthersYield(vs, vs', true) && vs'[k] == NewVersion(e, PUBLISHED, Some(receipt), Some(user), Some(user))
  {
    PageMembers(Candidate(w.versions, e), DRAFT);
  }

  /** Generation, approval and rejection, completely. */
  lemma DecisionOutcomes(w: World, op: Op)
    ensures var w' := Performed(w, op);
      match op
      case DoGenerate(trigger, ok) =>
        w' == if ok then w.(versions := w.versions + [Version(DRAFT, trigger, None, None, None)]) else w
      case DoApprove(n, user, reason) =>
        if ReasonOk(reason) && 1 <= n <= |w.versions| && w.versions[n - 1].status == DRAFT
        then && w' == w.(versions := w'.versions) && |w'.versions| == |w.versions|
             && w'.versions[n - 1] == w.versions[n - 1].(status := APPROVED, approvedBy := Some(user))
             && forall i :: 0 <= i < |w.versions| && i + 1 != n ==>
                  w'.versions[i] == if w.versions[i].status == APPROVED then w.versions[i].(status := SUPERSEDED)
                                    else w.versions[i]
        else w' == w
      case DoReject(n, reason) =>
        w' == if ReasonOk(reason) && 1 <= n <= |w.versions| && w.versions[n - 1].status in {DRAFT, APPROVED}
              then w.(versions := w.versions[n - 1 := w.versions[n - 1].(status := REJECTED)]) else w
      case _ => true
  {
  }
}

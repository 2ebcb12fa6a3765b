/** `validate_resume`: the cascade of early returns, with the evidence it gathers on the way. */
module Validator {
  import opened Text
  import opened Contracts
  import opened Lifecycle
  import opened Codec
  import opened Compatibility
  import opened ResumePolicy

  function Fact(kind: string, expected: string, observed: string, status: string, detail: string): RuntimeEvidence {
    RuntimeEvidence("resume_validator", kind, expected, observed, status, detail)
  }

  function Label(g: ExternalStateGuard): string {
    g.guardType + ":" + g.resourceId
  }

  /** The status a decision announces; a refusal leaves the checkpoint where it is. */
  function ResultingStatus(c: RunCheckpoint, disposition: ResumeDisposition, action: Option<ResumeAction>): CheckpointStatus {
    match disposition
    case Allow => if action == Some(AbandonAndRestart) then Cancelled else Running
    case RequireClarification => WaitingUser
    case Reject => c.status
  }

  function Refuse(c: RunCheckpoint, r: Refusal, evidence: seq<RuntimeEvidence>): ResumeDecision {
    ResumeDecision(r.disposition, None, c.runId, c.checkpointId, None, None,
                   ResultingStatus(c, r.disposition, None), r.reason, evidence, r.question)
  }

  function Permit(
    c: RunCheckpoint, action: ResumeAction, reason: ResumeReason, evidence: seq<RuntimeEvidence>,
    stage: Option<string>, task: Option<string>): ResumeDecision
  {
    ResumeDecision(Allow, Some(action), c.runId, c.checkpointId, stage, task,
                   ResultingStatus(c, Allow, Some(action)), reason, evidence, None)
  }

  /** Where an allowed action continues from; an abandoned run continues nowhere. */
  function ResumePosition(c: RunCheckpoint, ctx: ResumeContext, action: ResumeAction): (Option<string>, Option<string>) {
    if action == AbandonAndRestart then (None, None)
    else if action == ReplanFromCheckpoint && ctx.requestedAction == Some(ReplanFromCheckpoint) then
      (if c.activeStageId == "" then None else Some(c.activeStageId), if c.activeTaskId == "" then None else Some(c.activeTaskId))
    else (Some(c.activeStageId), Some(c.activeTaskId))
  }

  /** The decision announces exactly this verdict about this checkpoint. */
  ghost predicate Announces(d: ResumeDecision, v: Verdict, c: RunCheckpoint, ctx: ResumeContext) {
    && d.runId == c.runId && d.checkpointId == c.checkpointId
    && match v
       case Refused(r) =>
         && d.disposition == r.disposition && d.action == None && d.reason == r.reason && d.question == r.question
         && d.resumeStageId == None && d.resumeTaskId == None
         && d.resultingStatus == ResultingStatus(c, r.disposition, None)
       case Allows(action, reason) =>
         && d.disposition == Allow && d.action == Some(action) && d.reason == reason && d.question == None
         && (d.resumeStageId, d.resumeTaskId) == ResumePosition(c, ctx, action)
         && d.resultingStatus == (if action == AbandonAndRestart then Cancelled else Running)
  }

  // The facts that go with a verdict.

  /** A fact of the validator's own. */
  predicate Says(f: RuntimeEvidence, kind: string, expected: string, observed: string, status: string, detail: string) {
    f == RuntimeEvidence("resume_validator", kind, expected, observed, status, detail)
  }

  /** The fact that goes with a refusal before the guards: what was expected, what was found instead, and as what it counts. */
  ghost predicate AddressExplained(f: RuntimeEvidence, reason: ResumeReason, c: RunCheckpoint, ctx: ResumeContext) {
    match reason
    case MissingContext => Says(f, "current_context", "workflow_id/workflow_version/plan_version", "missing", "MISSING", "")
    case AmbiguousRun => Says(f, "run_addressing", "one candidate run", Join(",", ctx.candidateRunIds), "AMBIGUOUS", "")
    case NoRunMatch => ctx.candidateRunIds != [] && Says(f, "run_addressing", c.runId, ctx.candidateRunIds[0], "MISMATCH", "")
    case TargetConflict => Says(f, "target_conflict", c.targetSummary, ctx.requestedTarget, "CONFLICT", "")
    case TerminalCheckpoint => Says(f, "checkpoint_status", "non-terminal", StatusName(c.status), "REJECTED", "")
    case CheckpointInvalidated => Says(f, "invalidation", "no invalidation reasons", Join(";", c.invalidationReasons), "INVALID", "")
    case MissingPermission =>
      Says(f, "permission_scope", Join(",", ctx.requiredPermissions), Join(",", ctx.availablePermissions), "MISSING",
           Join(",", Sorted(set x | x in ctx.requiredPermissions && x !in ctx.availablePermissions)))
    case _ => false
  }

  /** The fact recorded about one guard: its expected value, what was observed, the outcome, and which guard it was. */
  ghost predicate GuardExplained(f: RuntimeEvidence, g: ExternalStateGuard, found: Option<ExternalStateGuard>, refusal: Option<Refusal>) {
    var name := g.guardType + ":" + g.resourceId;
    match found
    case None => Says(f, "external_state_guard", g.expectedValue, "missing matching resource observation", "MISSING", name)
    case Some(o) =>
      match refusal
      case None => Says(f, "external_state_guard", g.expectedValue, g.expectedValue, "VERIFIED", name + ";checked_at=" + o.checkedAt)
      case Some(r) =>
        if r.question == Some(SupplyExpectedState)
        then Says(f, "external_state_guard", "checkpoint-bound expected value", "missing expected value", "MISSING", name)
        else if r.question == Some(RefreshObservation)
        then Says(f, "external_state_guard", "fresh timezone-aware observation after checkpoint",
                  if o.checkedAt == "" then "missing timestamp" else o.checkedAt, "UNKNOWN", name)
        else if r.question == Some(ConfirmResource)
        then Says(f, "external_state_guard", g.expectedValue, o.observedValue, if o.status == Missing then "MISSING" else "UNKNOWN", name)
        else Says(f, "external_state_guard", g.expectedValue,
                  if o.status != Mismatch && o.expectedValue != g.expectedValue then o.expectedValue else o.observedValue, "MISMATCH", name)
  }

  /** One fact for each guard judged, in order, up to the first that is refused. */
  ghost predicate GuardsExplained(
    evidence: seq<RuntimeEvidence>, guards: seq<ExternalStateGuard>, obs: seq<ExternalStateGuard>, p: Platform, n: nat)
  {
    |evidence| == n <= |guards|
    && forall i :: 0 <= i < n ==> JudgedAs(evidence[i], guards[i], Lookup(obs, Identity(guards[i])), p)
  }

  ghost predicate JudgedAs(f: RuntimeEvidence, g: ExternalStateGuard, found: Option<ExternalStateGuard>, p: Platform) {
    GuardExplained(f, g, found, GuardRefusal(g, found, p))
  }

  ghost predicate RepeatExplained(f: RuntimeEvidence, obs: seq<ExternalStateGuard>) {
    exists o :: o in obs && RepeatSaid(f, o)
  }

  predicate RepeatSaid(f: RuntimeEvidence, o: ExternalStateGuard) {
    Says(f, "external_state_guard", "one observation per required resource and guard type", "duplicate observation", "MISMATCH",
         o.guardType + ":" + o.resourceId)
  }

  ghost predicate SurplusExplained(f: RuntimeEvidence, guards: seq<ExternalStateGuard>, obs: seq<ExternalStateGuard>) {
    exists o :: o in obs && Identity(o) !in Identities(guards) && SurplusSaid(f, o)
  }

  predicate SurplusSaid(f: RuntimeEvidence, o: ExternalStateGuard) {
    Says(f, "external_state_guard", "checkpoint-bound resource and guard type", o.guardType + ":" + o.resourceId, "MISMATCH", "")
  }

  ghost predicate MismatchExplained(f: RuntimeEvidence, obs: seq<ExternalStateGuard>) {
    exists o :: o in obs && o.status == Mismatch && ObservationSaid(f, o)
  }

  /** The fact about an observation that no guard asks for. */
  predicate ObservationSaid(f: RuntimeEvidence, o: ExternalStateGuard) {
    Says(f, "external_state_guard", o.expectedValue, o.observedValue, GuardName(o.status), o.guardType + ":" + o.resourceId)
  }

  /** The names of the states that keep a run from going on, in order, and of those that keep its active task from being replayed. */
  ghost function UnsafeNames(c: RunCheckpoint): string {
    Join(",", Sorted(set r | r in c.taskEffectRecords && r.effectState in {Unknown, Started, FailedAfterCommit} :: EffectName(r.effectState)))
  }

  ghost function BlockingNames(c: RunCheckpoint): string {
    Join(",", Sorted(set r | r in c.taskEffectRecords && r.taskId == c.activeTaskId
                             && r.effectState in {Committed, Unknown, Started, FailedAfterCommit} :: EffectName(r.effectState)))
  }

  /** The fact that explains a refusal. */
  ghost predicate Explains(f: RuntimeEvidence, reason: ResumeReason, c: RunCheckpoint, ctx: ResumeContext) {
    match reason
    case ExternalStateMismatch => f.source == "resume_validator" && f.kind == "external_state_guard" && f.status == "MISMATCH"
    case ExternalStateUnknown =>
      f.source == "resume_validator" && f.kind == "external_state_guard" && (f.status == "UNKNOWN" || f.status == "MISSING")
    case SchemaIncompatible =>
      f.source == "compatibility" && f.kind == "checkpoint_schema" && f.observed == c.schemaVersion && f.status == "MISMATCH"
    case ContractIncompatible =>
      f.source == "compatibility" && f.kind == "contract_version" && f.observed == c.contractVersion && f.status == "MISMATCH"
    case InvalidRequestedStage => Says(f, "resume_stage", c.activeStageId, ctx.requestedStageId, "MISMATCH", "")
    case NonIdempotentStage => Says(f, "stage_idempotency", "true", "false", "REJECTED", "")
    case DuplicateSideEffect =>
      || Says(f, "side_effect_completion_boundary", "committed active task is marked completed", c.activeTaskId, "UNKNOWN", "")
      || Says(f, "side_effect_replay_safety", "no committed/in-progress/unknown effects", BlockingNames(c), "REJECTED", "")
    case SideEffectInProgress => Says(f, "side_effect_resume_safety", "no unknown/in-progress effects", UnsafeNames(c), "UNKNOWN", "")
    case UnknownSideEffect =>
      || Says(f, "side_effect_resume_safety", "no unknown/in-progress effects", UnsafeNames(c), "UNKNOWN", "")
      || Says(f, "side_effect_replan_safety", "no unknown/in-progress effects", UnsafeNames(c), "UNKNOWN", "")
      || Says(f, "side_effect_replay_safety", "no committed/in-progress/unknown effects", BlockingNames(c), "REJECTED", "")
      || (f.source == "resume_validator" && f.kind == "no_effect_confirmation" && f.status in {"MISMATCH", "MISSING", "STALE_OR_INVALID"})
    case _ => AddressExplained(f, reason, c, ctx)
  }

  /** The evidence of a refusal ends with the fact that explains it; where versions or a position are lacking no fact is added. */
  ghost predicate EndsExplaining(evidence: seq<RuntimeEvidence>, reason: ResumeReason, c: RunCheckpoint, ctx: ResumeContext) {
    || reason == WorkflowIncompatible || reason == PlanIncompatible || reason == NoResumablePosition
    || (evidence != [] && Explains(evidence[|evidence| - 1], reason, c, ctx))
  }

  lemma ExplainsLast(before: seq<RuntimeEvidence>, facts: seq<RuntimeEvidence>, reason: ResumeReason, c: RunCheckpoint, ctx: ResumeContext)
    requires EndsExplaining(facts, reason, c, ctx)
    ensures EndsExplaining(before + facts, reason, c, ctx)
  {
    hide Explains;
    if facts != [] { assert (before + facts)[|before + facts| - 1] == facts[|facts| - 1]; }
  }

  lemma UnsafeExplains(f: RuntimeEvidence, c: RunCheckpoint)
    requires || Says(f, "side_effect_resume_safety", "no unknown/in-progress effects", UnsafeNames(c), "UNKNOWN", "")
             || Says(f, "side_effect_replan_safety", "no unknown/in-progress effects", UnsafeNames(c), "UNKNOWN", "")
    ensures forall ctx :: EndsExplaining([f], UnknownSideEffect, c, ctx)
    ensures f.kind == "side_effect_resume_safety" ==> forall ctx :: EndsExplaining([f], SideEffectInProgress, c, ctx)
  {
    hide UnsafeNames, BlockingNames;
  }

  lemma BlockedExplains(f: RuntimeEvidence, c: RunCheckpoint, ctx: ResumeContext)
    requires Says(f, "side_effect_replay_safety", "no committed/in-progress/unknown effects", BlockingNames(c), "REJECTED", "")
    ensures EndsExplaining([f], UnknownSideEffect, c, ctx) && EndsExplaining([f], DuplicateSideEffect, c, ctx)
  {
    hide UnsafeNames, BlockingNames;
  }

  lemma ConfirmationExplains(f: RuntimeEvidence, c: RunCheckpoint)
    requires f.source == "resume_validator" && f.kind == "no_effect_confirmation"
    requires f.status == "MISMATCH" || f.status == "MISSING" || f.status == "STALE_OR_INVALID"
    ensures forall ctx :: EndsExplaining([f], UnknownSideEffect, c, ctx)
  {
    hide UnsafeNames, BlockingNames;
  }

  lemma PlaceExplains(f: RuntimeEvidence, c: RunCheckpoint, ctx: ResumeContext)
    ensures Says(f, "side_effect_completion_boundary", "committed active task is marked completed", c.activeTaskId, "UNKNOWN", "") ==>
              EndsExplaining([f], DuplicateSideEffect, c, ctx)
    ensures Says(f, "resume_stage", c.activeStageId, ctx.requestedStageId, "MISMATCH", "") ==> EndsExplaining([f], InvalidRequestedStage, c, ctx)
    ensures Says(f, "stage_idempotency", "true", "false", "REJECTED", "") ==> EndsExplaining([f], NonIdempotentStage, c, ctx)
  {
    hide UnsafeNames, BlockingNames, Says;
  }

  lemma NoFactNeeded(c: RunCheckpoint, ctx: ResumeContext)
    ensures forall evidence, reason :: reason == WorkflowIncompatible || reason == PlanIncompatible || reason == NoResumablePosition ==>
              EndsExplaining(evidence, reason, c, ctx)
  {
  }

  // Guards.

  ghost predicate Indexes(byIdentity: map<(string, string), ExternalStateGuard>, obs: seq<ExternalStateGuard>) {
    forall id :: Lookup(obs, id) == if id in byIdentity then Some(byIdentity[id]) else None
  }

  method IndexObservations(obs: seq<ExternalStateGuard>)
    returns (byIdentity: map<(string, string), ExternalStateGuard>, evidence: seq<RuntimeEvidence>, ok: bool)
    ensures ok == DistinctIdentities(obs)
    ensures ok ==> Indexes(byIdentity, obs) && evidence == []
    ensures !ok ==> |evidence| == 1 && RepeatExplained(evidence[0], obs)
  {
    byIdentity, evidence := map[], [];
    for i := 0 to |obs|
      invariant DistinctIdentities(obs[..i]) && evidence == []
      invariant Indexes(byIdentity, obs[..i])
    {
      var id := Identity(obs[i]);
      LookupMeaning(obs[..i], id);
      assert obs[..i + 1][..i] == obs[..i];
      if id in byIdentity {
        evidence := [Fact("external_state_guard", "one observation per required resource and guard type",
                          "duplicate observation", "MISMATCH", Label(obs[i]))];
        assert obs[i] in obs && RepeatSaid(evidence[0], obs[i]);
        assert obs[..i][..] == obs[..i];
        var k :| 0 <= k < i && Identity(obs[..i][k]) == id;
        return byIdentity, evidence, false;
      }
      assert Lookup(obs[..i], id).None?;
      byIdentity := byIdentity[id := obs[i]];
    }
    assert obs[..|obs|] == obs;
    ok := true;
  }

  function Identities(guards: seq<ExternalStateGuard>): set<(string, string)> {
    set j | 0 <= j < |guards| :: Identity(guards[j])
  }

  /** The first observation, by resource and then by type, that no guard asks for. */
  method FindSurplus(guards: seq<ExternalStateGuard>, obs: seq<ExternalStateGuard>, byIdentity: map<(string, string), ExternalStateGuard>)
    returns (fact: Option<RuntimeEvidence>)
    requires Indexes(byIdentity, obs)
    ensures fact.None? <==> AllExpected(obs, guards)
    ensures fact.Some? ==> SurplusExplained(fact.value, guards, obs)
  {
    var unexpected := byIdentity.Keys - Identities(guards);
    UnexpectedMeaning(guards, obs, byIdentity);
    if unexpected == {} {
      forall id | id in byIdentity ensures id in Identities(guards) { assert id !in unexpected; }
      return None;
    }
    var resources := set id | id in unexpected :: id.0;
    ghost var some :| some in unexpected;
    assert some in byIdentity && some !in Identities(guards);
    assert some.0 in resources;
    var resource := Least(resources);
    var kinds := set id | id in unexpected && id.0 == resource :: id.1;
    ghost var least :| least in unexpected && least.0 == resource;
    assert least.1 in kinds;
    var kind := Least(kinds);
    fact := Some(Fact("external_state_guard", "checkpoint-bound resource and guard type", kind + ":" + resource, "MISMATCH", ""));
    SurplusIsSeen(guards, obs, byIdentity, (resource, kind), fact.value);
  }

  lemma SurplusIsSeen(
    guards: seq<ExternalStateGuard>, obs: seq<ExternalStateGuard>, byIdentity: map<(string, string), ExternalStateGuard>,
    id: (string, string), fact: RuntimeEvidence)
    requires Indexes(byIdentity, obs) && id in byIdentity && id !in Identities(guards)
    requires fact == RuntimeEvidence(
               "resume_validator", "external_state_guard", "checkpoint-bound resource and guard type", id.1 + ":" + id.0, "MISMATCH", "")
    ensures SurplusExplained(fact, guards, obs)
  {
    LookupMeaning(obs, id);
    assert Lookup(obs, id) == Some(byIdentity[id]);
    assert SurplusSaid(fact, byIdentity[id]);
  }

  /** The guards, one after another, until one is refused. */
  method JudgeGuards(
    guards: seq<ExternalStateGuard>, obs: seq<ExternalStateGuard>, byIdentity: map<(string, string), ExternalStateGuard>, p: Platform)
    returns (refusal: Option<Refusal>, evidence: seq<RuntimeEvidence>)
    requires guards != [] && Indexes(byIdentity, obs)
    ensures refusal == FirstGuardRefusal(guards, obs, p)
    ensures evidence != [] && GuardsExplained(evidence, guards, obs, p, |evidence|)
    ensures refusal.None? ==> |evidence| == |guards|
    ensures refusal.Some? ==>
              var last := guards[|evidence| - 1]; refusal == GuardRefusal(last, Lookup(obs, Identity(last)), p)
  {
    hide JudgedAs, GuardRefusal, Lookup;
    evidence := [];
    for i := 0 to |guards|
      invariant FirstGuardRefusal(guards, obs, p) == FirstGuardRefusal(guards[i..], obs, p)
      invariant GuardsExplained(evidence, guards, obs, p, i)
    {
      var g := guards[i];
      assert guards[i..][0] == g && guards[i..][1..] == guards[i + 1..];
      assert Lookup(obs, Identity(g)) == if Identity(g) in byIdentity then Some(byIdentity[Identity(g)]) else None;
      var failure, fact := CheckOneGuard(g, if Identity(g) in byIdentity then Some(byIdentity[Identity(g)]) else None, p);
      evidence := evidence + [fact];
      if failure.Some? {
        return failure, evidence;
      }
    }
    refusal := None;
  }

  /** The guards against their observations: each observed once, nothing else observed, and each judged. */
  method CheckBoundGuards(guards: seq<ExternalStateGuard>, obs: seq<ExternalStateGuard>, p: Platform)
    returns (refusal: Option<Refusal>, evidence: seq<RuntimeEvidence>)
    requires guards != [] && obs != []
    ensures refusal == GuardsRefusal(guards, obs, p)
    ensures BoundExplained(evidence, refusal, guards, obs, p)
  {
    hide Indexes, AllExpected, FirstGuardRefusal, GuardRefusal, Lookup, GuardsExplained, RepeatExplained, SurplusExplained, DistinctIdentities;
    var byIdentity, found, distinct := IndexObservations(obs);
    if !distinct {
      return Rejected(ExternalStateMismatch), found;
    }
    var surplus := FindSurplus(guards, obs, byIdentity);
    if surplus.Some? {
      return Rejected(ExternalStateMismatch), [surplus.value];
    }
    refusal, evidence := JudgeGuards(guards, obs, byIdentity, p);
  }

  /** What goes with the verdict on guards that were observed. */
  ghost predicate BoundExplained(
    evidence: seq<RuntimeEvidence>, refusal: Option<Refusal>, guards: seq<ExternalStateGuard>, obs: seq<ExternalStateGuard>, p: Platform)
  {
    && evidence != []
    && if !DistinctIdentities(obs) then |evidence| == 1 && RepeatExplained(evidence[0], obs)
       else if !AllExpected(obs, guards) then |evidence| == 1 && SurplusExplained(evidence[0], guards, obs)
       else
         && GuardsExplained(evidence, guards, obs, p, |evidence|) && (refusal.None? ==> |evidence| == |guards|)
         && (refusal.Some? ==> refusal == GuardRefusal(guards[|evidence| - 1], Lookup(obs, Identity(guards[|evidence| - 1])), p))
  }

  lemma UnexpectedMeaning(guards: seq<ExternalStateGuard>, obs: seq<ExternalStateGuard>, byIdentity: map<(string, string), ExternalStateGuard>)
    requires Indexes(byIdentity, obs)
    ensures (forall id | id in byIdentity :: id in Identities(guards)) <==> AllExpected(obs, guards)
  {
    if AllExpected(obs, guards) {
      forall id | id in byIdentity ensures id in Identities(guards) {
        LookupMeaning(obs, id);
        assert Lookup(obs, id).Some?;
        var i :| 0 <= i < |obs| && Identity(obs[i]) == id;
      }
    }
    if forall id | id in byIdentity :: id in Identities(guards) {
      forall i | 0 <= i < |obs| ensures exists j | 0 <= j < |guards| :: Identity(guards[j]) == Identity(obs[i]) {
        LookupMeaning(obs, Identity(obs[i]));
        assert Lookup(obs, Identity(obs[i])).Some?;
        assert Identity(obs[i]) in Identities(guards);
      }
    }
  }

  /** Whether an observation is aware, and later than the aware check before it, if there was one. */
  method CheckFresh(checkedAt: string, checkedBefore: string, p: Platform) returns (isFresh: bool)
    ensures isFresh == FreshSince(checkedAt, checkedBefore, p)
  {
    var now := p.parse(checkedAt);
    var previous := if checkedBefore == "" then None else p.parse(checkedBefore);
    return now.Some? && now.value.aware
           && (checkedBefore == "" || (previous.Some? && previous.value.aware && now.value.time > previous.value.time));
  }

  /** The checks on one guard, in order, with the fact that records the outcome. */
  method CheckOneGuard(g: ExternalStateGuard, found: Option<ExternalStateGuard>, p: Platform)
    returns (refusal: Option<Refusal>, fact: RuntimeEvidence)
    ensures refusal == GuardRefusal(g, found, p)
    ensures JudgedAs(fact, g, found, p)
  {
    hide FreshSince;
    if found.None? {
      return Unclear(ExternalStateUnknown, RecheckResource),
        Fact("external_state_guard", g.expectedValue, "missing matching resource observation", "MISSING", Label(g));
    }
    var o := found.value;
    if o.status == Mismatch {
      return Rejected(ExternalStateMismatch), Fact("external_state_guard", g.expectedValue, o.observedValue, "MISMATCH", Label(g));
    }
    if o.status == GuardUnknown || o.status == Missing {
      return Unclear(ExternalStateUnknown, ConfirmResource),
        Fact("external_state_guard", g.expectedValue, o.observedValue, GuardName(o.status), Label(g));
    }
    if g.expectedValue == "" {
      return Unclear(ExternalStateUnknown, SupplyExpectedState),
        Fact("external_state_guard", "checkpoint-bound expected value", "missing expected value", "MISSING", Label(g));
    }
    if o.expectedValue != g.expectedValue {
      return Rejected(ExternalStateMismatch), Fact("external_state_guard", g.expectedValue, o.expectedValue, "MISMATCH", Label(g));
    }
    var isFresh := CheckFresh(o.checkedAt, g.checkedAt, p);
    if !isFresh {
      return Unclear(ExternalStateUnknown, RefreshObservation),
        Fact("external_state_guard", "fresh timezone-aware observation after checkpoint",
             if o.checkedAt == "" then "missing timestamp" else o.checkedAt, "UNKNOWN", Label(g));
    }
    if o.observedValue != g.expectedValue {
      return Rejected(ExternalStateMismatch), Fact("external_state_guard", g.expectedValue, o.observedValue, "MISMATCH", Label(g));
    }
    return None, Fact("external_state_guard", g.expectedValue, o.observedValue, "VERIFIED", Label(g) + ";checked_at=" + o.checkedAt);
  }

  /** Without guards to bind to, any doubtful observation still stops the resume. */
  method CheckUnboundObservations(obs: seq<ExternalStateGuard>)
    returns (refusal: Option<Refusal>, evidence: seq<RuntimeEvidence>)
    ensures forall p :: refusal == GuardsRefusal([], obs, p)
    ensures UnboundExplained(evidence, refusal, obs)
  {
    evidence := [];
    for i := 0 to |obs|
      invariant forall k :: 0 <= k < i ==> obs[k].status != Mismatch
    {
      if obs[i].status == Mismatch {
        evidence := [Fact("external_state_guard", obs[i].expectedValue, obs[i].observedValue, "MISMATCH", Label(obs[i]))];
        assert ObservationSaid(evidence[0], obs[i]);
        return Rejected(ExternalStateMismatch), evidence;
      }
    }
    for i := 0 to |obs|
      invariant evidence == [] <==> forall k :: 0 <= k < i ==> obs[k].status == Verified
      invariant forall k :: 0 <= k < i && obs[k].status != Verified ==> exists f :: f in evidence && ObservationSaid(f, obs[k])
      invariant forall f :: f in evidence ==> exists o :: o in obs && (o.status == GuardUnknown || o.status == Missing) && ObservationSaid(f, o)
    {
      if obs[i].status == GuardUnknown || obs[i].status == Missing {
        var fact := Fact("external_state_guard", obs[i].expectedValue, obs[i].observedValue, GuardName(obs[i].status), Label(obs[i]));
        assert ObservationSaid(fact, obs[i]);
        assert forall f :: f in evidence ==> f in evidence + [fact];
        evidence := evidence + [fact];
      }
    }
    refusal := if evidence != [] then Unclear(ExternalStateUnknown, ConfirmResource) else None;
  }

  /** What goes with the verdict on observations that no guard asks for. */
  ghost predicate UnboundExplained(evidence: seq<RuntimeEvidence>, refusal: Option<Refusal>, obs: seq<ExternalStateGuard>) {
    if refusal.None? then evidence == []
    else if refusal.value.disposition == Reject then |evidence| == 1 && MismatchExplained(evidence[0], obs)
    else
      && evidence != []
      && (forall f :: f in evidence ==> exists o :: o in obs && (o.status == GuardUnknown || o.status == Missing) && ObservationSaid(f, o))
      && forall k :: 0 <= k < |obs| && obs[k].status != Verified ==> exists f :: f in evidence && ObservationSaid(f, obs[k])
  }

  method CheckGuards(guards: seq<ExternalStateGuard>, obs: seq<ExternalStateGuard>, p: Platform)
    returns (refusal: Option<Refusal>, evidence: seq<RuntimeEvidence>)
    ensures refusal == GuardsRefusal(guards, obs, p)
    ensures guards != [] && obs != [] ==> BoundExplained(evidence, refusal, guards, obs, p)
    ensures guards != [] && obs == [] ==>
              |evidence| == 1 && Says(evidence[0], "external_state_guard", "fresh current guard evidence", "missing", "MISSING", "")
    ensures guards == [] ==> UnboundExplained(evidence, refusal, obs)
    ensures refusal.Some? ==> forall c, ctx :: EndsExplaining(evidence, refusal.value.reason, c, ctx)
  {
    hide BoundExplained, EndsExplaining, DistinctIdentities, AllExpected, FirstGuardRefusal;
    if guards != [] && obs == [] {
      evidence := [Fact("external_state_guard", "fresh current guard evidence", "missing", "MISSING", "")];
      AskingExplains(evidence);
      return Unclear(ExternalStateUnknown, RecheckGuards), evidence;
    }
    if guards != [] {
      refusal, evidence := CheckBoundGuards(guards, obs, p);
      if refusal.Some? { BoundExplains(evidence, refusal.value, guards, obs, p); }
    } else {
      refusal, evidence := CheckUnboundObservations(obs);
      if refusal.Some? { UnboundExplains(evidence, refusal.value, obs, p); }
    }
  }

  lemma AskingExplains(evidence: seq<RuntimeEvidence>)
    requires evidence == [RuntimeEvidence("resume_validator", "external_state_guard", "fresh current guard evidence", "missing", "MISSING", "")]
    ensures forall c, ctx :: EndsExplaining(evidence, ExternalStateUnknown, c, ctx)
  {
  }

  lemma JudgementExplains(f: RuntimeEvidence, g: ExternalStateGuard, found: Option<ExternalStateGuard>, p: Platform, refusal: Refusal)
    requires JudgedAs(f, g, found, p) && GuardRefusal(g, found, p) == Some(refusal)
    ensures forall c, ctx :: Explains(f, refusal.reason, c, ctx)
  {
    hide FreshSince;
  }

  lemma BoundExplains(
    evidence: seq<RuntimeEvidence>, refusal: Refusal, guards: seq<ExternalStateGuard>, obs: seq<ExternalStateGuard>, p: Platform)
    requires guards != [] && obs != [] && GuardsRefusal(guards, obs, p) == Some(refusal) && BoundExplained(evidence, Some(refusal), guards, obs, p)
    ensures forall c, ctx :: EndsExplaining(evidence, refusal.reason, c, ctx)
  {
    var f := evidence[|evidence| - 1];
    hide FirstGuardRefusal, GuardRefusal, Lookup, JudgedAs;
    if DistinctIdentities(obs) && AllExpected(obs, guards) {
      var g := guards[|evidence| - 1];
      JudgementExplains(f, g, Lookup(obs, Identity(g)), p, refusal);
      hide Explains;
    }
  }

  lemma UnboundExplains(evidence: seq<RuntimeEvidence>, refusal: Refusal, obs: seq<ExternalStateGuard>, p: Platform)
    requires GuardsRefusal([], obs, p) == Some(refusal) && UnboundExplained(evidence, Some(refusal), obs)
    ensures forall c, ctx :: EndsExplaining(evidence, refusal.reason, c, ctx)
  {
    var f := evidence[|evidence| - 1];
    if refusal.disposition == Reject {
      MismatchExplains(f, obs);
    } else {
      assert f in evidence;
      var o :| o in obs && (o.status == GuardUnknown || o.status == Missing) && ObservationSaid(f, o);
      ObservationExplains(f, o);
    }
    hide Explains, ObservationSaid, MismatchExplained;
  }

  lemma MismatchExplains(f: RuntimeEvidence, obs: seq<ExternalStateGuard>)
    requires MismatchExplained(f, obs)
    ensures forall c, ctx :: Explains(f, ExternalStateMismatch, c, ctx)
  {
  }

  lemma ObservationExplains(f: RuntimeEvidence, o: ExternalStateGuard)
    requires (o.status == GuardUnknown || o.status == Missing) && ObservationSaid(f, o)
    ensures forall c, ctx :: Explains(f, ExternalStateUnknown, c, ctx)
  {
  }

  // The cascade.

  /** Everything before the guards: addressing, target, status, invalidation and permissions. */
  method CheckAddress(c: RunCheckpoint, ctx: ResumeContext, p: Platform)
    returns (refusal: Option<Refusal>, evidence: seq<RuntimeEvidence>)
    ensures refusal ==
            if !ContextPresent(ctx) then Rejected(MissingContext)
            else if |ctx.candidateRunIds| > 1 then Unclear(AmbiguousRun, WhichRun)
            else if !RunMatches(c, ctx) then Rejected(NoRunMatch)
            else if !TargetMatches(c, ctx, p) then Unclear(TargetConflict, WhichTarget)
            else if Terminal(c.status) then Rejected(TerminalCheckpoint)
            else if c.invalidationReasons != [] then Rejected(CheckpointInvalidated)
            else if !PermissionsCovered(ctx) then Rejected(MissingPermission)
            else None
    ensures if refusal.Some? then |evidence| == 1 && AddressExplained(evidence[0], refusal.value.reason, c, ctx) else evidence == []
  {
    hide TargetKey, StatusName, Join, Sorted;
    if ctx.workflowId == "" || ctx.workflowVersion == "" || ctx.planVersion == "" {
      return Rejected(MissingContext),
        [Fact("current_context", "workflow_id/workflow_version/plan_version", "missing", "MISSING", "")];
    }
    var candidates := ctx.candidateRunIds;
    if |candidates| > 1 {
      return Unclear(AmbiguousRun, WhichRun),
        [Fact("run_addressing", "one candidate run", Join(",", candidates), "AMBIGUOUS", "")];
    }
    if candidates != [] && candidates[0] != c.runId {
      return Rejected(NoRunMatch), [Fact("run_addressing", c.runId, candidates[0], "MISMATCH", "")];
    }
    if ctx.requestedTarget != "" && c.targetSummary != "" && TargetKey(ctx.requestedTarget, p) != TargetKey(c.targetSummary, p) {
      return Unclear(TargetConflict, WhichTarget),
        [Fact("target_conflict", c.targetSummary, ctx.requestedTarget, "CONFLICT", "")];
    }
    if c.status == Completed || c.status == Cancelled || c.status == FailedTerminal {
      return Rejected(TerminalCheckpoint),
        [Fact("checkpoint_status", "non-terminal", StatusName(c.status), "REJECTED", "")];
    }
    if c.invalidationReasons != [] {
      return Rejected(CheckpointInvalidated),
        [Fact("invalidation", "no invalidation reasons", Join(";", c.invalidationReasons), "INVALID", "")];
    }
    refusal, evidence := CheckPermissions(c, ctx);
  }

  method CheckPermissions(c: RunCheckpoint, ctx: ResumeContext) returns (refusal: Option<Refusal>, evidence: seq<RuntimeEvidence>)
    ensures refusal == if PermissionsCovered(ctx) then None else Rejected(MissingPermission)
    ensures if refusal.Some? then |evidence| == 1 && AddressExplained(evidence[0], MissingPermission, c, ctx) else evidence == []
  {
    hide StatusName, Join, Sorted;
    var missing := (set x | x in ctx.requiredPermissions) - (set x | x in ctx.availablePermissions);
    assert missing == set x | x in ctx.requiredPermissions && x !in ctx.availablePermissions;
    if missing != {} {
      return Rejected(MissingPermission),
        [Fact("permission_scope", Join(",", ctx.requiredPermissions), Join(",", ctx.availablePermissions), "MISSING", Join(",", Sorted(missing)))];
    }
    forall x | x in ctx.requiredPermissions ensures x in ctx.availablePermissions {
      assert x !in missing;
    }
    return None, [];
  }

  /** The confirmation names the checkpoint's one unsafe effect, completely. */
  function BindingRefusal(c: RunCheckpoint, unsafe: seq<TaskEffectRecord>, a: NoEffectConfirmation): Option<Refusal> {
    if unsafe == [] then Rejected(UnknownSideEffect)
    else if |unsafe| != 1 || unsafe[0].taskId != c.activeTaskId then Unclear(UnknownSideEffect, ConfirmationTooBroad)
    else if unsafe[0].idempotencyKey == "" || unsafe[0].externalReference == "" then Unclear(UnknownSideEffect, BindingIncomplete)
    else if a.taskId != unsafe[0].taskId || a.idempotencyKey != unsafe[0].idempotencyKey
            || a.externalReference != unsafe[0].externalReference then Rejected(UnknownSideEffect)
    else None
  }

  method CheckBinding(c: RunCheckpoint, unsafe: seq<TaskEffectRecord>, a: NoEffectConfirmation)
    returns (refusal: Option<Refusal>, evidence: seq<RuntimeEvidence>)
    ensures refusal == BindingRefusal(c, unsafe, a)
    ensures refusal.Some? ==> forall ctx :: EndsExplaining(evidence, refusal.value.reason, c, ctx)
  {
    hide Join, EndsExplaining;
    if unsafe == [] {
      evidence := [Fact("no_effect_confirmation", "one matching uncertain active task effect", "no uncertain effect", "MISMATCH", "")];
      ConfirmationExplains(evidence[0], c);
      return Rejected(UnknownSideEffect), evidence;
    }
    if |unsafe| != 1 || unsafe[0].taskId != c.activeTaskId {
      evidence := [Fact("no_effect_confirmation", "one uncertain effect for active task " + c.activeTaskId,
                        Join(",", seq(|unsafe|, i requires 0 <= i < |unsafe| => unsafe[i].taskId)), "MISMATCH", "")];
      ConfirmationExplains(evidence[0], c);
      return Unclear(UnknownSideEffect, ConfirmationTooBroad), evidence;
    }
    var record := unsafe[0];
    if record.idempotencyKey == "" || record.externalReference == "" {
      evidence := [Fact("no_effect_confirmation", "checkpoint effect with idempotency key and external reference",
                        "effect binding is incomplete", "MISSING", record.taskId)];
      ConfirmationExplains(evidence[0], c);
      return Unclear(UnknownSideEffect, BindingIncomplete), evidence;
    }
    if (a.taskId, a.idempotencyKey, a.externalReference) != (record.taskId, record.idempotencyKey, record.externalReference) {
      evidence := [Fact("no_effect_confirmation",
                        Join("|", [record.taskId, record.idempotencyKey, record.externalReference]),
                        Join("|", [a.taskId, a.idempotencyKey, a.externalReference]), "MISMATCH", "")];
      ConfirmationExplains(evidence[0], c);
      return Rejected(UnknownSideEffect), evidence;
    }
    return None, [];
  }

  function Attestation(record: TaskEffectRecord, checkedAt: string): RuntimeEvidence {
    Fact("no_effect_confirmation", "effect not committed", "caller confirmed no effect", "ATTESTED",
         "task_id=" + record.taskId + ";idempotency_key=" + record.idempotencyKey
         + ";external_reference=" + record.externalReference + ";checked_at=" + checkedAt)
  }

  /** The evidence ends with what the caller attested: the whole confirmation, word for word. */
  ghost predicate EndsAttesting(evidence: seq<RuntimeEvidence>, a: NoEffectConfirmation) {
    && evidence != []
    && evidence[|evidence| - 1] == RuntimeEvidence(
         "resume_validator", "no_effect_confirmation", "effect not committed", "caller confirmed no effect", "ATTESTED",
         "task_id=" + a.taskId + ";idempotency_key=" + a.idempotencyKey
         + ";external_reference=" + a.externalReference + ";checked_at=" + a.checkedAt)
  }

  lemma AttestsLast(before: seq<RuntimeEvidence>, facts: seq<RuntimeEvidence>, a: NoEffectConfirmation)
    requires EndsAttesting(facts, a)
    ensures EndsAttesting(before + facts, a)
  {
    assert (before + facts)[|before + facts| - 1] == facts[|facts| - 1];
  }

  /** A confirmation must cover the one unsafe effect, completely and freshly; then it is recorded. */
  method CheckConfirmation(c: RunCheckpoint, a: NoEffectConfirmation, p: Platform)
    returns (refusal: Option<Refusal>, evidence: seq<RuntimeEvidence>)
    ensures refusal == EffectRefusal(c, Some(a), p)
    ensures refusal.None? ==> EndsAttesting(evidence, a)
    ensures refusal.Some? ==> forall ctx :: EndsExplaining(evidence, refusal.value.reason, c, ctx)
  {
    hide UnsafeEffects, EndsExplaining;
    var unsafe := UnsafeEffects(c.taskEffectRecords);
    refusal, evidence := CheckBinding(c, unsafe, a);
    if refusal.Some? {
      return;
    }
    var checkedAt, updatedAt := p.parse(a.checkedAt), p.parse(c.updatedAt);
    var isFresh := checkedAt.Some? && updatedAt.Some? && checkedAt.value.aware && updatedAt.value.aware
                   && checkedAt.value.time > updatedAt.value.time;
    if !isFresh {
      evidence := [Fact(
        "no_effect_confirmation", "timezone-aware checked_at after checkpoint.updated_at", a.checkedAt, "STALE_OR_INVALID", c.updatedAt)];
      ConfirmationExplains(evidence[0], c);
      return Unclear(UnknownSideEffect, ConfirmationStale), evidence;
    }
    evidence := [Attestation(unsafe[0], a.checkedAt)];
  }

  /** The effect checks of an exact or defaulted resume. */
  method CheckEffects(c: RunCheckpoint, conf: Option<NoEffectConfirmation>, p: Platform)
    returns (refusal: Option<Refusal>, evidence: seq<RuntimeEvidence>)
    ensures refusal == EffectRefusal(c, conf, p)
    ensures refusal.None? && conf.Some? ==> EndsAttesting(evidence, conf.value)
    ensures refusal.Some? ==> forall ctx :: EndsExplaining(evidence, refusal.value.reason, c, ctx)
  {
    hide Join, Sorted, EffectName, UnsafeNames, UnsafeEffects, EndsAttesting, EndsExplaining;
    if conf.Some? {
      refusal, evidence := CheckConfirmation(c, conf.value, p);
      return;
    }
    var unsafe := UnsafeEffects(c.taskEffectRecords);
    if unsafe == [] {
      return None, [];
    }
    var names := Sorted(set i | 0 <= i < |unsafe| :: EffectName(unsafe[i].effectState));
    UnsafeNamed(c, unsafe);
    evidence := [Fact("side_effect_resume_safety", "no unknown/in-progress effects", Join(",", names), "UNKNOWN", "")];
    UnsafeExplains(evidence[0], c);
    var reason :=
      if exists i | 0 <= i < |unsafe| :: unsafe[i].effectState == Started || unsafe[i].effectState == FailedAfterCommit
      then SideEffectInProgress else UnknownSideEffect;
    var question :=
      if |unsafe| == 1 && unsafe[0].idempotencyKey != "" && unsafe[0].externalReference != "" then ConfirmNoEffect
      else if |unsafe| == 1 then CompleteEffectRecord
      else SettleEachEffect;
    refusal := Unclear(reason, question);
  }

  /** Committed work, workflow, position and stage: what every continuing action needs. */
  method CheckPosition(c: RunCheckpoint, ctx: ResumeContext, a: Assessment, ghost registry: CompatibilityRegistry)
    returns (refusal: Option<Refusal>, evidence: seq<RuntimeEvidence>)
    requires a.workflowSame == WorkflowSame(c, ctx) && a.workflowMigratable == WorkflowMigratable(c, ctx, registry)
    ensures refusal == PositionRefusal(c, ctx, registry)
    ensures refusal.None? ==> a.workflowSame || a.workflowMigratable
    ensures if refusal.Some? then EndsExplaining(evidence, refusal.value.reason, c, ctx) else evidence == []
  {
    hide EndsExplaining, WorkflowMigratable, WorkflowSame;
    NoFactNeeded(c, ctx);
    var records := c.taskEffectRecords;
    var committedActive := exists i | 0 <= i < |records| ::
      records[i].taskId == c.activeTaskId && records[i].effectState == Committed && records[i].taskId !in c.completedTaskIds;
    if committedActive {
      evidence := [Fact("side_effect_completion_boundary", "committed active task is marked completed", c.activeTaskId, "UNKNOWN", "")];
      PlaceExplains(evidence[0], c, ctx);
      if ctx.requestedAction == Some(ReplayFromStage) {
        return Rejected(DuplicateSideEffect), evidence;
      }
      return Unclear(DuplicateSideEffect, ConfirmCommitted), evidence;
    }
    if !a.workflowSame && !a.workflowMigratable {
      return Rejected(WorkflowIncompatible), [];
    }
    if c.activeStageId == "" && c.targetSummary == "" {
      return Rejected(NoResumablePosition), [];
    }
    if ctx.requestedStageId != "" && ctx.requestedStageId != c.activeStageId {
      evidence := [Fact("resume_stage", c.activeStageId, ctx.requestedStageId, "MISMATCH", "")];
      PlaceExplains(evidence[0], c, ctx);
      return Rejected(InvalidRequestedStage), evidence;
    }
    return None, [];
  }

  method CheckReplay(c: RunCheckpoint, ctx: ResumeContext, a: Assessment)
    returns (refusal: Option<Refusal>, evidence: seq<RuntimeEvidence>)
    requires a.replayAllowed == ExactVersions(c, ctx)
    requires !a.replayAllowed ==> a.reason.GetOr(PlanIncompatible) == PlanIncompatible
    ensures refusal == ReplayRefusal(c, ctx)
    ensures if refusal.Some? then EndsExplaining(evidence, refusal.value.reason, c, ctx) else evidence == []
  {
    hide Join, Sorted, EffectName, BlockingNames, ExactVersions, EndsExplaining;
    NoFactNeeded(c, ctx);
    if !a.replayAllowed {
      return Rejected(a.reason.GetOr(PlanIncompatible)), [];
    }
    if !ctx.stageIdempotent {
      evidence := [Fact("stage_idempotency", "true", "false", "REJECTED", "")];
      PlaceExplains(evidence[0], c, ctx);
      return Rejected(NonIdempotentStage), evidence;
    }
    var blocking := set i | 0 <= i < |c.taskEffectRecords|
                            && c.taskEffectRecords[i].taskId == c.activeTaskId && BlocksReplay(c.taskEffectRecords[i]);
    if blocking != {} {
      var names := Sorted(set i | i in blocking :: EffectName(c.taskEffectRecords[i].effectState));
      BlockingNamed(c, blocking);
      evidence := [Fact("side_effect_replay_safety", "no committed/in-progress/unknown effects", Join(",", names), "REJECTED", "")];
      BlockedExplains(evidence[0], c, ctx);
      var unknown := exists i | 0 <= i < |c.taskEffectRecords| ::
        c.taskEffectRecords[i].taskId == c.activeTaskId && c.taskEffectRecords[i].effectState == Unknown;
      assert !ReplaySafe(c) by { var i :| i in blocking; }
      return Rejected(if unknown then UnknownSideEffect else DuplicateSideEffect), evidence;
    }
    forall i | 0 <= i < |c.taskEffectRecords| && c.taskEffectRecords[i].taskId == c.activeTaskId
      ensures !BlocksReplay(c.taskEffectRecords[i])
    {
      assert i !in blocking;
    }
    return None, [];
  }

  lemma BlockingNamed(c: RunCheckpoint, blocking: set<int>)
    requires blocking == set i | 0 <= i < |c.taskEffectRecords|
                                 && c.taskEffectRecords[i].taskId == c.activeTaskId && BlocksReplay(c.taskEffectRecords[i])
    ensures Join(",", Sorted(set i | i in blocking :: EffectName(c.taskEffectRecords[i].effectState))) == BlockingNames(c)
  {
    hide Join, Sorted, EffectName;
    var named := set i | i in blocking :: EffectName(c.taskEffectRecords[i].effectState);
    var meant := set r | r in c.taskEffectRecords && r.taskId == c.activeTaskId
                         && r.effectState in {Committed, Unknown, Started, FailedAfterCommit} :: EffectName(r.effectState);
    forall name | name in named ensures name in meant {
      var i :| i in blocking && EffectName(c.taskEffectRecords[i].effectState) == name;
      assert c.taskEffectRecords[i] in c.taskEffectRecords;
    }
    forall name | name in meant ensures name in named {
      var r :| r in c.taskEffectRecords && r.taskId == c.activeTaskId
               && r.effectState in {Committed, Unknown, Started, FailedAfterCommit} && EffectName(r.effectState) == name;
      var i :| 0 <= i < |c.taskEffectRecords| && c.taskEffectRecords[i] == r;
      assert i in blocking;
    }
    assert named == meant;
  }

  lemma UnsafeNamed(c: RunCheckpoint, unsafe: seq<TaskEffectRecord>)
    requires unsafe == UnsafeEffects(c.taskEffectRecords)
    ensures Join(",", Sorted(set i | 0 <= i < |unsafe| :: EffectName(unsafe[i].effectState))) == UnsafeNames(c)
  {
    NoneUnsafe(c.taskEffectRecords);
    hide Join, Sorted, EffectName, UnsafeEffects;
    var named := set i | 0 <= i < |unsafe| :: EffectName(unsafe[i].effectState);
    var meant := set r | r in c.taskEffectRecords && r.effectState in {Unknown, Started, FailedAfterCommit} :: EffectName(r.effectState);
    forall name | name in named ensures name in meant {
      var i :| 0 <= i < |unsafe| && EffectName(unsafe[i].effectState) == name;
      assert unsafe[i] in unsafe;
    }
    forall name | name in meant ensures name in named {
      var r :| r in c.taskEffectRecords && r.effectState in {Unknown, Started, FailedAfterCommit} && EffectName(r.effectState) == name;
      assert r in unsafe;
      var i :| 0 <= i < |unsafe| && unsafe[i] == r;
    }
    assert named == meant;
  }

  /** The effect check of a requested replan. */
  method CheckReplan(c: RunCheckpoint, ghost ctx: ResumeContext) returns (refusal: Option<Refusal>, evidence: seq<RuntimeEvidence>)
    ensures refusal == if NoUnsafeEffects(c) then None else Unclear(UnknownSideEffect, ReplanUnsafe)
    ensures if refusal.Some? then EndsExplaining(evidence, refusal.value.reason, c, ctx) else evidence == []
  {
    hide Join, Sorted, EffectName, UnsafeNames, UnsafeEffects, EndsExplaining;
    var unsafe := UnsafeEffects(c.taskEffectRecords);
    NoneUnsafe(c.taskEffectRecords);
    if unsafe == [] {
      return None, [];
    }
    var names := Sorted(set i | 0 <= i < |unsafe| :: EffectName(unsafe[i].effectState));
    UnsafeNamed(c, unsafe);
    evidence := [Fact("side_effect_replan_safety", "no unknown/in-progress effects", Join(",", names), "UNKNOWN", "")];
    UnsafeExplains(evidence[0], c);
    return Unclear(UnknownSideEffect, ReplanUnsafe), evidence;
  }

  /** The end of the cascade: the effects, or what is attested about them, decide. */
  method DecideOnEffects(
    c: RunCheckpoint, ghost ctx: ResumeContext, conf: Option<NoEffectConfirmation>, p: Platform,
    action: ResumeAction, before: seq<RuntimeEvidence>)
    returns (d: ResumeDecision)
    requires action == ResumeExact || (action == ReplanFromCheckpoint && ctx.requestedAction != Some(ReplanFromCheckpoint))
    ensures Announces(
              d, Decide(EffectRefusal(c, conf, p), action, if action == ResumeExact then AllowedExact else AllowedReplan), c, ctx)
    ensures before <= d.evidence
    ensures d.action.Some? && conf.Some? ==> EndsAttesting(d.evidence, conf.value)
    ensures d.action.None? ==> EndsExplaining(d.evidence, d.reason, c, ctx)
  {
    hide EffectRefusal, EndsAttesting, EndsExplaining;
    var refusal, facts := CheckEffects(c, conf, p);
    var evidence := before + facts;
    if refusal.Some? {
      ExplainsLast(before, facts, refusal.value.reason, c, ctx);
      return Refuse(c, refusal.value, evidence);
    }
    if conf.Some? { AttestsLast(before, facts, conf.value); }
    return Permit(c, action, if action == ResumeExact then AllowedExact else AllowedReplan, evidence,
                  Some(c.activeStageId), Some(c.activeTaskId));
  }

  /** The part of the cascade that knows the requested action. */
  method DecideAction(
    c: RunCheckpoint, ctx: ResumeContext, conf: Option<NoEffectConfirmation>, a: Assessment,
    ghost registry: CompatibilityRegistry, p: Platform, before: seq<RuntimeEvidence>)
    returns (d: ResumeDecision)
    requires a.workflowSame == WorkflowSame(c, ctx) && a.workflowMigratable == WorkflowMigratable(c, ctx, registry)
    requires a.replanAllowed == (a.workflowSame || a.workflowMigratable)
    requires a.exactAllowed == a.replayAllowed == ExactVersions(c, ctx)
    requires a.replanAllowed && !a.exactAllowed ==> a.reason.GetOr(PlanIncompatible) == PlanIncompatible
    ensures Announces(d, ActionVerdict(c, ctx, conf, registry, p), c, ctx)
    ensures before <= d.evidence
    ensures d.action == Some(ResumeExact) && conf.Some? ==> EndsAttesting(d.evidence, conf.value)
    ensures d.action.None? ==> EndsExplaining(d.evidence, d.reason, c, ctx)
  {
    hide WorkflowSame, WorkflowMigratable, ExactVersions, EffectRefusal, ReplayRefusal, NoUnsafeEffects, PositionRefusal, EndsAttesting, EndsExplaining;
    var evidence := before;
    if ctx.requestedAction == Some(AbandonAndRestart) {
      return Permit(c, AbandonAndRestart, AllowedAbandon, evidence, None, None);
    }
    var refusal, facts := CheckPosition(c, ctx, a, registry);
    if refusal.Some? { ExplainsLast(evidence, facts, refusal.value.reason, c, ctx); }
    evidence := evidence + facts;
    assert before <= evidence;
    if refusal.Some? {
      return Refuse(c, refusal.value, evidence);
    }
    if ctx.requestedAction == Some(ReplayFromStage) {
      refusal, facts := CheckReplay(c, ctx, a);
      if refusal.Some? { ExplainsLast(evidence, facts, refusal.value.reason, c, ctx); }
      evidence := evidence + facts;
      assert before <= evidence;
      if refusal.Some? {
        return Refuse(c, refusal.value, evidence);
      }
      return Permit(c, ReplayFromStage, AllowedReplay, evidence, Some(c.activeStageId), Some(c.activeTaskId));
    }
    if ctx.requestedAction == Some(ReplanFromCheckpoint) {
      refusal, facts := CheckReplan(c, ctx);
      if refusal.Some? { ExplainsLast(evidence, facts, refusal.value.reason, c, ctx); }
      evidence := evidence + facts;
      assert before <= evidence;
      if refusal.Some? {
        return Refuse(c, refusal.value, evidence);
      }
      return Permit(c, ReplanFromCheckpoint, AllowedReplan, evidence,
                    if c.activeStageId == "" then None else Some(c.activeStageId),
                    if c.activeTaskId == "" then None else Some(c.activeTaskId));
    }
    var action := ResumeExact;
    if ctx.requestedAction == Some(ResumeExact) {
      if !a.exactAllowed {
        NoFactNeeded(c, ctx);
        return Refuse(c, Refusal(Reject, a.reason.GetOr(PlanIncompatible), None), evidence);
      }
    } else {
      action := if a.exactAllowed then ResumeExact else ReplanFromCheckpoint;
    }
    d := DecideOnEffects(c, ctx, conf, p, action, evidence);
  }

  /** Everything that does not depend on the action: address, guards, versions, and who may confirm. */
  method Admit(
    c: RunCheckpoint, ctx: ResumeContext, obs: seq<ExternalStateGuard>, conf: Option<NoEffectConfirmation>,
    registry: CompatibilityRegistry, p: Platform)
    returns (refusal: Option<Refusal>, evidence: seq<RuntimeEvidence>, a: Option<Assessment>)
    ensures refusal == AdmissionRefusal(c, ctx, obs, conf, registry, p)
    ensures refusal.None? ==>
              && a.Some? && a.value.workflowSame == WorkflowSame(c, ctx)
              && a.value.workflowMigratable == WorkflowMigratable(c, ctx, registry)
              && a.value.replanAllowed == (a.value.workflowSame || a.value.workflowMigratable)
              && a.value.exactAllowed == a.value.replayAllowed == ExactVersions(c, ctx)
              && (a.value.replanAllowed && !a.value.exactAllowed ==> a.value.reason.GetOr(PlanIncompatible) == PlanIncompatible)
    ensures refusal.Some? ==> EndsExplaining(evidence, refusal.value.reason, c, ctx)
  {
    hide EndsExplaining, GuardsRefusal, BoundExplained, UnboundExplained, Says;
    a := None;
    refusal, evidence := CheckAddress(c, ctx, p);
    if refusal.Some? {
      AddressExplains(evidence, refusal.value.reason, c, ctx);
      return;
    }
    var facts;
    refusal, facts := CheckGuards(c.externalStateGuards, obs, p);
    if refusal.Some? { ExplainsLast(evidence, facts, refusal.value.reason, c, ctx); }
    evidence := evidence + facts;
    if refusal.Some? {
      return;
    }
    var assessed := AssessCompatibility(c, ctx, registry);
    a := Some(assessed);
    VersionsExplain(c, ctx, registry);
    if !assessed.contractCompatible {
      ExplainsLast(evidence, assessed.evidence, if assessed.schemaCompatible then ContractIncompatible else SchemaIncompatible, c, ctx);
    }
    evidence := evidence + assessed.evidence;
    if !assessed.schemaCompatible {
      refusal := Rejected(SchemaIncompatible);
    } else if !assessed.contractCompatible {
      refusal := Rejected(ContractIncompatible);
    } else if conf.Some? && ctx.requestedAction != Some(ResumeExact) {
      var fact := Fact(
        "no_effect_confirmation", "RESUME_EXACT",
        if ctx.requestedAction.Some? then ActionName(ctx.requestedAction.value) else "unspecified action", "MISMATCH", "");
      ConfirmationExplains(fact, c);
      ExplainsLast(evidence, [fact], UnknownSideEffect, c, ctx);
      evidence := evidence + [fact];
      refusal := Rejected(UnknownSideEffect);
    }
  }

  lemma VersionsExplain(c: RunCheckpoint, ctx: ResumeContext, registry: CompatibilityRegistry)
    ensures !SameMajor(c.schemaVersion, registry.schemaVersion) ==>
              EndsExplaining(Findings(c, ctx, registry), SchemaIncompatible, c, ctx)
    ensures SameMajor(c.schemaVersion, registry.schemaVersion) && !SameMajor(c.contractVersion, registry.contractVersion) ==>
              EndsExplaining(Findings(c, ctx, registry), ContractIncompatible, c, ctx)
  {
    FindingsReport(c, ctx, registry);
    hide SameMajor, Findings, WorkflowSame, WorkflowMigratable;
  }

  lemma AddressExplains(evidence: seq<RuntimeEvidence>, reason: ResumeReason, c: RunCheckpoint, ctx: ResumeContext)
    requires |evidence| == 1 && AddressExplained(evidence[0], reason, c, ctx)
    ensures EndsExplaining(evidence, reason, c, ctx)
  {
    hide Says;
  }

  method RunCascade(
    c: RunCheckpoint, ctx: ResumeContext, obs: seq<ExternalStateGuard>,
    conf: Option<NoEffectConfirmation>, registry: CompatibilityRegistry, p: Platform)
    returns (d: ResumeDecision)
    ensures Announces(d, VerdictFor(c, ctx, obs, conf, registry, p), c, ctx)
    ensures c.runtimeEvidence <= d.evidence
    ensures d.action == Some(ResumeExact) && conf.Some? ==> EndsAttesting(d.evidence, conf.value)
    ensures d.action.None? ==> EndsExplaining(d.evidence, d.reason, c, ctx)
  {
    hide ActionVerdict, AdmissionRefusal, WorkflowSame, WorkflowMigratable, ExactVersions, EndsAttesting, EndsExplaining;
    var refusal, facts, a := Admit(c, ctx, obs, conf, registry, p);
    var evidence := c.runtimeEvidence + facts;
    if refusal.Some? {
      ExplainsLast(c.runtimeEvidence, facts, refusal.value.reason, c, ctx);
      d := Refuse(c, refusal.value, evidence);
      assert VerdictFor(c, ctx, obs, conf, registry, p) == Refused(refusal.value);
      return;
    }
    assert VerdictFor(c, ctx, obs, conf, registry, p) == ActionVerdict(c, ctx, conf, registry, p);
    d := DecideAction(c, ctx, conf, a.value, registry, p, evidence);
  }

  /** The decision about resuming `c`: what it announces, and exactly when it allows what. */
  method ValidateResume(
    c: RunCheckpoint, ctx: ResumeContext, external: Option<seq<ExternalStateGuard>>,
    conf: Option<NoEffectConfirmation>, registry: CompatibilityRegistry, p: Platform)
    returns (d: ResumeDecision)
    ensures Announces(d, VerdictFor(c, ctx, external.GetOr(ctx.externalStateEvidence), conf, registry, p), c, ctx)
    ensures forall action :: (d.disposition == Allow && d.action == Some(action)) <==>
                             Allowed(action, c, ctx, external.GetOr(ctx.externalStateEvidence), conf, registry, p)
    ensures d.runId == c.runId && d.checkpointId == c.checkpointId
    ensures ContinuesFrom(d, c, ctx.requestedAction == Some(ReplanFromCheckpoint))
    ensures d.resultingStatus == match d.disposition
                                 case Allow => if d.action == Some(AbandonAndRestart) then Cancelled else Running
                                 case RequireClarification => WaitingUser
                                 case Reject => c.status
    ensures WellFormed(c) ==> DecisionWellFormed(d)
    ensures c.runtimeEvidence <= d.evidence
    ensures d.action == Some(ResumeExact) && conf.Some? ==> EndsAttesting(d.evidence, conf.value)
    ensures d.action.None? ==> EndsExplaining(d.evidence, d.reason, c, ctx)
  {
    d := RunCascade(c, ctx, external.GetOr(ctx.externalStateEvidence), conf, registry, p);
    AnnouncedMeaning(d, c, ctx, external.GetOr(ctx.externalStateEvidence), conf, registry, p);
    AnnouncedPosition(d, c, ctx, external.GetOr(ctx.externalStateEvidence), conf, registry, p);
    hide VerdictFor, Allowed, EndsAttesting, EndsExplaining;
    RefusalsRefuse(c, ctx, external.GetOr(ctx.externalStateEvidence), conf, registry, p);
  }

  /**
   * Where a decision continues from. What is refused or abandoned continues nowhere; an exact resume, a replay and a
   * replan nobody asked for at the active stage and task; a requested replan at those of the two that there are.
   */
  predicate ContinuesFrom(d: ResumeDecision, c: RunCheckpoint, replanRequested: bool) {
    match d.action
    case None => d.resumeStageId == None && d.resumeTaskId == None
    case Some(AbandonAndRestart) => d.resumeStageId == None && d.resumeTaskId == None && d.reason == AllowedAbandon
    case Some(ResumeExact) =>
      d.resumeStageId == Some(c.activeStageId) && d.resumeTaskId == Some(c.activeTaskId) && d.reason == AllowedExact
    case Some(ReplayFromStage) =>
      d.resumeStageId == Some(c.activeStageId) && d.resumeTaskId == Some(c.activeTaskId) && d.reason == AllowedReplay
    case Some(ReplanFromCheckpoint) =>
      && d.reason == AllowedReplan
      && (d.resumeStageId == Some(c.activeStageId) || (replanRequested && c.activeStageId == "" && d.resumeStageId == None))
      && (d.resumeTaskId == Some(c.activeTaskId) || (replanRequested && c.activeTaskId == "" && d.resumeTaskId == None))
      && (replanRequested ==> d.resumeStageId != Some("") && d.resumeTaskId != Some(""))
  }

  lemma AnnouncedPosition(
    d: ResumeDecision, c: RunCheckpoint, ctx: ResumeContext, obs: seq<ExternalStateGuard>,
    conf: Option<NoEffectConfirmation>, registry: CompatibilityRegistry, p: Platform)
    requires Announces(d, VerdictFor(c, ctx, obs, conf, registry, p), c, ctx)
    ensures ContinuesFrom(d, c, ctx.requestedAction == Some(ReplanFromCheckpoint))
  {
    hide AdmissionRefusal, PositionRefusal, ReplayRefusal, EffectRefusal, NoUnsafeEffects, ExactVersions;
  }

  /** An announced verdict allows an action exactly under its order-free condition, and makes a valid decision. */
  lemma AnnouncedMeaning(
    d: ResumeDecision, c: RunCheckpoint, ctx: ResumeContext, obs: seq<ExternalStateGuard>,
    conf: Option<NoEffectConfirmation>, registry: CompatibilityRegistry, p: Platform)
    requires Announces(d, VerdictFor(c, ctx, obs, conf, registry, p), c, ctx)
    ensures forall action :: (d.disposition == Allow && d.action == Some(action)) <==> Allowed(action, c, ctx, obs, conf, registry, p)
    ensures WellFormed(c) ==> DecisionWellFormed(d)
  {
    var v := VerdictFor(c, ctx, obs, conf, registry, p);
    forall action ensures (d.disposition == Allow && d.action == Some(action)) <==> Allowed(action, c, ctx, obs, conf, registry, p) {
      VerdictMeaning(action, c, ctx, obs, conf, registry, p);
      RefusalsRefuse(c, ctx, obs, conf, registry, p);
    }
    RefusalsRefuse(c, ctx, obs, conf, registry, p);
  }
}

/**
 * When a checkpoint may be resumed: an order-free condition for each action,
 * the ordered verdict that also names the refusal, and their agreement.
 */
module ResumePolicy {
  import opened Text
  import opened Contracts
  import opened Lifecycle
  import opened Compatibility

  /** A parsed timestamp; `aware` says whether it carried a timezone. */
  datatype Instant = Instant(time: int, aware: bool)

  /** The library calls the decision depends on: ISO parsing (with `Z` read as UTC) and case folding. */
  datatype Platform = Platform(parse: string -> Option<Instant>, fold: string -> string)

  datatype Refusal = Refusal(disposition: ResumeDisposition, reason: ResumeReason, question: Option<Question>)

  datatype Verdict = Refused(refusal: Refusal) | Allows(action: ResumeAction, reason: ResumeReason)

  function Rejected(reason: ResumeReason): Option<Refusal> {
    Some(Refusal(Reject, reason, None))
  }

  function Unclear(reason: ResumeReason, question: Question): Option<Refusal> {
    Some(Refusal(RequireClarification, reason, Some(question)))
  }

  // Admission.

  predicate ContextPresent(ctx: ResumeContext) {
    ctx.workflowId != "" && ctx.workflowVersion != "" && ctx.planVersion != ""
  }

  predicate RunMatches(c: RunCheckpoint, ctx: ResumeContext) {
    |ctx.candidateRunIds| <= 1 && forall i | 0 <= i < |ctx.candidateRunIds| :: ctx.candidateRunIds[i] == c.runId
  }

  function ForwardSlashes(s: string): string {
    seq(|s|, i requires 0 <= i < |s| => if s[i] == '\\' then '/' else s[i])
  }

  function TargetKey(s: string, p: Platform): string {
    StripTrailing(p.fold(ForwardSlashes(Strip(s))), '/')
  }

  predicate TargetMatches(c: RunCheckpoint, ctx: ResumeContext, p: Platform) {
    ctx.requestedTarget == "" || c.targetSummary == "" || TargetKey(ctx.requestedTarget, p) == TargetKey(c.targetSummary, p)
  }

  predicate PermissionsCovered(ctx: ResumeContext) {
    forall x | x in ctx.requiredPermissions :: x in ctx.availablePermissions
  }

  // Guards.

  function Identity(g: ExternalStateGuard): (string, string) {
    (g.resourceId, g.guardType)
  }

  predicate DistinctIdentities(obs: seq<ExternalStateGuard>) {
    forall i, j | 0 <= i < j < |obs| :: Identity(obs[i]) != Identity(obs[j])
  }

  predicate AllExpected(obs: seq<ExternalStateGuard>, guards: seq<ExternalStateGuard>) {
    forall i | 0 <= i < |obs| :: exists j | 0 <= j < |guards| :: Identity(guards[j]) == Identity(obs[i])
  }

  /** The observation is timezone-aware and later than the guard's own check, if it had one. */
  predicate FreshSince(checkedAt: string, previous: string, p: Platform) {
    var now, before := p.parse(checkedAt), p.parse(previous);
    now.Some? && now.value.aware
    && (previous == "" || (before.Some? && before.value.aware && now.value.time > before.value.time))
  }

  /** A fresh observation that saw exactly the expected value. */
  predicate Confirms(o: ExternalStateGuard, g: ExternalStateGuard, p: Platform) {
    && o.status == Verified && g.expectedValue != ""
    && o.expectedValue == g.expectedValue && o.observedValue == g.expectedValue
    && FreshSince(o.checkedAt, g.checkedAt, p)
  }

  predicate Confirmed(g: ExternalStateGuard, obs: seq<ExternalStateGuard>, p: Platform) {
    exists i | 0 <= i < |obs| :: Identity(obs[i]) == Identity(g) && Confirms(obs[i], g, p)
  }

  /** Every guard confirmed by its one observation and nothing else observed; without guards, nothing doubtful observed. */
  ghost predicate GuardsHold(guards: seq<ExternalStateGuard>, obs: seq<ExternalStateGuard>, p: Platform) {
    if guards == [] then forall i | 0 <= i < |obs| :: obs[i].status == Verified
    else
      && DistinctIdentities(obs) && AllExpected(obs, guards)
      && AllConfirmed(guards, obs, p)
  }

  predicate AllConfirmed(guards: seq<ExternalStateGuard>, obs: seq<ExternalStateGuard>, p: Platform) {
    forall j | 0 <= j < |guards| :: Confirmed(guards[j], obs, p)
  }

  function Lookup(obs: seq<ExternalStateGuard>, id: (string, string)): Option<ExternalStateGuard> {
    if obs == [] then None
    else if Identity(obs[|obs| - 1]) == id then Some(obs[|obs| - 1])
    else Lookup(obs[..|obs| - 1], id)
  }

  /** What is wrong with one guard, given its observation. */
  function GuardRefusal(g: ExternalStateGuard, found: Option<ExternalStateGuard>, p: Platform): Option<Refusal> {
    if found.None? then Unclear(ExternalStateUnknown, RecheckResource)
    else
      var o := found.value;
      if o.status == Mismatch then Rejected(ExternalStateMismatch)
      else if o.status == GuardUnknown || o.status == Missing then Unclear(ExternalStateUnknown, ConfirmResource)
      else if g.expectedValue == "" then Unclear(ExternalStateUnknown, SupplyExpectedState)
      else if o.expectedValue != g.expectedValue then Rejected(ExternalStateMismatch)
      else if !FreshSince(o.checkedAt, g.checkedAt, p) then Unclear(ExternalStateUnknown, RefreshObservation)
      else if o.observedValue != g.expectedValue then Rejected(ExternalStateMismatch)
      else None
  }

  /** The refusal of the first guard that fails. */
  function FirstGuardRefusal(guards: seq<ExternalStateGuard>, obs: seq<ExternalStateGuard>, p: Platform): Option<Refusal> {
    if guards == [] then None
    else
      var first := GuardRefusal(guards[0], Lookup(obs, Identity(guards[0])), p);
      if first.Some? then first else FirstGuardRefusal(guards[1..], obs, p)
  }

  function GuardsRefusal(guards: seq<ExternalStateGuard>, obs: seq<ExternalStateGuard>, p: Platform): Option<Refusal> {
    if guards != [] then
      if obs == [] then Unclear(ExternalStateUnknown, RecheckGuards)
      else if !DistinctIdentities(obs) || !AllExpected(obs, guards) then Rejected(ExternalStateMismatch)
      else FirstGuardRefusal(guards, obs, p)
    else if exists i | 0 <= i < |obs| :: obs[i].status == Mismatch then Rejected(ExternalStateMismatch)
    else if exists i | 0 <= i < |obs| :: obs[i].status != Verified then Unclear(ExternalStateUnknown, ConfirmResource)
    else None
  }

  lemma {:induction false} LookupMeaning(obs: seq<ExternalStateGuard>, id: (string, string))
    ensures Lookup(obs, id).None? <==> forall i | 0 <= i < |obs| :: Identity(obs[i]) != id
    ensures Lookup(obs, id).Some? ==> Lookup(obs, id).value in obs && Identity(Lookup(obs, id).value) == id
    ensures DistinctIdentities(obs) ==> forall i | 0 <= i < |obs| && Identity(obs[i]) == id :: Lookup(obs, id) == Some(obs[i])
  {
    if obs != [] { LookupMeaning(obs[..|obs| - 1], id); }
  }

  lemma GuardRefusalMeaning(g: ExternalStateGuard, obs: seq<ExternalStateGuard>, p: Platform)
    requires DistinctIdentities(obs)
    ensures GuardRefusal(g, Lookup(obs, Identity(g)), p).None? <==> Confirmed(g, obs, p)
  {
    LookupMeaning(obs, Identity(g));
    if Lookup(obs, Identity(g)).Some? {
      var o := Lookup(obs, Identity(g)).value;
      var i :| 0 <= i < |obs| && obs[i] == o;
      assert GuardRefusal(g, Some(o), p).None? <==> Confirms(obs[i], g, p);
    }
  }

  lemma AllConfirmedSplit(guards: seq<ExternalStateGuard>, obs: seq<ExternalStateGuard>, p: Platform)
    requires guards != []
    ensures AllConfirmed(guards, obs, p) <==> Confirmed(guards[0], obs, p) && AllConfirmed(guards[1..], obs, p)
  {
    if Confirmed(guards[0], obs, p) && AllConfirmed(guards[1..], obs, p) {
      forall j | 0 <= j < |guards| ensures Confirmed(guards[j], obs, p) {
        if j > 0 { assert Confirmed(guards[1..][j - 1], obs, p); }
      }
    }
  }

  lemma {:induction false} FirstGuardRefusalMeaning(guards: seq<ExternalStateGuard>, obs: seq<ExternalStateGuard>, p: Platform)
    requires DistinctIdentities(obs)
    ensures FirstGuardRefusal(guards, obs, p).None? <==> AllConfirmed(guards, obs, p)
  {
    if guards != [] {
      GuardRefusalMeaning(guards[0], obs, p);
      FirstGuardRefusalMeaning(guards[1..], obs, p);
      AllConfirmedSplit(guards, obs, p);
    }
  }

  /** The ordered guard checks refuse exactly when the order-free guard condition fails. */
  lemma GuardsRefusalMeaning(guards: seq<ExternalStateGuard>, obs: seq<ExternalStateGuard>, p: Platform)
    ensures GuardsRefusal(guards, obs, p).None? <==> GuardsHold(guards, obs, p)
  {
    if guards != [] {
      if DistinctIdentities(obs) { FirstGuardRefusalMeaning(guards, obs, p); }
      if obs == [] { assert !Confirmed(guards[0], obs, p); }
    }
  }

  // Effects.

  predicate Unsafe(r: TaskEffectRecord) {
    UnsafeState(r.effectState)
  }

  predicate BlocksReplay(r: TaskEffectRecord) {
    Unsafe(r) || r.effectState == Committed
  }

  function UnsafeEffects(records: seq<TaskEffectRecord>): seq<TaskEffectRecord> {
    if records == [] then []
    else (if Unsafe(records[0]) then [records[0]] else []) + UnsafeEffects(records[1..])
  }

  predicate NoUnsafeEffects(c: RunCheckpoint) {
    forall i | 0 <= i < |c.taskEffectRecords| :: !Unsafe(c.taskEffectRecords[i])
  }

  /** The active task's effect is committed, but the task was never marked completed. */
  predicate CommittedActiveTask(c: RunCheckpoint) {
    exists i | 0 <= i < |c.taskEffectRecords| ::
      && c.taskEffectRecords[i].taskId == c.activeTaskId
      && c.taskEffectRecords[i].effectState == Committed
      && c.taskEffectRecords[i].taskId !in c.completedTaskIds
  }

  predicate ReplaySafe(c: RunCheckpoint) {
    forall i | 0 <= i < |c.taskEffectRecords| ::
      c.taskEffectRecords[i].taskId == c.activeTaskId ==> !BlocksReplay(c.taskEffectRecords[i])
  }

  /** The confirmation names this effect completely and was made after the checkpoint was written. */
  predicate Attests(conf: NoEffectConfirmation, r: TaskEffectRecord, c: RunCheckpoint, p: Platform) {
    && r.idempotencyKey != "" && r.externalReference != ""
    && conf.taskId == r.taskId && conf.idempotencyKey == r.idempotencyKey && conf.externalReference == r.externalReference
    && ConfirmedAfter(conf.checkedAt, c.updatedAt, p)
  }

  predicate ConfirmedAfter(checkedAt: string, updatedAt: string, p: Platform) {
    var confirmed, written := p.parse(checkedAt), p.parse(updatedAt);
    confirmed.Some? && written.Some? && confirmed.value.aware && written.value.aware && confirmed.value.time > written.value.time
  }

  /** No unsafe effect; or exactly one, of the active task, attested not to have happened. */
  ghost predicate EffectsSettled(c: RunCheckpoint, conf: Option<NoEffectConfirmation>, p: Platform) {
    match conf
    case None => NoUnsafeEffects(c)
    case Some(a) =>
      exists i | 0 <= i < |c.taskEffectRecords| ::
        && OnlyUnsafe(c.taskEffectRecords, i)
        && c.taskEffectRecords[i].taskId == c.activeTaskId
        && Attests(a, c.taskEffectRecords[i], c, p)
  }

  predicate OnlyUnsafe(records: seq<TaskEffectRecord>, i: nat)
    requires i < |records|
  {
    Unsafe(records[i]) && forall j | 0 <= j < |records| :: Unsafe(records[j]) ==> j == i
  }

  // The order-free condition.

  ghost predicate Admissible(
    c: RunCheckpoint, ctx: ResumeContext, obs: seq<ExternalStateGuard>, conf: Option<NoEffectConfirmation>,
    registry: CompatibilityRegistry, p: Platform)
  {
    && ContextPresent(ctx) && RunMatches(c, ctx) && TargetMatches(c, ctx, p)
    && !Terminal(c.status) && c.invalidationReasons == [] && PermissionsCovered(ctx)
    && GuardsHold(c.externalStateGuards, obs, p) && VersionsReadable(c, registry)
    && (conf.Some? ==> ctx.requestedAction == Some(ResumeExact))
  }

  /** There is a place to continue from, the one requested, and its task is not half done. */
  predicate Positioned(c: RunCheckpoint, ctx: ResumeContext) {
    && !CommittedActiveTask(c)
    && (c.activeStageId != "" || c.targetSummary != "")
    && (ctx.requestedStageId == "" || ctx.requestedStageId == c.activeStageId)
  }

  predicate ExactVersions(c: RunCheckpoint, ctx: ResumeContext) {
    WorkflowSame(c, ctx) && c.planVersion == ctx.planVersion
  }

  /** The whole meaning of an ALLOW decision carrying `action`. */
  ghost predicate Allowed(
    action: ResumeAction, c: RunCheckpoint, ctx: ResumeContext, obs: seq<ExternalStateGuard>,
    conf: Option<NoEffectConfirmation>, registry: CompatibilityRegistry, p: Platform)
  {
    Admissible(c, ctx, obs, conf, registry, p) && ActionAllowed(action, c, ctx, conf, registry, p)
  }

  /** What each action needs beyond admission. */
  ghost predicate ActionAllowed(
    action: ResumeAction, c: RunCheckpoint, ctx: ResumeContext,
    conf: Option<NoEffectConfirmation>, registry: CompatibilityRegistry, p: Platform)
  {
    match action
    case AbandonAndRestart => ctx.requestedAction == Some(AbandonAndRestart)
    case ReplayFromStage =>
      && ctx.requestedAction == Some(ReplayFromStage) && Positioned(c, ctx)
      && ExactVersions(c, ctx) && ctx.stageIdempotent && ReplaySafe(c)
    case ReplanFromCheckpoint =>
      && (ctx.requestedAction == Some(ReplanFromCheckpoint) || (ctx.requestedAction == None && !ExactVersions(c, ctx)))
      && Positioned(c, ctx) && (WorkflowSame(c, ctx) || WorkflowMigratable(c, ctx, registry)) && NoUnsafeEffects(c)
    case ResumeExact =>
      && (ctx.requestedAction == Some(ResumeExact) || ctx.requestedAction == None)
      && Positioned(c, ctx) && ExactVersions(c, ctx) && EffectsSettled(c, conf, p)
  }

  // The ordered verdict.

  ghost function AdmissionRefusal(
    c: RunCheckpoint, ctx: ResumeContext, obs: seq<ExternalStateGuard>, conf: Option<NoEffectConfirmation>,
    registry: CompatibilityRegistry, p: Platform): Option<Refusal>
  {
    if !ContextPresent(ctx) then Rejected(MissingContext)
    else if |ctx.candidateRunIds| > 1 then Unclear(AmbiguousRun, WhichRun)
    else if !RunMatches(c, ctx) then Rejected(NoRunMatch)
    else if !TargetMatches(c, ctx, p) then Unclear(TargetConflict, WhichTarget)
    else if Terminal(c.status) then Rejected(TerminalCheckpoint)
    else if c.invalidationReasons != [] then Rejected(CheckpointInvalidated)
    else if !PermissionsCovered(ctx) then Rejected(MissingPermission)
    else if GuardsRefusal(c.externalStateGuards, obs, p).Some? then GuardsRefusal(c.externalStateGuards, obs, p)
    else if !SameMajor(c.schemaVersion, registry.schemaVersion) then Rejected(SchemaIncompatible)
    else if !SameMajor(c.contractVersion, registry.contractVersion) then Rejected(ContractIncompatible)
    else if conf.Some? && ctx.requestedAction != Some(ResumeExact) then Rejected(UnknownSideEffect)
    else None
  }

  ghost function PositionRefusal(c: RunCheckpoint, ctx: ResumeContext, registry: CompatibilityRegistry): Option<Refusal> {
    if CommittedActiveTask(c) then
      if ctx.requestedAction == Some(ReplayFromStage) then Rejected(DuplicateSideEffect)
      else Unclear(DuplicateSideEffect, ConfirmCommitted)
    else if !WorkflowSame(c, ctx) && !WorkflowMigratable(c, ctx, registry) then Rejected(WorkflowIncompatible)
    else if c.activeStageId == "" && c.targetSummary == "" then Rejected(NoResumablePosition)
    else if ctx.requestedStageId != "" && ctx.requestedStageId != c.activeStageId then Rejected(InvalidRequestedStage)
    else None
  }

  function ReplayRefusal(c: RunCheckpoint, ctx: ResumeContext): Option<Refusal> {
    if !ExactVersions(c, ctx) then Rejected(PlanIncompatible)
    else if !ctx.stageIdempotent then Rejected(NonIdempotentStage)
    else if ReplaySafe(c) then None
    else if exists i | 0 <= i < |c.taskEffectRecords| ::
      c.taskEffectRecords[i].taskId == c.activeTaskId && c.taskEffectRecords[i].effectState == Unknown
    then Rejected(UnknownSideEffect)
    else Rejected(DuplicateSideEffect)
  }

  /** Why the unsafe effects keep an exact (or defaulted) resume from going ahead. */
  function EffectRefusal(c: RunCheckpoint, conf: Option<NoEffectConfirmation>, p: Platform): Option<Refusal> {
    var unsafe := UnsafeEffects(c.taskEffectRecords);
    match conf
    case Some(a) =>
      if unsafe == [] then Rejected(UnknownSideEffect)
      else if |unsafe| != 1 || unsafe[0].taskId != c.activeTaskId then Unclear(UnknownSideEffect, ConfirmationTooBroad)
      else if unsafe[0].idempotencyKey == "" || unsafe[0].externalReference == "" then Unclear(UnknownSideEffect, BindingIncomplete)
      else if a.taskId != unsafe[0].taskId || a.idempotencyKey != unsafe[0].idempotencyKey
              || a.externalReference != unsafe[0].externalReference then Rejected(UnknownSideEffect)
      else if !ConfirmedAfter(a.checkedAt, c.updatedAt, p) then Unclear(UnknownSideEffect, ConfirmationStale)
      else None
    case None =>
      if unsafe == [] then None
      else
        var reason :=
          if exists i | 0 <= i < |unsafe| :: unsafe[i].effectState == Started || unsafe[i].effectState == FailedAfterCommit
          then SideEffectInProgress else UnknownSideEffect;
        if |unsafe| != 1 then Unclear(reason, SettleEachEffect)
        else if unsafe[0].idempotencyKey != "" && unsafe[0].externalReference != "" then Unclear(reason, ConfirmNoEffect)
        else Unclear(reason, CompleteEffectRecord)
  }

  function Decide(refusal: Option<Refusal>, action: ResumeAction, reason: ResumeReason): Verdict {
    if refusal.Some? then Refused(refusal.value) else Allows(action, reason)
  }

  ghost function VerdictFor(
    c: RunCheckpoint, ctx: ResumeContext, obs: seq<ExternalStateGuard>, conf: Option<NoEffectConfirmation>,
    registry: CompatibilityRegistry, p: Platform): Verdict
  {
    var admission := AdmissionRefusal(c, ctx, obs, conf, registry, p);
    if admission.Some? then Refused(admission.value) else ActionVerdict(c, ctx, conf, registry, p)
  }

  ghost function ActionVerdict(
    c: RunCheckpoint, ctx: ResumeContext, conf: Option<NoEffectConfirmation>, registry: CompatibilityRegistry, p: Platform): Verdict
  {
    var position := PositionRefusal(c, ctx, registry);
    if ctx.requestedAction == Some(AbandonAndRestart) then Allows(AbandonAndRestart, AllowedAbandon)
    else if position.Some? then Refused(position.value)
    else if ctx.requestedAction == Some(ReplayFromStage) then
      Decide(ReplayRefusal(c, ctx), ReplayFromStage, AllowedReplay)
    else if ctx.requestedAction == Some(ReplanFromCheckpoint) then
      Decide(if NoUnsafeEffects(c) then None else Unclear(UnknownSideEffect, ReplanUnsafe), ReplanFromCheckpoint, AllowedReplan)
    else if ExactVersions(c, ctx) then Decide(EffectRefusal(c, conf, p), ResumeExact, AllowedExact)
    else if ctx.requestedAction == Some(ResumeExact) then Refused(Refusal(Reject, PlanIncompatible, None))
    else Decide(EffectRefusal(c, conf, p), ReplanFromCheckpoint, AllowedReplan)
  }

  lemma {:induction false} NoneUnsafe(records: seq<TaskEffectRecord>)
    ensures UnsafeEffects(records) == [] <==> forall i | 0 <= i < |records| :: !Unsafe(records[i])
    ensures forall r :: r in UnsafeEffects(records) <==> r in records && Unsafe(r)
  {
    if records != [] {
      NoneUnsafe(records[1..]);
      assert records == [records[0]] + records[1..];
    }
  }

  lemma {:induction false} OneUnsafe(records: seq<TaskEffectRecord>, i: nat)
    requires i < |records| && OnlyUnsafe(records, i)
    ensures UnsafeEffects(records) == [records[i]]
  {
    var rest := records[1..];
    if i == 0 {
      forall j | 0 <= j < |rest| ensures !Unsafe(rest[j]) { assert !Unsafe(records[j + 1]); }
      NoneUnsafe(rest);
    } else {
      assert !Unsafe(records[0]);
      forall j | 0 <= j < |rest| ensures Unsafe(rest[j]) ==> j == i - 1 { assert rest[j] == records[j + 1]; }
      OneUnsafe(rest, i - 1);
    }
  }

  lemma {:induction false} FindOnlyUnsafe(records: seq<TaskEffectRecord>) returns (i: nat)
    requires |UnsafeEffects(records)| == 1
    ensures i < |records| && OnlyUnsafe(records, i) && records[i] == UnsafeEffects(records)[0]
  {
    var rest := records[1..];
    if Unsafe(records[0]) {
      i := 0;
      NoneUnsafe(rest);
      forall j | 0 < j < |records| ensures !Unsafe(records[j]) { assert rest[j - 1] == records[j]; }
    } else {
      i := FindOnlyUnsafe(rest);
      i := i + 1;
      forall j | 0 <= j < |records| ensures Unsafe(records[j]) ==> j == i {
        if j > 0 { assert records[j] == rest[j - 1]; }
      }
    }
  }

  /** The ordered effect checks pass exactly when the effects are settled. */
  lemma EffectRefusalMeaning(c: RunCheckpoint, conf: Option<NoEffectConfirmation>, p: Platform)
    ensures EffectRefusal(c, conf, p).None? <==> EffectsSettled(c, conf, p)
  {
    var records := c.taskEffectRecords;
    NoneUnsafe(records);
    if conf.Some? {
      if EffectRefusal(c, conf, p).None? {
        var i := FindOnlyUnsafe(records);
        assert Attests(conf.value, records[i], c, p);
      }
      if EffectsSettled(c, conf, p) {
        var i :| 0 <= i < |records| && OnlyUnsafe(records, i) && records[i].taskId == c.activeTaskId && Attests(conf.value, records[i], c, p);
        OneUnsafe(records, i);
      }
    }
  }

  lemma AdmissionMeaning(
    c: RunCheckpoint, ctx: ResumeContext, obs: seq<ExternalStateGuard>, conf: Option<NoEffectConfirmation>,
    registry: CompatibilityRegistry, p: Platform)
    ensures AdmissionRefusal(c, ctx, obs, conf, registry, p).None? <==> Admissible(c, ctx, obs, conf, registry, p)
  {
    GuardsRefusalMeaning(c.externalStateGuards, obs, p);
  }

  lemma PositionMeaning(c: RunCheckpoint, ctx: ResumeContext, registry: CompatibilityRegistry)
    ensures PositionRefusal(c, ctx, registry).None? <==>
            Positioned(c, ctx) && (WorkflowSame(c, ctx) || WorkflowMigratable(c, ctx, registry))
  {
  }

  lemma RequestedCases(requested: Option<ResumeAction>)
    ensures requested == None || requested == Some(ResumeExact) || requested == Some(ReplayFromStage)
            || requested == Some(ReplanFromCheckpoint) || requested == Some(AbandonAndRestart)
  {
    match requested
    case None =>
    case Some(ResumeExact) =>
    case Some(ReplayFromStage) =>
    case Some(ReplanFromCheckpoint) =>
    case Some(AbandonAndRestart) =>
  }

  lemma ActionVerdictMeaning(
    action: ResumeAction, c: RunCheckpoint, ctx: ResumeContext,
    conf: Option<NoEffectConfirmation>, registry: CompatibilityRegistry, p: Platform)
    requires conf.Some? ==> ctx.requestedAction == Some(ResumeExact)
    ensures (ActionVerdict(c, ctx, conf, registry, p).Allows? && ActionVerdict(c, ctx, conf, registry, p).action == action)
            <==> ActionAllowed(action, c, ctx, conf, registry, p)
  {
    PositionMeaning(c, ctx, registry);
    EffectRefusalMeaning(c, conf, p);
    RequestedCases(ctx.requestedAction);
    match action
    case AbandonAndRestart =>
    case ReplayFromStage =>
    case ReplanFromCheckpoint =>
    case ResumeExact =>
  }

  /** The whole cascade of early returns allows an action exactly when its order-free condition holds. */
  lemma VerdictMeaning(
    action: ResumeAction, c: RunCheckpoint, ctx: ResumeContext, obs: seq<ExternalStateGuard>,
    conf: Option<NoEffectConfirmation>, registry: CompatibilityRegistry, p: Platform)
    ensures (VerdictFor(c, ctx, obs, conf, registry, p).Allows? && VerdictFor(c, ctx, obs, conf, registry, p).action == action)
            <==> Allowed(action, c, ctx, obs, conf, registry, p)
  {
    AdmissionMeaning(c, ctx, obs, conf, registry, p);
    if Admissible(c, ctx, obs, conf, registry, p) {
      ActionVerdictMeaning(action, c, ctx, conf, registry, p);
    }
  }

  /** A refusal never carries the ALLOW disposition, and asks a question exactly when it wants clarification. */
  ghost predicate Refuses(r: Option<Refusal>) {
    r.Some? ==> r.value.disposition != Allow && (r.value.disposition == RequireClarification <==> r.value.question.Some?)
  }

  lemma {:induction false} GuardRefusalsRefuse(guards: seq<ExternalStateGuard>, obs: seq<ExternalStateGuard>, p: Platform)
    ensures Refuses(FirstGuardRefusal(guards, obs, p))
  {
    if guards != [] { GuardRefusalsRefuse(guards[1..], obs, p); }
  }

  lemma AdmissionRefuses(
    c: RunCheckpoint, ctx: ResumeContext, obs: seq<ExternalStateGuard>, conf: Option<NoEffectConfirmation>,
    registry: CompatibilityRegistry, p: Platform)
    ensures Refuses(AdmissionRefusal(c, ctx, obs, conf, registry, p))
  {
    GuardRefusalsRefuse(c.externalStateGuards, obs, p);
    assert Refuses(GuardsRefusal(c.externalStateGuards, obs, p));
  }

  lemma ActionRefuses(c: RunCheckpoint, ctx: ResumeContext, conf: Option<NoEffectConfirmation>, registry: CompatibilityRegistry, p: Platform)
    ensures ActionVerdict(c, ctx, conf, registry, p).Refused? ==> Refuses(Some(ActionVerdict(c, ctx, conf, registry, p).refusal))
  {
    assert Refuses(PositionRefusal(c, ctx, registry));
    assert Refuses(ReplayRefusal(c, ctx));
    assert Refuses(EffectRefusal(c, conf, p));
  }

  lemma RefusalsRefuse(
    c: RunCheckpoint, ctx: ResumeContext, obs: seq<ExternalStateGuard>, conf: Option<NoEffectConfirmation>,
    registry: CompatibilityRegistry, p: Platform)
    ensures VerdictFor(c, ctx, obs, conf, registry, p).Refused? ==> Refuses(Some(VerdictFor(c, ctx, obs, conf, registry, p).refusal))
  {
    AdmissionRefuses(c, ctx, obs, conf, registry, p);
    ActionRefuses(c, ctx, conf, registry, p);
  }
}

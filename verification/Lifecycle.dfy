/** The declared status transitions, and the two ways a child checkpoint is derived. */
module Lifecycle {
  import opened Text
  import opened PlanValues
  import opened Contracts

  function AllowedTransitions(s: CheckpointStatus): set<CheckpointStatus> {
    match s
    case Created => {Running, Cancelled}
    case Running => {Suspended, WaitingUser, FailedRecoverable, FailedTerminal, Completed}
    case Suspended => {Running, WaitingUser, Cancelled}
    case WaitingUser => {Suspended, Cancelled}
    case FailedRecoverable => {Suspended, WaitingUser, Cancelled}
    case FailedTerminal => {}
    case Completed => {}
    case Cancelled => {}
  }

  predicate AllowedTransition(current: CheckpointStatus, target: CheckpointStatus) {
    target in AllowedTransitions(current)
  }

  predicate Terminal(s: CheckpointStatus) {
    s == Completed || s == Cancelled || s == FailedTerminal
  }

  /** The fields a caller may change; the protected fields, whose change the source refuses, cannot be named here. */
  datatype Changes = Changes(
    activeStageId: Option<string>,
    activeTaskId: Option<string>,
    executionPlan: Option<Value>,
    targetSummary: Option<string>,
    completedStageIds: Option<seq<string>>,
    completedTaskIds: Option<seq<string>>,
    artifacts: Option<seq<ArtifactSnapshot>>,
    verifierStatus: Option<string>,
    failureEvent: Option<Option<FailureEventSnapshot>>,
    proposedNextAction: Option<Option<ResumeAction>>,
    taskEffectRecords: Option<seq<TaskEffectRecord>>,
    idempotencyKeys: Option<seq<string>>,
    invalidationReasons: Option<seq<string>>,
    runtimeEvidence: Option<seq<RuntimeEvidence>>,
    activationAttemptId: Option<string>,
    externalStateGuards: Option<seq<ExternalStateGuard>>,
    schemaVersion: Option<string>,
    contractVersion: Option<string>,
    createdAt: Option<string>,
    supersedesRunId: Option<Option<string>>)

  const NO_CHANGES := Changes(
    None, None, None, None, None, None, None, None, None, None, None, None, None, None, None, None, None, None, None, None)

  datatype LifecycleError =
    | InvalidTransition(current: CheckpointStatus, target: CheckpointStatus)
    | BlankId
    | SameId
    | BadChild(error: ContractError)

  function Replace(c: RunCheckpoint, changes: Changes): RunCheckpoint {
    c.(activeStageId := changes.activeStageId.GetOr(c.activeStageId),
       activeTaskId := changes.activeTaskId.GetOr(c.activeTaskId),
       executionPlan := changes.executionPlan.GetOr(c.executionPlan),
       targetSummary := changes.targetSummary.GetOr(c.targetSummary),
       completedStageIds := changes.completedStageIds.GetOr(c.completedStageIds),
       completedTaskIds := changes.completedTaskIds.GetOr(c.completedTaskIds),
       artifacts := changes.artifacts.GetOr(c.artifacts),
       verifierStatus := changes.verifierStatus.GetOr(c.verifierStatus),
       failureEvent := changes.failureEvent.GetOr(c.failureEvent),
       proposedNextAction := changes.proposedNextAction.GetOr(c.proposedNextAction),
       taskEffectRecords := changes.taskEffectRecords.GetOr(c.taskEffectRecords),
       idempotencyKeys := changes.idempotencyKeys.GetOr(c.idempotencyKeys),
       invalidationReasons := changes.invalidationReasons.GetOr(c.invalidationReasons),
       runtimeEvidence := changes.runtimeEvidence.GetOr(c.runtimeEvidence),
       activationAttemptId := changes.activationAttemptId.GetOr(c.activationAttemptId),
       externalStateGuards := changes.externalStateGuards.GetOr(c.externalStateGuards),
       schemaVersion := changes.schemaVersion.GetOr(c.schemaVersion),
       contractVersion := changes.contractVersion.GetOr(c.contractVersion),
       createdAt := changes.createdAt.GetOr(c.createdAt),
       supersedesRunId := changes.supersedesRunId.GetOr(c.supersedesRunId))
  }

  /** The child's fields, as handed to the constructor. */
  function RawChild(c: RunCheckpoint, target: CheckpointStatus, id: string, at: string, changes: Changes): RunCheckpoint {
    Replace(c, changes).(
      checkpointId := id, parentCheckpointId := Some(c.checkpointId),
      sequenceNumber := c.sequenceNumber + 1, status := target, updatedAt := at)
  }

  function Derive(c: RunCheckpoint, target: CheckpointStatus, id: string, at: string, changes: Changes)
    : Result<RunCheckpoint, LifecycleError>
  {
    if IsBlank(id) then Failure(BlankId)
    else if id == c.checkpointId then Failure(SameId)
    else
      match Construct(RawChild(c, target, id, at, changes))
      case Failure(e) => Failure(BadChild(e))
      case Success(built) => Success(built)
  }

  /** A child whose status moves along the table. */
  function Advance(c: RunCheckpoint, target: CheckpointStatus, id: string, at: string, changes: Changes)
    : Result<RunCheckpoint, LifecycleError>
  {
    if !AllowedTransition(c.status, target) then Failure(InvalidTransition(c.status, target))
    else Derive(c, target, id, at, changes)
  }

  /** A child that may also keep the parent's status. */
  function Append(c: RunCheckpoint, id: string, at: string, status: Option<CheckpointStatus>, changes: Changes)
    : Result<RunCheckpoint, LifecycleError>
  {
    var target := status.GetOr(c.status);
    if target != c.status && !AllowedTransition(c.status, target) then Failure(InvalidTransition(c.status, target))
    else Derive(c, target, id, at, changes)
  }

  /** One legal step of a history, as read off two neighbouring checkpoints. */
  ghost predicate LegalStep(parent: RunCheckpoint, child: RunCheckpoint) {
    && WellFormed(child)
    && child.parentCheckpointId == Some(parent.checkpointId)
    && child.sequenceNumber == parent.sequenceNumber + 1
    && child.checkpointId != parent.checkpointId
    && (child.status == parent.status || AllowedTransition(parent.status, child.status))
    && SameRun(parent, child)
  }

  /** The identity and version fields that both derivations protect. */
  predicate SameRun(a: RunCheckpoint, b: RunCheckpoint) {
    && a.runId == b.runId && a.sessionId == b.sessionId && a.conversationId == b.conversationId
    && a.userScope == b.userScope && a.workflowId == b.workflowId
    && a.workflowVersion == b.workflowVersion && a.planVersion == b.planVersion
  }

  /** A changed child has each named value in its own field; whatever is not named keeps the parent's. */
  lemma ReplacedFields(c: RunCheckpoint, changes: Changes)
    ensures var r := Replace(c, changes);
            && SameRun(c, r) && r.status == c.status && r.checkpointId == c.checkpointId && r.parentCheckpointId == c.parentCheckpointId
            && r.sequenceNumber == c.sequenceNumber && r.updatedAt == c.updatedAt
            && r.activeStageId == changes.activeStageId.GetOr(c.activeStageId) && r.activeTaskId == changes.activeTaskId.GetOr(c.activeTaskId)
            && r.executionPlan == changes.executionPlan.GetOr(c.executionPlan) && r.targetSummary == changes.targetSummary.GetOr(c.targetSummary)
            && r.completedStageIds == changes.completedStageIds.GetOr(c.completedStageIds)
            && r.completedTaskIds == changes.completedTaskIds.GetOr(c.completedTaskIds)
            && r.artifacts == changes.artifacts.GetOr(c.artifacts) && r.verifierStatus == changes.verifierStatus.GetOr(c.verifierStatus)
            && r.failureEvent == changes.failureEvent.GetOr(c.failureEvent)
            && r.proposedNextAction == changes.proposedNextAction.GetOr(c.proposedNextAction)
            && r.taskEffectRecords == changes.taskEffectRecords.GetOr(c.taskEffectRecords)
            && r.idempotencyKeys == changes.idempotencyKeys.GetOr(c.idempotencyKeys)
            && r.invalidationReasons == changes.invalidationReasons.GetOr(c.invalidationReasons)
            && r.runtimeEvidence == changes.runtimeEvidence.GetOr(c.runtimeEvidence)
            && r.activationAttemptId == changes.activationAttemptId.GetOr(c.activationAttemptId)
            && r.externalStateGuards == changes.externalStateGuards.GetOr(c.externalStateGuards)
            && r.schemaVersion == changes.schemaVersion.GetOr(c.schemaVersion) && r.contractVersion == changes.contractVersion.GetOr(c.contractVersion)
            && r.createdAt == changes.createdAt.GetOr(c.createdAt) && r.supersedesRunId == changes.supersedesRunId.GetOr(c.supersedesRunId)
  {
  }

  /** A derivation fails for an undeclared move, a blank or repeated id, or what the constructor refuses, told in this order. */
  lemma DerivationRefused(c: RunCheckpoint, target: CheckpointStatus, id: string, at: string, changes: Changes)
    ensures var moved := Advance(c, target, id, at, changes);
            && (moved == Failure(InvalidTransition(c.status, target)) <==> target !in AllowedTransitions(c.status))
            && (moved == Failure(BlankId) <==> target in AllowedTransitions(c.status) && IsBlank(id))
            && (moved == Failure(SameId) <==> target in AllowedTransitions(c.status) && !IsBlank(id) && id == c.checkpointId)
    ensures var kept := Append(c, id, at, Some(target), changes);
            if target == c.status then
              && !(kept.Failure? && kept.error.InvalidTransition?)
              && (kept == Failure(BlankId) <==> IsBlank(id)) && (kept == Failure(SameId) <==> !IsBlank(id) && id == c.checkpointId)
            else kept == Advance(c, target, id, at, changes)
    ensures Append(c, id, at, None, changes) == Append(c, id, at, Some(c.status), changes)
  {
    hide Construct, RawChild, AllowedTransitions;
  }

  /** Both derivations only ever produce legal steps. */
  lemma DeriveIsLegal(c: RunCheckpoint, target: CheckpointStatus, id: string, at: string, changes: Changes)
    requires Derive(c, target, id, at, changes).Success?
    requires c.status == target || AllowedTransition(c.status, target)
    ensures LegalStep(c, Derive(c, target, id, at, changes).value)
  {
    ConstructAccepts(RawChild(c, target, id, at, changes));
  }
}

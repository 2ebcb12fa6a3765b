/** The immutable checkpoint records and the invariants their constructors enforce. */
module Contracts {
  import opened Text
  import opened PlanValues

  datatype CheckpointStatus =
    | Created | Running | Suspended | WaitingUser
    | FailedRecoverable | FailedTerminal | Completed | Cancelled

  datatype ResumeAction = ResumeExact | ReplayFromStage | ReplanFromCheckpoint | AbandonAndRestart

  datatype SideEffectState =
    | NoEffect | NotStarted | Started | Committed
    | FailedBeforeCommit | FailedAfterCommit | Compensated | Unknown

  /** The effect may have happened, in part or whole, without being recorded as committed. */
  predicate UnsafeState(s: SideEffectState) {
    s == Unknown || s == Started || s == FailedAfterCommit
  }

  datatype GuardStatus = Verified | GuardUnknown | Mismatch | Missing

  datatype RuntimeEvidence = RuntimeEvidence(
    source: string, kind: string, expected: string, observed: string, status: string, detail: string)

  datatype ExternalStateGuard = ExternalStateGuard(
    resourceId: string, guardType: string, expectedValue: string,
    observedValue: string, checkedAt: string, status: GuardStatus)

  datatype NoEffectConfirmation = NoEffectConfirmation(
    taskId: string, idempotencyKey: string, externalReference: string, checkedAt: string)

  datatype TaskEffectRecord = TaskEffectRecord(
    taskId: string, toolName: string, operationType: string, idempotencyKey: string,
    effectState: SideEffectState, externalReference: string, evidence: seq<RuntimeEvidence>)

  datatype ArtifactSnapshot = ArtifactSnapshot(
    artifactId: string, artifactType: string, digest: string, present: bool,
    version: string, reference: string, metadata: seq<(string, string)>)

  datatype FailureEventSnapshot = FailureEventSnapshot(
    eventId: string, layer: string, symptom: string, failure: string, evidence: seq<RuntimeEvidence>)

  datatype ResumeContext = ResumeContext(
    workflowId: string,
    workflowVersion: string,
    planVersion: string,
    requestedAction: Option<ResumeAction>,
    requestedTarget: string,
    candidateRunIds: seq<string>,
    requiredPermissions: seq<string>,
    availablePermissions: seq<string>,
    requestedStageId: string,
    requestedTaskId: string,
    stageIdempotent: bool,
    externalStateEvidence: seq<ExternalStateGuard>)

  datatype RunCheckpoint = RunCheckpoint(
    runId: string,
    checkpointId: string,
    parentCheckpointId: Option<string>,
    sequenceNumber: int,
    sessionId: string,
    conversationId: string,
    userScope: string,
    workflowId: string,
    workflowVersion: string,
    planVersion: string,
    activeStageId: string,
    activeTaskId: string,
    status: CheckpointStatus,
    executionPlan: Value,
    targetSummary: string,
    activationAttemptId: string,
    completedStageIds: seq<string>,
    completedTaskIds: seq<string>,
    artifacts: seq<ArtifactSnapshot>,
    verifierStatus: string,
    failureEvent: Option<FailureEventSnapshot>,
    proposedNextAction: Option<ResumeAction>,
    taskEffectRecords: seq<TaskEffectRecord>,
    idempotencyKeys: seq<string>,
    externalStateGuards: seq<ExternalStateGuard>,
    invalidationReasons: seq<string>,
    runtimeEvidence: seq<RuntimeEvidence>,
    schemaVersion: string,
    contractVersion: string,
    createdAt: string,
    updatedAt: string,
    supersedesRunId: Option<string>)

  datatype ContractError =
    | MissingIdentity | NegativeSequence | InitialHasParent | ChildLacksParent | SelfParent
    | PlanNotJsonLike | DuplicateStage | DuplicateTask | DuplicateKey
    | DuplicateEffectTask | UnregisteredEffectKey

  /** `_tuple_strings`: blank entries disappear. */
  function NonBlank(values: seq<string>): seq<string> {
    if values == [] then []
    else (if IsBlank(values[0]) then [] else [values[0]]) + NonBlank(values[1..])
  }

  predicate IdentityPresent(c: RunCheckpoint) {
    && !IsBlank(c.runId) && !IsBlank(c.checkpointId) && !IsBlank(c.sessionId) && !IsBlank(c.conversationId)
    && !IsBlank(c.userScope) && !IsBlank(c.workflowId) && !IsBlank(c.workflowVersion) && !IsBlank(c.planVersion)
  }

  /** The effect keys a checkpoint must have registered. */
  predicate EffectKeysRegistered(records: seq<TaskEffectRecord>, keys: seq<string>) {
    forall i | 0 <= i < |records| :: records[i].idempotencyKey != "" ==> records[i].idempotencyKey in keys
  }

  function EffectTaskIds(records: seq<TaskEffectRecord>): seq<string> {
    seq(|records|, i requires 0 <= i < |records| => records[i].taskId)
  }

  /** The first identity or lineage fault, in the constructor's order. */
  function LineageFault(c: RunCheckpoint): Option<ContractError> {
    if !IdentityPresent(c) then Some(MissingIdentity)
    else if c.sequenceNumber < 0 then Some(NegativeSequence)
    else if c.sequenceNumber == 0 && c.parentCheckpointId.Some? then Some(InitialHasParent)
    else if c.sequenceNumber > 0 && c.parentCheckpointId.GetOr("") == "" then Some(ChildLacksParent)
    else if c.parentCheckpointId == Some(c.checkpointId) then Some(SelfParent)
    else None
  }

  /** The first fault in the recorded lists, in the constructor's order. */
  function ListFault(c: RunCheckpoint): Option<ContractError> {
    if !NoDuplicates(c.completedStageIds) then Some(DuplicateStage)
    else if !NoDuplicates(c.completedTaskIds) then Some(DuplicateTask)
    else if !NoDuplicates(c.idempotencyKeys) then Some(DuplicateKey)
    else if !NoDuplicates(EffectTaskIds(c.taskEffectRecords)) then Some(DuplicateEffectTask)
    else if !EffectKeysRegistered(c.taskEffectRecords, c.idempotencyKeys) then Some(UnregisteredEffectKey)
    else None
  }

  function Normalise(raw: RunCheckpoint, plan: Value): RunCheckpoint {
    raw.(executionPlan := plan,
         completedStageIds := NonBlank(raw.completedStageIds),
         completedTaskIds := NonBlank(raw.completedTaskIds),
         idempotencyKeys := NonBlank(raw.idempotencyKeys),
         invalidationReasons := NonBlank(raw.invalidationReasons))
  }

  /** The constructor: validates the lineage, freezes the plan, drops blank entries, validates the lists. */
  function Construct(raw: RunCheckpoint): Result<RunCheckpoint, ContractError> {
    if LineageFault(raw).Some? then Failure(LineageFault(raw).value)
    else if !raw.executionPlan.Dict? || Freeze(raw.executionPlan).None? then Failure(PlanNotJsonLike)
    else
      var c := Normalise(raw, Freeze(raw.executionPlan).value);
      if ListFault(c).Some? then Failure(ListFault(c).value) else Success(c)
  }

  predicate NoneBlank(values: seq<string>) {
    forall i | 0 <= i < |values| :: !IsBlank(values[i])
  }

  /** Effect records name distinct tasks, and their keys are registered. */
  ghost predicate EffectsWellFormed(c: RunCheckpoint) {
    && NoDuplicates(EffectTaskIds(c.taskEffectRecords))
    && EffectKeysRegistered(c.taskEffectRecords, c.idempotencyKeys)
  }

  /** The list fields hold no blanks and no duplicates. */
  ghost predicate ListsWellFormed(c: RunCheckpoint) {
    && NoneBlank(c.completedStageIds) && NoDuplicates(c.completedStageIds)
    && NoneBlank(c.completedTaskIds) && NoDuplicates(c.completedTaskIds)
    && NoneBlank(c.idempotencyKeys) && NoDuplicates(c.idempotencyKeys)
    && NoneBlank(c.invalidationReasons)
  }

  /** Only the first checkpoint of a chain lacks a parent. */
  ghost predicate LineageWellFormed(c: RunCheckpoint) {
    && IdentityPresent(c)
    && c.sequenceNumber >= 0
    && (c.sequenceNumber == 0 <==> c.parentCheckpointId.None?)
    && c.parentCheckpointId != Some("") && c.parentCheckpointId != Some(c.checkpointId)
  }

  /** The invariants of every checkpoint that exists. */
  ghost predicate WellFormed(c: RunCheckpoint) {
    && LineageWellFormed(c)
    && c.executionPlan.Dict? && IsFrozen(c.executionPlan)
    && ListsWellFormed(c)
    && EffectsWellFormed(c)
  }

  lemma {:induction false} NonBlankMeaning(values: seq<string>)
    ensures NoneBlank(NonBlank(values))
    ensures NoneBlank(values) ==> NonBlank(values) == values
    ensures forall x :: x in NonBlank(values) <==> x in values && !IsBlank(x)
  {
    if values != [] {
      NonBlankMeaning(values[1..]);
      assert values == [values[0]] + values[1..];
      assert NoneBlank(values) ==> NoneBlank(values[1..]);
    }
  }

  lemma {:induction false} NonBlankAppend(values: seq<string>, x: string)
    ensures NonBlank(values + [x]) == NonBlank(values) + if IsBlank(x) then [] else [x]
  {
    if values != [] {
      NonBlankAppend(values[1..], x);
      assert (values + [x])[1..] == values[1..] + [x];
    } else {
      assert NonBlank([x][1..]) == [];
    }
  }

  lemma LineageFaultMeaning(c: RunCheckpoint)
    ensures LineageFault(c).None? <==> LineageWellFormed(c)
  {
  }

  lemma NormalisedLists(raw: RunCheckpoint, plan: Value)
    ensures var c := Normalise(raw, plan);
            ListFault(c).None? ==> ListsWellFormed(c) && EffectsWellFormed(c)
  {
    NonBlankMeaning(raw.completedStageIds);
    NonBlankMeaning(raw.completedTaskIds);
    NonBlankMeaning(raw.idempotencyKeys);
    NonBlankMeaning(raw.invalidationReasons);
  }

  /** The constructor accepts only well-formed checkpoints. */
  lemma ConstructAccepts(raw: RunCheckpoint)
    requires Construct(raw).Success?
    ensures WellFormed(Construct(raw).value)
  {
    LineageFaultMeaning(raw);
    FreezeIsFrozen(raw.executionPlan);
    NormalisedLists(raw, Freeze(raw.executionPlan).value);
  }

  ghost predicate Repeats(values: seq<string>) { exists i, j :: 0 <= i < j < |values| && values[i] == values[j] }

  /** A refusal names a fault that is there. */
  lemma ConstructRefuses(raw: RunCheckpoint)
    requires Construct(raw).Failure?
    ensures match Construct(raw).error
            case MissingIdentity =>
              exists id :: IsBlank(id)
                && id in [raw.runId, raw.checkpointId, raw.sessionId, raw.conversationId, raw.userScope, raw.workflowId,
                          raw.workflowVersion, raw.planVersion]
            case NegativeSequence => raw.sequenceNumber < 0
            case InitialHasParent => raw.sequenceNumber == 0 && raw.parentCheckpointId.Some?
            case ChildLacksParent => raw.sequenceNumber > 0 && (raw.parentCheckpointId == None || raw.parentCheckpointId == Some(""))
            case SelfParent => raw.parentCheckpointId == Some(raw.checkpointId)
            case PlanNotJsonLike => !raw.executionPlan.Dict? || Freeze(raw.executionPlan) == None
            case DuplicateStage => Repeats(NonBlank(raw.completedStageIds))
            case DuplicateTask => Repeats(NonBlank(raw.completedTaskIds))
            case DuplicateKey => Repeats(NonBlank(raw.idempotencyKeys))
            case DuplicateEffectTask =>
              exists i, j :: 0 <= i < j < |raw.taskEffectRecords| && raw.taskEffectRecords[i].taskId == raw.taskEffectRecords[j].taskId
            case UnregisteredEffectKey =>
              exists r :: r in raw.taskEffectRecords && r.idempotencyKey != "" && r.idempotencyKey !in NonBlank(raw.idempotencyKeys)
  {
    hide NonBlank, Freeze, IsBlank;
    var ids := [raw.runId, raw.checkpointId, raw.sessionId, raw.conversationId, raw.userScope, raw.workflowId, raw.workflowVersion, raw.planVersion];
    assert raw.runId in ids && raw.checkpointId in ids && raw.sessionId in ids && raw.conversationId in ids;
    assert raw.userScope in ids && raw.workflowId in ids && raw.workflowVersion in ids && raw.planVersion in ids;
    if Construct(raw).error == DuplicateEffectTask {
      var ids := EffectTaskIds(raw.taskEffectRecords);
      var i, j :| 0 <= i < j < |ids| && ids[i] == ids[j];
      assert raw.taskEffectRecords[i].taskId == raw.taskEffectRecords[j].taskId;
    }
    if Construct(raw).error == UnregisteredEffectKey {
      var i :| 0 <= i < |raw.taskEffectRecords|
               && raw.taskEffectRecords[i].idempotencyKey != "" && raw.taskEffectRecords[i].idempotencyKey !in NonBlank(raw.idempotencyKeys);
      assert raw.taskEffectRecords[i] in raw.taskEffectRecords;
    }
  }

  /** An accepted checkpoint is the given one with its plan frozen and the blank entries of four lists dropped. */
  lemma ConstructChangesOnly(raw: RunCheckpoint)
    requires Construct(raw).Success?
    ensures var c := Construct(raw).value;
            && raw == c.(executionPlan := raw.executionPlan, completedStageIds := raw.completedStageIds, completedTaskIds := raw.completedTaskIds,
                         idempotencyKeys := raw.idempotencyKeys, invalidationReasons := raw.invalidationReasons)
            && Freeze(raw.executionPlan) == Some(c.executionPlan)
            && c.completedStageIds == NonBlank(raw.completedStageIds) && c.completedTaskIds == NonBlank(raw.completedTaskIds)
            && c.idempotencyKeys == NonBlank(raw.idempotencyKeys) && c.invalidationReasons == NonBlank(raw.invalidationReasons)
  {
    hide NonBlank, Freeze, LineageFault, ListFault;
  }

  /** The constructor leaves a well-formed checkpoint alone, unless its plan holds a frozen set. */
  lemma ConstructKeeps(c: RunCheckpoint)
    requires WellFormed(c)
    ensures Construct(c) == if HasFrozenSet(c.executionPlan) then Failure(PlanNotJsonLike) else Success(c)
  {
    LineageFaultMeaning(c);
    Refreeze(c.executionPlan);
    NonBlankMeaning(c.completedStageIds);
    NonBlankMeaning(c.completedTaskIds);
    NonBlankMeaning(c.idempotencyKeys);
    NonBlankMeaning(c.invalidationReasons);
  }

  datatype ResumeDisposition = Allow | RequireClarification | Reject

  datatype ResumeReason =
    | AllowedExact | AllowedReplay | AllowedReplan | AllowedAbandon
    | AmbiguousRun | TargetConflict | ExternalStateUnknown | ExternalStateMismatch | MissingPermission
    | CheckpointInvalidated | TerminalCheckpoint | NoResumablePosition | NoRunMatch | MissingContext
    | SchemaIncompatible | ContractIncompatible | WorkflowIncompatible | PlanIncompatible
    | NonIdempotentStage | DuplicateSideEffect | UnknownSideEffect | SideEffectInProgress | InvalidRequestedStage

  /** The prompts shown to the user, by purpose; their wording is not modelled. */
  datatype Question =
    | WhichRun | WhichTarget | RecheckGuards | RecheckResource | ConfirmResource | SupplyExpectedState
    | RefreshObservation | ConfirmCommitted | ReplanUnsafe | ConfirmationTooBroad | BindingIncomplete
    | ConfirmationStale | ConfirmNoEffect | CompleteEffectRecord | SettleEachEffect

  datatype ResumeDecision = ResumeDecision(
    disposition: ResumeDisposition,
    action: Option<ResumeAction>,
    runId: string,
    checkpointId: string,
    resumeStageId: Option<string>,
    resumeTaskId: Option<string>,
    resultingStatus: CheckpointStatus,
    reason: ResumeReason,
    evidence: seq<RuntimeEvidence>,
    question: Option<Question>)

  /** What the decision constructor demands. */
  predicate DecisionWellFormed(d: ResumeDecision) {
    && !IsBlank(d.runId) && !IsBlank(d.checkpointId)
    && (d.disposition == Allow <==> d.action.Some?)
    && (d.disposition == RequireClarification ==> d.resultingStatus == WaitingUser && d.question.Some?)
  }
}

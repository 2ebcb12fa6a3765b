/** The fact recorder: it derives child checkpoints from its current one and saves them. */
module Recorder {
  import opened Text
  import opened PlanValues
  import opened Contracts
  import opened Lifecycle
  import opened Codec
  import opened Store

  datatype Request = Request(
    runId: string, sessionId: string, conversationId: string, userScope: string,
    planVersion: string, targetSummary: string, activationAttemptId: string)

  datatype RecorderError =
    | AlreadyBound | NothingBound | DecisionMismatch | ActionNotConsumed
    | NotClarification | StatusNotResumable | StatusNotWaitable
    | BadInitial(contract: ContractError)
    | BadTransition(lifecycle: LifecycleError)
    | NotSaved(store: StoreError)

  /** A live artifact, its content already digested; metadata keys and values as text. */
  datatype LiveArtifact = LiveArtifact(
    id: string, artifactType: string, contentDigest: string, storageUri: string, metadata: Option<map<string, string>>)

  /** The entries of an executor's result metadata that the recorder reads. */
  datatype StageMetadata = StageMetadata(
    executor: string, sideEffectState: Option<string>, externalReference: string, symptom: string)

  datatype StageResult = StageResult(
    stageId: string, taskId: string, executionPlan: map<string, Value>, success: bool, error: string,
    metadata: StageMetadata, taskVerb: string, nextStageId: string, nextTaskId: string,
    artifacts: seq<LiveArtifact>, targetSummary: string)

  predicate AttemptsEffect(verb: string) {
    Lower(verb) in {"write", "modify", "delete", "move", "copy", "execute"}
  }

  /** A conservative effect fact: reported states win, unreadable ones count as unknown. */
  function EffectStateForTask(verb: string, success: bool, reported: Option<string>): SideEffectState {
    if reported.Some? then ParseEffect(reported.value).GetOr(Unknown)
    else if AttemptsEffect(verb) then if success then Committed else Unknown
    else NoEffect
  }

  function SnapshotArtifact(a: LiveArtifact): ArtifactSnapshot {
    ArtifactSnapshot(a.id, a.artifactType, a.contentDigest, true, "", a.storageUri,
                     if a.metadata.Some? then SortedPairs(a.metadata.value) else [])
  }

  method SnapshotArtifacts(live: seq<LiveArtifact>) returns (r: seq<ArtifactSnapshot>)
    ensures |r| == |live| && forall i :: 0 <= i < |r| ==> r[i] == SnapshotArtifact(live[i])
    ensures r == Snapshots(live)
    ensures CanonicalArtifacts(r)
  {
    r := [];
    for i := 0 to |live|
      invariant |r| == i && forall k :: 0 <= k < i ==> r[k] == SnapshotArtifact(live[k])
    {
      r := r + [SnapshotArtifact(live[i])];
    }
    SnapshotsCanonical(live);
  }

  function Snapshots(live: seq<LiveArtifact>): seq<ArtifactSnapshot> {
    seq(|live|, i requires 0 <= i < |live| => SnapshotArtifact(live[i]))
  }

  lemma SnapshotsCanonical(live: seq<LiveArtifact>)
    ensures CanonicalArtifacts(Snapshots(live))
  {
    forall i | 0 <= i < |live| ensures Increasing(Keys(SnapshotArtifact(live[i]).metadata)) {
      if live[i].metadata.Some? { SortedPairsMeaning(live[i].metadata.value); }
    }
  }

  function FailureSnapshot(eventId: string, stageId: string, error: string, metadata: StageMetadata): FailureEventSnapshot {
    FailureEventSnapshot(eventId, "workflow", metadata.symptom, error,
                         [RuntimeEvidence("workflow_executor", "stage_result", "success", "failed", "FAILED", stageId)])
  }

  // What each operation writes.

  function IdempotencyKey(run: string, task: string): string {
    run + ":" + task
  }

  function StageEffect(c: RunCheckpoint, s: StageResult): TaskEffectRecord {
    var state := EffectStateForTask(s.taskVerb, s.success, s.metadata.sideEffectState);
    TaskEffectRecord(
      s.taskId, s.metadata.executor, s.taskVerb, IdempotencyKey(c.runId, s.taskId), state, s.metadata.externalReference,
      [RuntimeEvidence("workflow_executor", "task_effect", if s.success then "committed" else "not_committed",
                       EffectName(state), if state == Unknown then "UNKNOWN" else "VERIFIED", s.taskId)])
  }

  function WithoutTask(records: seq<TaskEffectRecord>, task: string): seq<TaskEffectRecord> {
    if records == [] then []
    else (if records[0].taskId == task then [] else [records[0]]) + WithoutTask(records[1..], task)
  }

  function StageStatus(s: StageResult): CheckpointStatus {
    if s.success then Running
    else if UnsafeState(EffectStateForTask(s.taskVerb, s.success, s.metadata.sideEffectState)) then WaitingUser
    else FailedRecoverable
  }

  function StageChanges(c: RunCheckpoint, s: StageResult, failureId: string): Changes {
    NO_CHANGES.(
      activeStageId := Some(if s.success then s.nextStageId else s.stageId),
      activeTaskId := Some(if s.success then s.nextTaskId else s.taskId),
      executionPlan := Some(JsonFact(Dict(s.executionPlan))),
      targetSummary := Some(if s.targetSummary != "" then s.targetSummary else c.targetSummary),
      completedStageIds := Some(if s.success then Distinct(c.completedStageIds + [s.stageId]) else c.completedStageIds),
      completedTaskIds := Some(if s.success then Distinct(c.completedTaskIds + [s.taskId]) else c.completedTaskIds),
      artifacts := Some(Snapshots(s.artifacts)),
      verifierStatus := Some(if s.success then "VERIFIED" else "FAILED"),
      failureEvent := Some(if s.success then None else Some(FailureSnapshot(failureId, s.stageId, s.error, s.metadata))),
      taskEffectRecords := Some(WithoutTask(c.taskEffectRecords, s.taskId) + [StageEffect(c, s)]),
      idempotencyKeys := Some(Distinct(c.idempotencyKeys + [IdempotencyKey(c.runId, s.taskId)])))
  }

  function MergedEvidence(c: RunCheckpoint, d: ResumeDecision): seq<RuntimeEvidence> {
    Distinct(c.runtimeEvidence + d.evidence)
  }

  function SuspendChanges(c: RunCheckpoint, reason: string): Changes {
    NO_CHANGES.(
      invalidationReasons := Some(c.invalidationReasons),
      runtimeEvidence := Some(c.runtimeEvidence + [RuntimeEvidence("workflow_executor", "suspension", "", reason, "VERIFIED", "")]))
  }

  function CompleteChanges(c: RunCheckpoint, artifacts: seq<LiveArtifact>, summary: string): Changes {
    NO_CHANGES.(
      activeStageId := Some(""), activeTaskId := Some(""), artifacts := Some(Snapshots(artifacts)),
      targetSummary := Some(if summary != "" then summary else c.targetSummary), verifierStatus := Some("VERIFIED"))
  }

  function InitialCheckpoint(
    q: Request, workflowId: string, workflowVersion: string, stage: string, task: string,
    plan: map<string, Value>, target: string, attempt: string, id: string, createdAt: string, updatedAt: string): RunCheckpoint
  {
    RunCheckpoint(
      q.runId, id, None, 0, q.sessionId, q.conversationId, q.userScope, workflowId, workflowVersion, q.planVersion,
      stage, task, Created, JsonFact(Dict(plan)), if target != "" then target else q.targetSummary,
      if attempt != "" then attempt else q.activationAttemptId,
      [], [], [], "UNKNOWN", None, None, [], [], [], [], [], "1.0", "v2.2A", createdAt, updatedAt, None)
  }

  // The effect of an operation on the shared log and on this recorder.

  datatype Outcome = Outcome(log: seq<RunCheckpoint>, current: Option<RunCheckpoint>, result: Result<RunCheckpoint, RecorderError>)

  /** A save replaces `current` only when it is accepted. */
  function Commit(log: seq<RunCheckpoint>, current: Option<RunCheckpoint>, c: RunCheckpoint): Outcome {
    match SaveOutcome(log, c)
    case Success(stored) => Outcome(LogAfter(log, c), Some(stored), Success(stored))
    case Failure(e) => Outcome(log, current, Failure(NotSaved(e)))
  }

  function ChildOf(c: RunCheckpoint, status: CheckpointStatus, id: string, at: string, changes: Changes)
    : Result<RunCheckpoint, LifecycleError>
  {
    if status == c.status then Append(c, id, at, None, changes) else Advance(c, status, id, at, changes)
  }

  function Transition(
    log: seq<RunCheckpoint>, current: Option<RunCheckpoint>,
    c: RunCheckpoint, status: CheckpointStatus, id: string, at: string, changes: Changes): Outcome
  {
    match ChildOf(c, status, id, at, changes)
    case Success(child) => Commit(log, current, child)
    case Failure(e) => Outcome(log, current, Failure(BadTransition(e)))
  }

  predicate DecisionBindsTo(d: ResumeDecision, c: RunCheckpoint) {
    d.runId == c.runId && d.checkpointId == c.checkpointId
  }

  predicate Consumable(d: ResumeDecision) {
    d.action == Some(ResumeExact) || d.action == Some(ReplayFromStage)
  }

  class CheckpointRecorder {
    const request: Request
    const store: InMemoryCheckpointStore
    var current: Option<RunCheckpoint>

    constructor (request: Request, store: InMemoryCheckpointStore, checkpoint: Option<RunCheckpoint>)
      ensures this.request == request && this.store == store && current == checkpoint
    {
      this.request, this.store, current := request, store, checkpoint;
    }

    method SaveTransition(c: RunCheckpoint, status: CheckpointStatus, id: string, at: string, changes: Changes)
      returns (r: Result<RunCheckpoint, RecorderError>)
      requires store.Valid()
      modifies this`current, store
      ensures store.Valid()
      ensures Outcome(store.log, current, r) == Transition(old(store.log), old(current), c, status, id, at, changes)
    {
      var derived := if status == c.status then Append(c, id, at, None, changes) else Advance(c, status, id, at, changes);
      if derived.Failure? {
        return Failure(BadTransition(derived.error));
      }
      var saved := store.Save(derived.value);
      if saved.Failure? {
        SaveKeepsWellBuilt(old(store.log), derived.value);
        return Failure(NotSaved(saved.error));
      }
      current := Some(saved.value);
      return Success(saved.value);
    }

    /** Binds a new run: its CREATED checkpoint, then its RUNNING one. */
    method Start(
      workflowId: string, workflowVersion: string, stage: string, task: string, plan: map<string, Value>,
      target: string, attempt: string, ids: (string, string), times: (string, string, string))
      returns (r: Result<RunCheckpoint, RecorderError>)
      requires store.Valid()
      modifies this`current, store
      ensures store.Valid()
      ensures Outcome(store.log, current, r) ==
              StartOutcome(
                old(store.log), old(current),
                InitialCheckpoint(request, workflowId, workflowVersion, stage, task, plan, target, attempt, ids.0, times.0, times.1),
                ids.1, times.2)
    {
      if current.Some? {
        return Failure(AlreadyBound);
      }
      var initial := Construct(InitialCheckpoint(
        request, workflowId, workflowVersion, stage, task, plan, target, attempt, ids.0, times.0, times.1));
      if initial.Failure? {
        return Failure(BadInitial(initial.error));
      }
      var saved := store.Save(initial.value);
      if saved.Failure? {
        SaveKeepsWellBuilt(old(store.log), initial.value);
        return Failure(NotSaved(saved.error));
      }
      current := Some(saved.value);
      r := SaveTransition(saved.value, Running, ids.1, times.2, NO_CHANGES);
    }

    /** Consumes an EXACT or REPLAY decision; a waiting or failed run passes through SUSPENDED. */
    method Resume(d: ResumeDecision, ids: (string, string), times: (string, string))
      returns (r: Result<RunCheckpoint, RecorderError>)
      requires store.Valid()
      modifies this`current, store
      ensures store.Valid()
      ensures Outcome(store.log, current, r) == ResumeOutcome(old(store.log), old(current), d, ids, times)
    {
      if current.None? {
        return Failure(NothingBound);
      }
      var c := current.value;
      if d.runId != c.runId || d.checkpointId != c.checkpointId {
        return Failure(DecisionMismatch);
      }
      if d.action != Some(ResumeExact) && d.action != Some(ReplayFromStage) {
        return Failure(ActionNotConsumed);
      }
      if c.status == FailedRecoverable || c.status == WaitingUser {
        r := SaveTransition(c, Suspended, ids.0, times.0, NO_CHANGES.(runtimeEvidence := Some(MergedEvidence(c, d))));
        if r.Failure? {
          return;
        }
        c := r.value;
      }
      if c.status == Suspended || c.status == Running {
        r := SaveTransition(c, Running, ids.1, times.1, NO_CHANGES.(
          proposedNextAction := Some(d.action), runtimeEvidence := Some(MergedEvidence(c, d))));
        return;
      }
      return Failure(StatusNotResumable);
    }

    method RequireClarification(d: ResumeDecision, id: string, at: string) returns (r: Result<RunCheckpoint, RecorderError>)
      requires store.Valid()
      modifies this`current, store
      ensures store.Valid()
      ensures Outcome(store.log, current, r) == ClarifyOutcome(old(store.log), old(current), d, id, at)
    {
      if current.None? {
        return Failure(NothingBound);
      }
      var c := current.value;
      if d.runId != c.runId || d.checkpointId != c.checkpointId {
        return Failure(DecisionMismatch);
      }
      if !d.disposition.RequireClarification? {
        return Failure(NotClarification);
      }
      if c.status !in {Running, Suspended, WaitingUser, FailedRecoverable} {
        return Failure(StatusNotWaitable);
      }
      r := SaveTransition(c, WaitingUser, id, at, NO_CHANGES.(runtimeEvidence := Some(MergedEvidence(c, d))));
    }

    method RecordStage(s: StageResult, failureId: string, id: string, at: string) returns (r: Result<RunCheckpoint, RecorderError>)
      requires store.Valid()
      modifies this`current, store
      ensures store.Valid()
      ensures Outcome(store.log, current, r) == RecordOutcome(old(store.log), old(current), s, failureId, id, at)
    {
      if current.None? {
        return Failure(NothingBound);
      }
      var c := current.value;
      var state := EffectStateForTask(s.taskVerb, s.success, s.metadata.sideEffectState);
      var effects := WithoutTask(c.taskEffectRecords, s.taskId) + [StageEffect(c, s)];
      var keys := Distinct(c.idempotencyKeys + [IdempotencyKey(c.runId, s.taskId)]);
      var stages, tasks := c.completedStageIds, c.completedTaskIds;
      if s.success {
        stages := Distinct(stages + [s.stageId]);
        tasks := Distinct(tasks + [s.taskId]);
      }
      var failure: Option<FailureEventSnapshot> := None;
      var status := Running;
      if !s.success {
        failure := Some(FailureSnapshot(failureId, s.stageId, s.error, s.metadata));
        status := if UnsafeState(state) then WaitingUser else FailedRecoverable;
      }
      var artifacts := SnapshotArtifacts(s.artifacts);
      r := SaveTransition(c, status, id, at, NO_CHANGES.(
        activeStageId := Some(if s.success then s.nextStageId else s.stageId),
        activeTaskId := Some(if s.success then s.nextTaskId else s.taskId),
        executionPlan := Some(JsonFact(Dict(s.executionPlan))),
        targetSummary := Some(if s.targetSummary != "" then s.targetSummary else c.targetSummary),
        completedStageIds := Some(stages),
        completedTaskIds := Some(tasks),
        artifacts := Some(artifacts),
        verifierStatus := Some(if s.success then "VERIFIED" else "FAILED"),
        failureEvent := Some(failure),
        taskEffectRecords := Some(effects),
        idempotencyKeys := Some(keys)));
    }

    method Suspend(reason: string, id: string, at: string) returns (r: Result<RunCheckpoint, RecorderError>)
      requires store.Valid()
      modifies this`current, store
      ensures store.Valid()
      ensures Outcome(store.log, current, r) == SuspendOutcome(old(store.log), old(current), reason, id, at)
    {
      if current.None? {
        return Failure(NothingBound);
      }
      r := SaveTransition(current.value, Suspended, id, at, SuspendChanges(current.value, reason));
    }

    method Complete(artifacts: seq<LiveArtifact>, summary: string, id: string, at: string)
      returns (r: Result<RunCheckpoint, RecorderError>)
      requires store.Valid()
      modifies this`current, store
      ensures store.Valid()
      ensures Outcome(store.log, current, r) == CompleteOutcome(old(store.log), old(current), artifacts, summary, id, at)
    {
      if current.None? {
        return Failure(NothingBound);
      }
      r := SaveTransition(current.value, Completed, id, at, CompleteChanges(current.value, artifacts, summary));
    }
  }

  function ResumeChanges(c: RunCheckpoint, d: ResumeDecision): Changes {
    NO_CHANGES.(proposedNextAction := Some(d.action), runtimeEvidence := Some(MergedEvidence(c, d)))
  }

  /** The CREATED checkpoint, then the RUNNING one; a bound recorder refuses. */
  function StartOutcome(
    log: seq<RunCheckpoint>, current: Option<RunCheckpoint>, raw: RunCheckpoint, id: string, at: string): Outcome
  {
    if current.Some? then Outcome(log, current, Failure(AlreadyBound))
    else if Construct(raw).Failure? then Outcome(log, None, Failure(BadInitial(Construct(raw).error)))
    else
      var first := Commit(log, None, Construct(raw).value);
      if first.result.Failure? then first
      else Transition(first.log, first.current, first.result.value, Running, id, at, NO_CHANGES)
  }

  function RecordOutcome(
    log: seq<RunCheckpoint>, current: Option<RunCheckpoint>, s: StageResult, failureId: string, id: string, at: string): Outcome
  {
    if current.None? then Outcome(log, None, Failure(NothingBound))
    else Transition(log, current, current.value, StageStatus(s), id, at, StageChanges(current.value, s, failureId))
  }

  function SuspendOutcome(log: seq<RunCheckpoint>, current: Option<RunCheckpoint>, reason: string, id: string, at: string): Outcome {
    if current.None? then Outcome(log, None, Failure(NothingBound))
    else Transition(log, current, current.value, Suspended, id, at, SuspendChanges(current.value, reason))
  }

  function CompleteOutcome(
    log: seq<RunCheckpoint>, current: Option<RunCheckpoint>, artifacts: seq<LiveArtifact>, summary: string, id: string, at: string): Outcome
  {
    if current.None? then Outcome(log, None, Failure(NothingBound))
    else Transition(log, current, current.value, Completed, id, at, CompleteChanges(current.value, artifacts, summary))
  }

  /** The last leg of a resume: only a suspended or running checkpoint can take it. */
  function ResumeRunning(
    log: seq<RunCheckpoint>, current: Option<RunCheckpoint>, c: RunCheckpoint, d: ResumeDecision, id: string, at: string): Outcome
  {
    if c.status == Suspended || c.status == Running then
      Transition(log, current, c, Running, id, at, ResumeChanges(c, d))
    else Outcome(log, current, Failure(StatusNotResumable))
  }

  function ResumeOutcome(
    log: seq<RunCheckpoint>, current: Option<RunCheckpoint>,
    d: ResumeDecision, ids: (string, string), times: (string, string)): Outcome
  {
    if current.None? then Outcome(log, current, Failure(NothingBound))
    else
      var c := current.value;
      if !DecisionBindsTo(d, c) then Outcome(log, current, Failure(DecisionMismatch))
      else if !Consumable(d) then Outcome(log, current, Failure(ActionNotConsumed))
      else if c.status == FailedRecoverable || c.status == WaitingUser then
        var half := Transition(log, current, c, Suspended, ids.0, times.0, NO_CHANGES.(runtimeEvidence := Some(MergedEvidence(c, d))));
        if half.result.Failure? then half
        else ResumeRunning(half.log, half.current, half.result.value, d, ids.1, times.1)
      else ResumeRunning(log, current, c, d, ids.1, times.1)
  }

  function ClarifyOutcome(
    log: seq<RunCheckpoint>, current: Option<RunCheckpoint>, d: ResumeDecision, id: string, at: string): Outcome
  {
    if current.None? then Outcome(log, current, Failure(NothingBound))
    else
      var c := current.value;
      if !DecisionBindsTo(d, c) then Outcome(log, current, Failure(DecisionMismatch))
      else if !d.disposition.RequireClarification? then Outcome(log, current, Failure(NotClarification))
      else if c.status == Created || Terminal(c.status) then Outcome(log, current, Failure(StatusNotWaitable))
      else Transition(log, current, c, WaitingUser, id, at, NO_CHANGES.(runtimeEvidence := Some(MergedEvidence(c, d))))
  }
}

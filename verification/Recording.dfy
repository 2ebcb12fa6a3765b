/** What each operation of the recorder leaves in the checkpoint it stores, field by field. */
module Recording {
  import opened Text
  import opened PlanValues
  import opened Contracts
  import opened Compatibility
  import opened Lifecycle
  import opened Codec
  import opened Store
  import opened Recorder
  import opened Protocol
  import opened ResumePolicy
  import opened ResumeSafety
  import opened Validator

  /** What a successful transition answers with is the derived child, saved now or word for word before. */
  lemma SavedIsChild(
    log: seq<RunCheckpoint>, c: RunCheckpoint, status: CheckpointStatus, id: string, at: string, changes: Changes)
    requires LegalLog(log) && c in log && Monotone(c, changes)
    requires Transition(log, Some(c), c, status, id, at, changes).result.Success?
    ensures ChildOf(c, status, id, at, changes) == Success(Transition(log, Some(c), c, status, id, at, changes).result.value)
    ensures status == c.status || AllowedTransition(c.status, status)
  {
    hide LegalLog, WellFormed, Canonical, Grows, Monotone, ChildOf, Chain, Digest;
    StoredIsWellFormed(log, c);
    var child := ChildOf(c, status, id, at, changes).value;
    ChildGrows(c, status, id, at, changes);
    GrownIsCanonical(c, child);
    ChildFields(c, status, id, at, changes);
    FindMeaning(log, child.checkpointId);
    if Find(log, child.checkpointId).Some? {
      var existing := Find(log, child.checkpointId).value;
      StoredIsWellFormed(log, existing);
      DigestIdentifies(existing, child);
    }
    DeclaredMove(c, status, id, at, changes);
  }

  lemma GrownIsCanonical(c: RunCheckpoint, child: RunCheckpoint)
    requires Grows(c, child)
    ensures WellFormed(child) && Canonical(child)
  {
  }

  lemma DeclaredMove(c: RunCheckpoint, status: CheckpointStatus, id: string, at: string, changes: Changes)
    requires ChildOf(c, status, id, at, changes).Success?
    ensures status == c.status || AllowedTransition(c.status, status)
  {
  }

  // Recording a stage.

  /** Recording the result `s` of a stage on the stored checkpoint `c` answered with `n`. */
  ghost predicate Records(
    log: seq<RunCheckpoint>, c: RunCheckpoint, s: StageResult, failureId: string, id: string, at: string, n: RunCheckpoint)
  {
    LegalLog(log) && c in log && RecordOutcome(log, Some(c), s, failureId, id, at).result == Success(n)
  }

  lemma RecordsChild(
    log: seq<RunCheckpoint>, c: RunCheckpoint, s: StageResult, failureId: string, id: string, at: string, n: RunCheckpoint)
    requires Records(log, c, s, failureId, id, at, n)
    ensures WellFormed(c) && ChildOf(c, StageStatus(s), id, at, StageChanges(c, s, failureId)) == Success(n)
  {
    hide LegalLog, WellFormed, Canonical, Monotone, Transition, ChildOf, StageStatus, StageChanges;
    StoredIsWellFormed(log, c);
    StageChangesMonotone(c, s, failureId);
    SavedIsChild(log, c, StageStatus(s), id, at, StageChanges(c, s, failureId));
  }

  /** A success moves on to the next stage and task; a failure stays, and says where and why. */
  lemma StageMovesOn(
    log: seq<RunCheckpoint>, c: RunCheckpoint, s: StageResult, failureId: string, id: string, at: string, n: RunCheckpoint)
    requires Records(log, c, s, failureId, id, at, n)
    ensures s.success ==>
              n.status == Running && n.activeStageId == s.nextStageId && n.activeTaskId == s.nextTaskId
              && n.failureEvent == None && n.verifierStatus == "VERIFIED"
    ensures !s.success ==>
              n.activeStageId == s.stageId && n.activeTaskId == s.taskId && n.verifierStatus == "FAILED"
              && n.failureEvent.Some?
              && var f := n.failureEvent.value;
                 && f.eventId == failureId && f.layer == "workflow" && f.symptom == s.metadata.symptom && f.failure == s.error
                 && f.evidence == [RuntimeEvidence("workflow_executor", "stage_result", "success", "failed", "FAILED", s.stageId)]
    ensures n.targetSummary == if s.targetSummary != "" then s.targetSummary else c.targetSummary
    ensures n.checkpointId == id && n.parentCheckpointId == Some(c.checkpointId)
    ensures n.sequenceNumber == c.sequenceNumber + 1 && n.updatedAt == at
  {
    hide LegalLog, WellFormed, ChildOf, RecordOutcome, Freeze, NonBlank, Distinct, JsonFact, Snapshots, WithoutTask, StageEffect;
    RecordsChild(log, c, s, failureId, id, at, n);
    ChildFields(c, StageStatus(s), id, at, StageChanges(c, s, failureId));
  }

  /** The plan it leaves is the JSON of the plan given, and every artifact is kept by identity and digest. */
  lemma StageKeepsFacts(
    log: seq<RunCheckpoint>, c: RunCheckpoint, s: StageResult, failureId: string, id: string, at: string, n: RunCheckpoint)
    requires Records(log, c, s, failureId, id, at, n)
    ensures IsJson(Dict(s.executionPlan)) ==> Thaw(n.executionPlan) == Dict(s.executionPlan)
    ensures IsJson(Thaw(n.executionPlan)) && Thaw(n.executionPlan) == JsonFact(Dict(s.executionPlan))
    ensures |n.artifacts| == |s.artifacts|
    ensures forall i :: 0 <= i < |s.artifacts| ==> SnapshotOf(n.artifacts[i], s.artifacts[i])
  {
    hide LegalLog, WellFormed, ChildOf, RecordOutcome, NonBlank, Distinct, JsonFact, WithoutTask, StageEffect, Freeze, SnapshotOf;
    RecordsChild(log, c, s, failureId, id, at, n);
    ChildFields(c, StageStatus(s), id, at, StageChanges(c, s, failureId));
    JsonFactMeaning(Dict(s.executionPlan));
    ThawUndoesFreeze(JsonFact(Dict(s.executionPlan)));
    forall i | 0 <= i < |s.artifacts| ensures SnapshotOf(n.artifacts[i], s.artifacts[i]) {
      SnapshotMeaning(s.artifacts[i]);
    }
  }

  /** The snapshot refers to the live artifact, and holds its metadata under sorted keys. */
  ghost predicate SnapshotOf(a: ArtifactSnapshot, live: LiveArtifact) {
    && a.artifactId == live.id && a.artifactType == live.artifactType && a.digest == live.contentDigest
    && a.present && a.version == "" && a.reference == live.storageUri
    && Increasing(Keys(a.metadata)) && PairsToMap(a.metadata) == live.metadata.GetOr(map[])
  }

  lemma SnapshotMeaning(live: LiveArtifact)
    ensures SnapshotOf(SnapshotArtifact(live), live)
  {
    hide SortedPairs, Increasing;
    if live.metadata.Some? { SortedPairsMeaning(live.metadata.value); }
    NoPairs();
  }

  lemma NoPairs()
    ensures Increasing(Keys([])) && PairsToMap([]) == map[]
  {
  }

  /** What a result says about its effect: a reported state; else that of an effectful verb; else none. */
  predicate EffectSaid(s: StageResult, state: SideEffectState) {
    match s.metadata.sideEffectState
    case Some(name) =>
      && (name == "NONE" ==> state == NoEffect) && (name == "NOT_STARTED" ==> state == NotStarted)
      && (name == "STARTED" ==> state == Started) && (name == "COMMITTED" ==> state == Committed)
      && (name == "FAILED_BEFORE_COMMIT" ==> state == FailedBeforeCommit)
      && (name == "FAILED_AFTER_COMMIT" ==> state == FailedAfterCommit) && (name == "COMPENSATED" ==> state == Compensated)
      && (name !in {"NONE", "NOT_STARTED", "STARTED", "COMMITTED", "FAILED_BEFORE_COMMIT", "FAILED_AFTER_COMMIT", "COMPENSATED"} ==>
            state == Unknown)
    case None =>
      if Lower(s.taskVerb) in {"write", "modify", "delete", "move", "copy", "execute"}
      then state == if s.success then Committed else Unknown
      else state == NoEffect
  }

  lemma EffectIsSaid(s: StageResult)
    ensures EffectSaid(s, EffectStateForTask(s.taskVerb, s.success, s.metadata.sideEffectState))
  {
    hide Lower;
  }

  /** The task's one record is what the result says of its effect; a failure waits for the user exactly over an unsafe one. */
  lemma StageRecordsEffect(
    log: seq<RunCheckpoint>, c: RunCheckpoint, s: StageResult, failureId: string, id: string, at: string, n: RunCheckpoint)
    returns (r: TaskEffectRecord)
    requires Records(log, c, s, failureId, id, at, n)
    ensures forall q :: q in n.taskEffectRecords <==> q == r || (q in c.taskEffectRecords && q.taskId != s.taskId)
    ensures r.taskId == s.taskId && r.toolName == s.metadata.executor && r.operationType == s.taskVerb
    ensures r.idempotencyKey == c.runId + ":" + s.taskId && r.externalReference == s.metadata.externalReference
    ensures EffectSaid(s, r.effectState)
    ensures r.evidence == [RuntimeEvidence(
                             "workflow_executor", "task_effect", if s.success then "committed" else "not_committed",
                             EffectName(r.effectState), if r.effectState == Unknown then "UNKNOWN" else "VERIFIED", s.taskId)]
    ensures !s.success ==>
              n.status == if r.effectState in {Unknown, Started, FailedAfterCommit} then WaitingUser else FailedRecoverable
  {
    hide LegalLog, WellFormed, ChildOf, RecordOutcome, NonBlank, Distinct, JsonFact, WithoutTask, Freeze, Snapshots, EffectSaid, EffectName;
    hide EffectStateForTask;
    RecordsChild(log, c, s, failureId, id, at, n);
    ChildFields(c, StageStatus(s), id, at, StageChanges(c, s, failureId));
    WithoutTaskMeaning(c.taskEffectRecords, s.taskId);
    EffectIsSaid(s);
    r := StageEffect(c, s);
  }

  /** A success completes exactly its stage and task, a failure none; the task's key is registered either way. */
  lemma StageCompletes(
    log: seq<RunCheckpoint>, c: RunCheckpoint, s: StageResult, failureId: string, id: string, at: string, n: RunCheckpoint)
    requires Records(log, c, s, failureId, id, at, n)
    ensures forall x :: x in n.completedStageIds <==> x in c.completedStageIds || (s.success && x == s.stageId && !IsBlank(x))
    ensures forall x :: x in n.completedTaskIds <==> x in c.completedTaskIds || (s.success && x == s.taskId && !IsBlank(x))
    ensures forall x :: x in n.idempotencyKeys <==> x in c.idempotencyKeys || x == c.runId + ":" + s.taskId
  {
    hide LegalLog, ChildOf, RecordOutcome, NonBlank, Distinct, JsonFact, WithoutTask, Freeze, Snapshots, StageEffect, IsBlank;
    RecordsChild(log, c, s, failureId, id, at, n);
    ChildFields(c, StageStatus(s), id, at, StageChanges(c, s, failureId));
    KeyNotBlank(c.runId, s.taskId);
    Added(c.completedStageIds, s.stageId);
    Added(c.completedTaskIds, s.taskId);
    Added(c.idempotencyKeys, IdempotencyKey(c.runId, s.taskId));
  }

  lemma Added(before: seq<string>, x: string)
    requires NoneBlank(before) && NoDuplicates(before)
    ensures forall y :: y in NonBlank(Distinct(before + [x])) <==> y in before || (y == x && !IsBlank(y))
    ensures NonBlank(before) == before
  {
    hide IsBlank, NonBlank, Distinct;
    NonBlankMeaning(before);
    NonBlankMeaning(Distinct(before + [x]));
    DistinctMeaning(before + [x]);
    forall y ensures y in NonBlank(Distinct(before + [x])) <==> y in before || (y == x && !IsBlank(y)) {
      assert y in before + [x] <==> y in before || y == x;
      if y in before { NoneBlankAt(before, y); }
    }
  }

  lemma NoneBlankAt(values: seq<string>, y: string)
    requires NoneBlank(values) && y in values
    ensures !IsBlank(y)
  {
  }

  /** Everything else is as it was. */
  lemma StageLeavesRest(
    log: seq<RunCheckpoint>, c: RunCheckpoint, s: StageResult, failureId: string, id: string, at: string, n: RunCheckpoint)
    requires Records(log, c, s, failureId, id, at, n)
    ensures SameRun(c, n) && SameOrigin(c, n)
    ensures n.proposedNextAction == c.proposedNextAction && n.runtimeEvidence == c.runtimeEvidence
    ensures n.invalidationReasons == c.invalidationReasons
  {
    hide LegalLog, ChildOf, RecordOutcome, NonBlank, Distinct, JsonFact, WithoutTask, Freeze, Snapshots, StageEffect, IsBlank;
    RecordsChild(log, c, s, failureId, id, at, n);
    ChildFields(c, StageStatus(s), id, at, StageChanges(c, s, failureId));
    NonBlankMeaning(c.invalidationReasons);
  }

  // The other operations.

  /** The fields every child has of its own. */
  function Child(c: RunCheckpoint, status: CheckpointStatus, id: string, at: string): RunCheckpoint {
    c.(checkpointId := id, parentCheckpointId := Some(c.checkpointId), sequenceNumber := c.sequenceNumber + 1,
       status := status, updatedAt := at)
  }

  /** A child of a stored checkpoint that leaves plan and lists alone is exactly its raw fields. */
  lemma PlainChild(
    log: seq<RunCheckpoint>, c: RunCheckpoint, status: CheckpointStatus, id: string, at: string, changes: Changes)
    requires LegalLog(log) && c in log && Monotone(c, changes)
    requires changes.executionPlan == None && changes.completedStageIds == None && changes.completedTaskIds == None
    requires changes.idempotencyKeys == None
    requires Transition(log, Some(c), c, status, id, at, changes).result.Success?
    ensures Transition(log, Some(c), c, status, id, at, changes).result.value == RawChild(c, status, id, at, changes)
    ensures status == c.status || AllowedTransition(c.status, status)
  {
    hide LegalLog, ChildOf, Transition, NonBlank, Freeze, Canonical, Chain, IsBlank, HasFrozenSet;
    StoredIsWellFormed(log, c);
    SavedIsChild(log, c, status, id, at, changes);
    ChildFields(c, status, id, at, changes);
    NonBlankMeaning(c.completedStageIds);
    NonBlankMeaning(c.completedTaskIds);
    NonBlankMeaning(c.idempotencyKeys);
    NonBlankMeaning(c.invalidationReasons);
    Refreeze(c.executionPlan);
  }

  /** Suspending adds one fact about why, and changes nothing else. */
  lemma SuspensionRecorded(log: seq<RunCheckpoint>, c: RunCheckpoint, reason: string, id: string, at: string)
    requires LegalLog(log) && c in log && SuspendOutcome(log, Some(c), reason, id, at).result.Success?
    ensures SuspendOutcome(log, Some(c), reason, id, at).result.value ==
            Child(c, Suspended, id, at).(runtimeEvidence :=
              c.runtimeEvidence + [RuntimeEvidence("workflow_executor", "suspension", "", reason, "VERIFIED", "")])
  {
    hide LegalLog, Transition, Monotone;
    EndingChangesMonotone(c, reason, [], "");
    PlainChild(log, c, Suspended, id, at, SuspendChanges(c, reason));
  }

  /** Completing leaves no active stage or task, the artifacts, a verified status and the summary given. */
  lemma CompletionRecorded(
    log: seq<RunCheckpoint>, c: RunCheckpoint, artifacts: seq<LiveArtifact>, summary: string, id: string, at: string)
    requires LegalLog(log) && c in log && CompleteOutcome(log, Some(c), artifacts, summary, id, at).result.Success?
    ensures var n := CompleteOutcome(log, Some(c), artifacts, summary, id, at).result.value;
            && n == Child(c, Completed, id, at).(
                      activeStageId := "", activeTaskId := "", verifierStatus := "VERIFIED", artifacts := n.artifacts,
                      targetSummary := if summary != "" then summary else c.targetSummary)
            && |n.artifacts| == |artifacts| && (forall i :: 0 <= i < |artifacts| ==> SnapshotOf(n.artifacts[i], artifacts[i]))
    ensures c.status == Running || c.status == Completed
  {
    hide LegalLog, Transition, Monotone, SnapshotOf;
    EndingChangesMonotone(c, "", artifacts, summary);
    PlainChild(log, c, Completed, id, at, CompleteChanges(c, artifacts, summary));
    forall i | 0 <= i < |artifacts| ensures SnapshotOf(SnapshotArtifact(artifacts[i]), artifacts[i]) {
      SnapshotMeaning(artifacts[i]);
    }
  }

  /** The old facts, then the decision's own, none twice. */
  ghost predicate Merges(merged: seq<RuntimeEvidence>, c: RunCheckpoint, d: ResumeDecision) {
    NoDuplicates(merged) && forall e :: e in merged <==> e in c.runtimeEvidence || e in d.evidence
  }

  lemma MergedMeaning(c: RunCheckpoint, d: ResumeDecision)
    ensures Merges(MergedEvidence(c, d), c, d)
  {
    DistinctMeaning(c.runtimeEvidence + d.evidence);
  }

  /** Waiting for the user adds the decision's evidence and changes nothing else. */
  lemma ClarificationRecorded(log: seq<RunCheckpoint>, c: RunCheckpoint, d: ResumeDecision, id: string, at: string)
    requires LegalLog(log) && c in log && ClarifyOutcome(log, Some(c), d, id, at).result.Success?
    ensures var n := ClarifyOutcome(log, Some(c), d, id, at).result.value;
            n == Child(c, WaitingUser, id, at).(runtimeEvidence := n.runtimeEvidence) && Merges(n.runtimeEvidence, c, d)
    ensures d.runId == c.runId && d.checkpointId == c.checkpointId && d.disposition == RequireClarification
    ensures c.status in {Running, Suspended, WaitingUser, FailedRecoverable}
  {
    hide LegalLog, Transition, Monotone, MergedEvidence, Merges;
    OtherChangesMonotone(c, d);
    MergedMeaning(c, d);
    PlainChild(log, c, WaitingUser, id, at, NO_CHANGES.(runtimeEvidence := Some(MergedEvidence(c, d))));
  }

  /** A resumed run holds the decision's action as the next one and its evidence, and is otherwise as it was. */
  lemma ResumptionRecorded(log: seq<RunCheckpoint>, c: RunCheckpoint, d: ResumeDecision, id: string, at: string)
    requires LegalLog(log) && c in log && ResumeRunning(log, Some(c), c, d, id, at).result.Success?
    ensures var n := ResumeRunning(log, Some(c), c, d, id, at).result.value;
            n == Child(c, Running, id, at).(proposedNextAction := d.action, runtimeEvidence := n.runtimeEvidence)
            && Merges(n.runtimeEvidence, c, d)
    ensures c.status == Suspended || c.status == Running
  {
    hide LegalLog, Transition, Monotone, MergedEvidence, Merges;
    OtherChangesMonotone(c, d);
    MergedMeaning(c, d);
    PlainChild(log, c, Running, id, at, ResumeChanges(c, d));
  }

  /** A first checkpoint takes the request's identity, the position and plan given, and starts with nothing done. */
  lemma BeginningRecorded(
    q: Request, workflowId: string, workflowVersion: string, stage: string, task: string, plan: map<string, Value>,
    target: string, attempt: string, id: string, createdAt: string, updatedAt: string)
    requires Construct(InitialCheckpoint(q, workflowId, workflowVersion, stage, task, plan, target, attempt, id, createdAt, updatedAt)).Success?
    ensures var raw := InitialCheckpoint(q, workflowId, workflowVersion, stage, task, plan, target, attempt, id, createdAt, updatedAt);
            var n := Construct(raw).value;
            && (n.runId, n.sessionId, n.conversationId, n.userScope, n.planVersion)
               == (q.runId, q.sessionId, q.conversationId, q.userScope, q.planVersion)
            && (n.workflowId, n.workflowVersion, n.activeStageId, n.activeTaskId) == (workflowId, workflowVersion, stage, task)
            && (n.checkpointId, n.parentCheckpointId, n.sequenceNumber, n.status) == (id, None, 0, Created)
            && n.targetSummary == (if target != "" then target else q.targetSummary)
            && n.activationAttemptId == (if attempt != "" then attempt else q.activationAttemptId)
            && (n.createdAt, n.updatedAt, n.schemaVersion, n.contractVersion) == (createdAt, updatedAt, "1.0", "v2.2A")
            && n.verifierStatus == "UNKNOWN" && n.failureEvent == None && n.proposedNextAction == None && n.supersedesRunId == None
            && n.completedStageIds == n.completedTaskIds == n.idempotencyKeys == n.invalidationReasons == []
            && n.artifacts == [] && n.taskEffectRecords == [] && n.externalStateGuards == [] && n.runtimeEvidence == []
            && (IsJson(Dict(plan)) ==> Thaw(n.executionPlan) == Dict(plan))
  {
    hide JsonFact, Freeze, LineageFault, ListFault, Thaw, IsJson;
    JsonFactMeaning(Dict(plan));
    ThawUndoesFreeze(JsonFact(Dict(plan)));
  }

  // From a recorded stage to the decision about it.

  /**
   * Where an allowed exact resume, or a replay, of a just recorded stage continues: after a success at the
   * next stage and task, after a failure at the failed ones.
   */
  lemma RecordedStageContinues(
    log: seq<RunCheckpoint>, c: RunCheckpoint, s: StageResult, failureId: string, id: string, at: string, n: RunCheckpoint,
    d: ResumeDecision, ctx: ResumeContext, obs: seq<ExternalStateGuard>, conf: Option<NoEffectConfirmation>,
    registry: CompatibilityRegistry, p: Platform)
    requires Records(log, c, s, failureId, id, at, n)
    requires Announces(d, VerdictFor(n, ctx, obs, conf, registry, p), n, ctx)
    requires d.action == Some(ResumeExact) || d.action == Some(ReplayFromStage)
    ensures d.resumeStageId == Some(if s.success then s.nextStageId else s.stageId)
    ensures d.resumeTaskId == Some(if s.success then s.nextTaskId else s.taskId)
  {
    hide Records, VerdictFor, Allowed, Announces;
    StageMovesOn(log, c, s, failureId, id, at, n);
    AnnouncedPosition(d, n, ctx, obs, conf, registry, p);
  }

  // What is refused, and leaves everything as it was.

  ghost predicate Refuses(o: Outcome, log: seq<RunCheckpoint>, current: Option<RunCheckpoint>, error: RecorderError) {
    o.log == log && o.current == current && o.result == Failure(error)
  }

  /** A recorder without a checkpoint does nothing but start, and one with a checkpoint does not start. */
  lemma BindingRefused(
    log: seq<RunCheckpoint>, c: RunCheckpoint, s: StageResult, d: ResumeDecision, artifacts: seq<LiveArtifact>, text: string,
    ids: (string, string), times: (string, string))
    ensures Refuses(RecordOutcome(log, None, s, text, ids.0, times.0), log, None, NothingBound)
    ensures Refuses(SuspendOutcome(log, None, text, ids.0, times.0), log, None, NothingBound)
    ensures Refuses(CompleteOutcome(log, None, artifacts, text, ids.0, times.0), log, None, NothingBound)
    ensures Refuses(ResumeOutcome(log, None, d, ids, times), log, None, NothingBound)
    ensures Refuses(ClarifyOutcome(log, None, d, ids.0, times.0), log, None, NothingBound)
    ensures forall raw :: Refuses(StartOutcome(log, Some(c), raw, ids.0, times.0), log, Some(c), AlreadyBound)
  {
  }

  /** A resume needs a decision about this very checkpoint, one of the two actions it consumes, and a status to resume from. */
  lemma ResumeRefused(log: seq<RunCheckpoint>, c: RunCheckpoint, d: ResumeDecision, ids: (string, string), times: (string, string))
    ensures var o := ResumeOutcome(log, Some(c), d, ids, times);
            var bound := d.runId == c.runId && d.checkpointId == c.checkpointId;
            var consumed := d.action == Some(ResumeExact) || d.action == Some(ReplayFromStage);
            && (!bound ==> Refuses(o, log, Some(c), DecisionMismatch))
            && (bound && !consumed ==> Refuses(o, log, Some(c), ActionNotConsumed))
            && (bound && consumed && c.status in {Created, Completed, Cancelled, FailedTerminal} ==> Refuses(o, log, Some(c), StatusNotResumable))
  {
    hide Transition;
  }

  /** Waiting needs a decision about this very checkpoint that asks for clarification, and a status to wait in. */
  lemma ClarifyRefused(log: seq<RunCheckpoint>, c: RunCheckpoint, d: ResumeDecision, id: string, at: string)
    ensures var o := ClarifyOutcome(log, Some(c), d, id, at);
            var bound := d.runId == c.runId && d.checkpointId == c.checkpointId;
            && (!bound ==> Refuses(o, log, Some(c), DecisionMismatch))
            && (bound && d.disposition != RequireClarification ==> Refuses(o, log, Some(c), NotClarification))
            && (bound && d.disposition == RequireClarification && c.status in {Created, Completed, Cancelled, FailedTerminal} ==>
                  Refuses(o, log, Some(c), StatusNotWaitable))
            && (bound && d.disposition == RequireClarification && c.status in {Running, Suspended, WaitingUser, FailedRecoverable} ==>
                  o == Transition(log, Some(c), c, WaitingUser, id, at, NO_CHANGES.(runtimeEvidence := Some(MergedEvidence(c, d)))))
  {
    hide Transition;
  }
}

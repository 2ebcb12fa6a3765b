/** What recording, validating and resuming guarantee together. */
module ResumeSafety {
  import opened Text
  import opened PlanValues
  import opened Contracts
  import opened Lifecycle
  import opened Codec
  import opened Compatibility
  import opened Store
  import opened Recorder
  import opened Protocol
  import opened ResumePolicy

  // A failed effect fences the run.

  /** The checkpoint written for a failed stage: its last effect record is the active task's, and dates from `at`. */
  lemma FailedStageRecord(c: RunCheckpoint, s: StageResult, failureId: string, id: string, at: string)
    requires !s.success
    requires ChildOf(c, StageStatus(s), id, at, StageChanges(c, s, failureId)).Success?
    ensures var child := ChildOf(c, StageStatus(s), id, at, StageChanges(c, s, failureId)).value;
            && child.taskEffectRecords == WithoutTask(c.taskEffectRecords, s.taskId) + [StageEffect(c, s)]
            && child.activeTaskId == s.taskId && child.activeStageId == s.stageId && child.updatedAt == at
            && child.status == StageStatus(s)
  {
    ChildFields(c, StageStatus(s), id, at, StageChanges(c, s, failureId));
  }

  /** The confirmation speaks of exactly the effect this stage may have had, and was made after it was recorded. */
  predicate ConfirmsStage(
    conf: Option<NoEffectConfirmation>, c: RunCheckpoint, s: StageResult, at: string, p: Platform)
  {
    && conf.Some?
    && s.metadata.externalReference != ""
    && conf.value.taskId == s.taskId
    && conf.value.idempotencyKey == IdempotencyKey(c.runId, s.taskId)
    && conf.value.externalReference == s.metadata.externalReference
    && ConfirmedAfter(conf.value.checkedAt, at, p)
  }

  /**
   * After a failed stage whose effect may have happened, nothing in the context, the
   * guards, the confirmation or the registry makes the validator allow more than
   * abandoning; except an exact resume under a confirmation of that very effect.
   */
  lemma FailedEffectFencesResume(
    c: RunCheckpoint, s: StageResult, failureId: string, id: string, at: string,
    action: ResumeAction, ctx: ResumeContext, obs: seq<ExternalStateGuard>,
    conf: Option<NoEffectConfirmation>, registry: CompatibilityRegistry, p: Platform)
    requires !s.success && UnsafeState(EffectStateForTask(s.taskVerb, s.success, s.metadata.sideEffectState))
    requires ChildOf(c, StageStatus(s), id, at, StageChanges(c, s, failureId)).Success?
    requires Allowed(action, ChildOf(c, StageStatus(s), id, at, StageChanges(c, s, failureId)).value, ctx, obs, conf, registry, p)
    ensures action == AbandonAndRestart || (action == ResumeExact && ConfirmsStage(conf, c, s, at, p))
  {
    var child := ChildOf(c, StageStatus(s), id, at, StageChanges(c, s, failureId)).value;
    FailedStageRecord(c, s, failureId, id, at);
    var records := child.taskEffectRecords;
    var last := |records| - 1;
    assert records[last] == StageEffect(c, s) && Unsafe(records[last]);
    match action
    case AbandonAndRestart =>
    case ReplayFromStage => assert BlocksReplay(records[last]); assert false;
    case ReplanFromCheckpoint => assert false;
    case ResumeExact =>
      assert EffectsSettled(child, conf, p);
      if conf.Some? {
        var i :| 0 <= i < |records| && OnlyUnsafe(records, i) && Attests(conf.value, records[i], child, p);
        assert i == last;
      }
  }

  /** An unreported failure of an effectful verb is such a failure, and without an external reference only abandoning is left. */
  lemma UnreferencedFailureOnlyAbandons(
    c: RunCheckpoint, s: StageResult, failureId: string, id: string, at: string,
    action: ResumeAction, ctx: ResumeContext, obs: seq<ExternalStateGuard>,
    conf: Option<NoEffectConfirmation>, registry: CompatibilityRegistry, p: Platform)
    requires !s.success && AttemptsEffect(s.taskVerb)
    requires s.metadata.sideEffectState == None && s.metadata.externalReference == ""
    requires ChildOf(c, StageStatus(s), id, at, StageChanges(c, s, failureId)).Success?
    requires Allowed(action, ChildOf(c, StageStatus(s), id, at, StageChanges(c, s, failureId)).value, ctx, obs, conf, registry, p)
    ensures action == AbandonAndRestart
    ensures StageStatus(s) == WaitingUser
  {
    FailedEffectFencesResume(c, s, failureId, id, at, action, ctx, obs, conf, registry, p);
  }

  /** With a reference, the confirmed exact resume is really available: the confirmation is all that was missing. */
  lemma ConfirmedExactResumeIsAllowed(
    c: RunCheckpoint, s: StageResult, failureId: string, id: string, at: string,
    ctx: ResumeContext, obs: seq<ExternalStateGuard>, conf: Option<NoEffectConfirmation>,
    registry: CompatibilityRegistry, p: Platform)
    requires !s.success && UnsafeState(EffectStateForTask(s.taskVerb, s.success, s.metadata.sideEffectState))
    requires ChildOf(c, StageStatus(s), id, at, StageChanges(c, s, failureId)).Success?
    requires forall r :: r in c.taskEffectRecords && r.taskId != s.taskId ==> !Unsafe(r)
    requires var child := ChildOf(c, StageStatus(s), id, at, StageChanges(c, s, failureId)).value;
             ctx.requestedAction == Some(ResumeExact) && Positioned(child, ctx) && ExactVersions(child, ctx)
    ensures var child := ChildOf(c, StageStatus(s), id, at, StageChanges(c, s, failureId)).value;
            Allowed(ResumeExact, child, ctx, obs, conf, registry, p) <==>
            Admissible(child, ctx, obs, conf, registry, p) && ConfirmsStage(conf, c, s, at, p)
  {
    var child := ChildOf(c, StageStatus(s), id, at, StageChanges(c, s, failureId)).value;
    FailedStageRecord(c, s, failureId, id, at);
    var kept := WithoutTask(c.taskEffectRecords, s.taskId);
    WithoutTaskMeaning(c.taskEffectRecords, s.taskId);
    var records := child.taskEffectRecords;
    KeyNotBlank(c.runId, s.taskId);
    if Allowed(ResumeExact, child, ctx, obs, conf, registry, p) {
      FailedEffectFencesResume(c, s, failureId, id, at, ResumeExact, ctx, obs, conf, registry, p);
    }
    if ConfirmsStage(conf, c, s, at, p) {
      forall j | 0 <= j < |records| ensures Unsafe(records[j]) ==> j == |kept| {
        if j < |kept| { assert kept[j] in kept; }
      }
      assert OnlyUnsafe(records, |kept|) && Attests(conf.value, records[|kept|], child, p);
    }
  }

  // Resuming after an ALLOW.

  /** Changes that only touch evidence and the proposed action. */
  predicate OnlyNotes(changes: Changes) {
    changes == NO_CHANGES.(proposedNextAction := changes.proposedNextAction, runtimeEvidence := changes.runtimeEvidence)
  }

  /** Such a child is built whenever the transition is declared and the id is new. */
  lemma NotedChild(c: RunCheckpoint, status: CheckpointStatus, id: string, at: string, changes: Changes)
    requires WellFormed(c) && Canonical(c) && OnlyNotes(changes)
    requires status == c.status || AllowedTransition(c.status, status)
    requires !IsBlank(id) && id != c.checkpointId
    ensures ChildOf(c, status, id, at, changes) == Success(RawChild(c, status, id, at, changes))
  {
    var raw := RawChild(c, status, id, at, changes);
    ChildLineageIsValid(c, status, id, at, changes);
    LineageFaultMeaning(raw);
    assert WellFormed(raw);
    ConstructKeeps(raw);
  }

  /** `c` is the newest checkpoint of its lineage. */
  ghost predicate IsLatest(log: seq<RunCheckpoint>, c: RunCheckpoint) {
    var chain := Chain(log, c.runId, c.workflowId);
    chain != [] && chain[|chain| - 1] == c
  }

  /** An id the store has never seen. */
  ghost predicate Fresh(log: seq<RunCheckpoint>, id: string) {
    !IsBlank(id) && Find(log, id).None?
  }

  /** Saving the next checkpoint of a lineage under a fresh id is accepted and makes it the newest. */
  lemma NextIsAccepted(log: seq<RunCheckpoint>, current: Option<RunCheckpoint>, c: RunCheckpoint, child: RunCheckpoint)
    requires WellBuilt(log) && IsLatest(log, c) && Fresh(log, child.checkpointId)
    requires child.parentCheckpointId == Some(c.checkpointId) && child.sequenceNumber == c.sequenceNumber + 1
    requires child.runId == c.runId && child.workflowId == c.workflowId
    ensures Commit(log, current, child) == Outcome(log + [child], Some(child), Success(child))
    ensures WellBuilt(log + [child]) && IsLatest(log + [child], child)
  {
    var chain := Chain(log, c.runId, c.workflowId);
    WellBuiltIsChain(log, c.runId, c.workflowId);
    ChainPositions(chain, |chain| - 1);
    FollowsMeaning(log, child);
    SaveKeepsWellBuilt(log, child);
    Appended(log, child, c.runId, c.workflowId, "");
  }

  lemma LatestIdDiffers(log: seq<RunCheckpoint>, c: RunCheckpoint, id: string)
    requires IsLatest(log, c) && Fresh(log, id)
    ensures id != c.checkpointId
  {
    var chain := Chain(log, c.runId, c.workflowId);
    ChainMeaning(log, c.runId, c.workflowId);
    assert chain[|chain| - 1] in chain;
    FindMeaning(log, id);
  }

  /** One leg of a resume: the child is saved, becomes current, and is the newest of its lineage. */
  lemma NotedTransition(
    log: seq<RunCheckpoint>, current: Option<RunCheckpoint>,
    c: RunCheckpoint, status: CheckpointStatus, id: string, at: string, changes: Changes)
    requires WellBuilt(log) && IsLatest(log, c) && Fresh(log, id)
    requires WellFormed(c) && Canonical(c) && OnlyNotes(changes)
    requires status == c.status || AllowedTransition(c.status, status)
    ensures var child := RawChild(c, status, id, at, changes);
            Transition(log, current, c, status, id, at, changes) == Outcome(log + [child], Some(child), Success(child))
    ensures var child := RawChild(c, status, id, at, changes); WellBuilt(log + [child]) && IsLatest(log + [child], child)
  {
    LatestIdDiffers(log, c, id);
    NotedChild(c, status, id, at, changes);
    NextIsAccepted(log, current, c, RawChild(c, status, id, at, changes));
  }

  lemma NotedChildIsWellFormed(c: RunCheckpoint, status: CheckpointStatus, id: string, at: string, changes: Changes)
    requires WellFormed(c) && Canonical(c) && OnlyNotes(changes)
    requires status == c.status || AllowedTransition(c.status, status)
    requires !IsBlank(id) && id != c.checkpointId
    ensures WellFormed(RawChild(c, status, id, at, changes)) && Canonical(RawChild(c, status, id, at, changes))
  {
    NotedChild(c, status, id, at, changes);
    ConstructAccepts(RawChild(c, status, id, at, changes));
  }

  /** An EXACT or REPLAY decision about this very checkpoint. */
  predicate Resumes(d: ResumeDecision, c: RunCheckpoint, action: ResumeAction) {
    DecisionBindsTo(d, c) && d.action == Some(action) && (action == ResumeExact || action == ReplayFromStage)
  }

  predicate PassesThroughSuspended(s: CheckpointStatus) {
    s == WaitingUser || s == FailedRecoverable
  }

  /** What a successful resume leaves: RUNNING, after one checkpoint or two. */
  ghost predicate EndsRunning(o: Outcome, log: seq<RunCheckpoint>, c: RunCheckpoint, action: ResumeAction) {
    && o.result.Success? && o.result.value.status == Running && o.current == Some(o.result.value)
    && o.result.value.proposedNextAction == Some(action)
    && |o.log| == |log| + (if PassesThroughSuspended(c.status) then 2 else 1)
    && log <= o.log && o.log[|o.log| - 1] == o.result.value
    && (PassesThroughSuspended(c.status) ==> o.log[|log|].status == Suspended)
  }

  lemma ResumeDirectly(
    log: seq<RunCheckpoint>, c: RunCheckpoint, d: ResumeDecision, action: ResumeAction, ids: (string, string), times: (string, string))
    requires WellBuilt(log) && IsLatest(log, c) && WellFormed(c) && Canonical(c)
    requires Resumes(d, c, action) && (c.status == Running || c.status == Suspended)
    requires Fresh(log, ids.1)
    ensures EndsRunning(ResumeOutcome(log, Some(c), d, ids, times), log, c, action)
  {
    hide WellFormed, Canonical, WellBuilt, IsLatest, Transition, Fresh;
    NotedTransition(log, Some(c), c, Running, ids.1, times.1, ResumeChanges(c, d));
  }

  lemma ResumeThroughSuspended(
    log: seq<RunCheckpoint>, c: RunCheckpoint, d: ResumeDecision, action: ResumeAction, ids: (string, string), times: (string, string))
    requires WellBuilt(log) && IsLatest(log, c) && WellFormed(c) && Canonical(c)
    requires Resumes(d, c, action) && PassesThroughSuspended(c.status)
    requires Fresh(log, ids.0) && Fresh(log, ids.1) && ids.0 != ids.1
    ensures EndsRunning(ResumeOutcome(log, Some(c), d, ids, times), log, c, action)
  {
    hide WellFormed, Canonical, WellBuilt, IsLatest, Transition, Find, Chain, RunLog, MergedEvidence;
    var notes := NO_CHANGES.(runtimeEvidence := Some(MergedEvidence(c, d)));
    var half := RawChild(c, Suspended, ids.0, times.0, notes);
    NotedTransition(log, Some(c), c, Suspended, ids.0, times.0, notes);
    LatestIdDiffers(log, c, ids.0);
    NotedChildIsWellFormed(c, Suspended, ids.0, times.0, notes);
    Appended(log, half, "", "", ids.1);
    NotedTransition(log + [half], Some(half), half, Running, ids.1, times.1, ResumeChanges(half, d));
    assert ResumeOutcome(log, Some(c), d, ids, times) == ResumeRunning(log + [half], Some(half), half, d, ids.1, times.1);
  }

  /**
   * Consuming an ALLOW on the newest checkpoint never hits an illegal transition: the
   * run ends RUNNING after one new checkpoint, or two when it was waiting or had failed.
   */
  lemma AllowedResumeEndsRunning(
    log: seq<RunCheckpoint>, c: RunCheckpoint, d: ResumeDecision, action: ResumeAction, ctx: ResumeContext,
    obs: seq<ExternalStateGuard>, conf: Option<NoEffectConfirmation>, registry: CompatibilityRegistry, p: Platform,
    ids: (string, string), times: (string, string))
    requires WellBuilt(log) && IsLatest(log, c) && WellFormed(c) && Canonical(c)
    requires Resumes(d, c, action) && Allowed(action, c, ctx, obs, conf, registry, p)
    requires c.status != Created
    requires Fresh(log, ids.0) && Fresh(log, ids.1) && ids.0 != ids.1
    ensures EndsRunning(ResumeOutcome(log, Some(c), d, ids, times), log, c, action)
  {
    if PassesThroughSuspended(c.status) {
      ResumeThroughSuspended(log, c, d, action, ids, times);
    } else {
      StatusCases(c.status);
      ResumeDirectly(log, c, d, action, ids, times);
    }
  }

  /** A child of a stored checkpoint that is not the newest of its lineage is refused by the store: its parent is not the latest. */
  lemma StaleChildIsRefused(log: seq<RunCheckpoint>, current: Option<RunCheckpoint>, c: RunCheckpoint, child: RunCheckpoint)
    requires c in log && !IsLatest(log, c) && WellBuilt(log) && Find(log, child.checkpointId).None?
    requires child.parentCheckpointId == Some(c.checkpointId) && child.runId == c.runId && child.workflowId == c.workflowId
    ensures Commit(log, current, child) == Outcome(log, current, Failure(NotSaved(ParentNotLatest)))
  {
    hide WellBuilt, Chain, Find, IdIndex, Digest;
    var chain := Chain(log, c.runId, c.workflowId);
    ChainMeaning(log, c.runId, c.workflowId);
    assert c in chain && chain[|chain| - 1] in chain;
    StoredUnderId(log, c);
    StoredUnderId(log, chain[|chain| - 1]);
  }

  lemma StoredIdDiffers(log: seq<RunCheckpoint>, c: RunCheckpoint, id: string)
    requires c in log && Fresh(log, id)
    ensures id != c.checkpointId
  {
    FindMeaning(log, id);
  }

  /** So every leg of a stale resume ends there, and not at a transition the table forbids. */
  lemma StaleTransition(
    log: seq<RunCheckpoint>, c: RunCheckpoint, status: CheckpointStatus, id: string, at: string, changes: Changes)
    requires WellBuilt(log) && c in log && !IsLatest(log, c) && Fresh(log, id)
    requires WellFormed(c) && Canonical(c) && OnlyNotes(changes)
    requires status == c.status || AllowedTransition(c.status, status)
    ensures Transition(log, Some(c), c, status, id, at, changes) == Outcome(log, Some(c), Failure(NotSaved(ParentNotLatest)))
  {
    StoredIdDiffers(log, c, id);
    NotedChild(c, status, id, at, changes);
    hide WellFormed, Canonical, IsLatest;
    StaleChildIsRefused(log, Some(c), c, RawChild(c, status, id, at, changes));
  }

  lemma StaleResumeIsRefused(
    log: seq<RunCheckpoint>, c: RunCheckpoint, d: ResumeDecision, action: ResumeAction, ids: (string, string), times: (string, string))
    requires WellBuilt(log) && c in log && !IsLatest(log, c) && WellFormed(c) && Canonical(c)
    requires Resumes(d, c, action) && (c.status == Running || c.status == Suspended || PassesThroughSuspended(c.status))
    requires Fresh(log, ids.0) && Fresh(log, ids.1)
    ensures ResumeOutcome(log, Some(c), d, ids, times) == Outcome(log, Some(c), Failure(NotSaved(ParentNotLatest)))
  {
    if PassesThroughSuspended(c.status) {
      StaleTransition(log, c, Suspended, ids.0, times.0, NO_CHANGES.(runtimeEvidence := Some(MergedEvidence(c, d))));
    } else {
      StaleTransition(log, c, Running, ids.1, times.1, ResumeChanges(c, d));
    }
    hide WellFormed, Canonical, IsLatest, WellBuilt, Transition;
  }

  /**
   * Consuming an ALLOW on any stored checkpoint, stale or not: the resume ends RUNNING exactly when the
   * checkpoint is still the newest of its lineage; otherwise the store refuses it and nothing changes.
   * A replay is only allowed when the active task has no effect that could be repeated.
   */
  lemma AllowedResumeExactly(
    log: seq<RunCheckpoint>, c: RunCheckpoint, d: ResumeDecision, action: ResumeAction, ctx: ResumeContext,
    obs: seq<ExternalStateGuard>, conf: Option<NoEffectConfirmation>, registry: CompatibilityRegistry, p: Platform,
    ids: (string, string), times: (string, string))
    requires WellBuilt(log) && LegalLog(log) && c in log && c.status != Created
    requires Resumes(d, c, action) && Allowed(action, c, ctx, obs, conf, registry, p)
    requires Fresh(log, ids.0) && Fresh(log, ids.1) && ids.0 != ids.1
    ensures EndsRunning(ResumeOutcome(log, Some(c), d, ids, times), log, c, action) <==> IsLatest(log, c)
    ensures !IsLatest(log, c) ==>
              ResumeOutcome(log, Some(c), d, ids, times) == Outcome(log, Some(c), Failure(NotSaved(ParentNotLatest)))
    ensures action == ReplayFromStage ==>
              forall i | 0 <= i < |c.taskEffectRecords| :: c.taskEffectRecords[i].taskId == c.activeTaskId ==>
                c.taskEffectRecords[i].effectState in {NoEffect, NotStarted, FailedBeforeCommit, Compensated}
  {
    StoredIsWellFormed(log, c);
    StatusCases(c.status);
    if action == ReplayFromStage { ReplayTouchesNothing(c); }
    if IsLatest(log, c) {
      AllowedResumeEndsRunning(log, c, d, action, ctx, obs, conf, registry, p, ids, times);
    } else {
      StaleResumeIsRefused(log, c, d, action, ids, times);
    }
  }

  lemma StatusCases(s: CheckpointStatus)
    ensures s == Created || Terminal(s) || PassesThroughSuspended(s) || s == Running || s == Suspended
  {
  }

  lemma ReplayTouchesNothing(c: RunCheckpoint)
    requires ReplaySafe(c)
    ensures forall i | 0 <= i < |c.taskEffectRecords| :: c.taskEffectRecords[i].taskId == c.activeTaskId ==>
              c.taskEffectRecords[i].effectState in {NoEffect, NotStarted, FailedBeforeCommit, Compensated}
  {
    forall i | 0 <= i < |c.taskEffectRecords| && c.taskEffectRecords[i].taskId == c.activeTaskId
      ensures c.taskEffectRecords[i].effectState in {NoEffect, NotStarted, FailedBeforeCommit, Compensated}
    {
      assert !BlocksReplay(c.taskEffectRecords[i]);
    }
  }

  /** A CREATED checkpoint is refused by the recorder whatever was decided, with no effect. */
  lemma CreatedIsNotResumed(
    log: seq<RunCheckpoint>, c: RunCheckpoint, d: ResumeDecision, ids: (string, string), times: (string, string))
    requires c.status == Created
    ensures ResumeOutcome(log, Some(c), d, ids, times).result.Failure?
    ensures ResumeOutcome(log, Some(c), d, ids, times).log == log && ResumeOutcome(log, Some(c), d, ids, times).current == Some(c)
  {
  }

  // Recorder methods as protocol steps.

  /** The outcome is no effect at all, or one save the protocol lets this recorder attempt. */
  ghost predicate IsWrite(log: seq<RunCheckpoint>, current: Option<RunCheckpoint>, o: Outcome) {
    || (o.log == log && o.current == current && o.result.Failure?)
    || (exists c :: MayWrite(current, c) && o == Commit(log, current, c))
  }

  lemma {:induction false} StoredIsWellFormed(log: seq<RunCheckpoint>, c: RunCheckpoint)
    requires LegalLog(log) && c in log
    ensures WellFormed(c) && Canonical(c)
  {
    if c == log[|log| - 1] {
      assert LegalEntry(log[..|log| - 1], c);
    } else {
      assert log == log[..|log| - 1] + [log[|log| - 1]];
      StoredIsWellFormed(log[..|log| - 1], c);
    }
  }

  /** What a committed write leaves behind is stored, so the recorder stays bound to the store. */
  lemma WriteStaysBound(log: seq<RunCheckpoint>, current: Option<RunCheckpoint>, o: Outcome)
    requires WellBuilt(log) && LegalLog(log) && Bound(log, current) && IsWrite(log, current, o)
    ensures WellBuilt(o.log) && LegalLog(o.log) && Bound(o.log, o.current) && log <= o.log
    ensures o.result.Success? ==> o.current == Some(o.result.value)
  {
    if c :| MayWrite(current, c) && o == Commit(log, current, c) {
      WriteKeepsLegal(log, current, c);
    }
  }

  lemma MonotoneTransitionIsWrite(
    log: seq<RunCheckpoint>, c: RunCheckpoint, status: CheckpointStatus, id: string, at: string, changes: Changes)
    requires LegalLog(log) && c in log && Monotone(c, changes)
    ensures IsWrite(log, Some(c), Transition(log, Some(c), c, status, id, at, changes))
  {
    StoredIsWellFormed(log, c);
    TransitionIsAWrite(log, Some(c), c, status, id, at, changes);
  }

  /** Recording a stage is one protocol write. */
  lemma RecordStageIsWrite(log: seq<RunCheckpoint>, c: RunCheckpoint, s: StageResult, failureId: string, id: string, at: string)
    requires LegalLog(log) && c in log
    ensures IsWrite(log, Some(c), Transition(log, Some(c), c, StageStatus(s), id, at, StageChanges(c, s, failureId)))
  {
    StoredIsWellFormed(log, c);
    StageChangesMonotone(c, s, failureId);
    MonotoneTransitionIsWrite(log, c, StageStatus(s), id, at, StageChanges(c, s, failureId));
  }

  /** So are suspending and completing. */
  lemma SuspendAndCompleteAreWrites(
    log: seq<RunCheckpoint>, c: RunCheckpoint, reason: string, artifacts: seq<LiveArtifact>, summary: string, id: string, at: string)
    requires LegalLog(log) && c in log
    ensures IsWrite(log, Some(c), Transition(log, Some(c), c, Suspended, id, at, SuspendChanges(c, reason)))
    ensures IsWrite(log, Some(c), Transition(log, Some(c), c, Completed, id, at, CompleteChanges(c, artifacts, summary)))
  {
    EndingChangesMonotone(c, reason, artifacts, summary);
    MonotoneTransitionIsWrite(log, c, Suspended, id, at, SuspendChanges(c, reason));
    MonotoneTransitionIsWrite(log, c, Completed, id, at, CompleteChanges(c, artifacts, summary));
  }

  /** And waiting for a clarification. */
  lemma ClarifyIsWrite(log: seq<RunCheckpoint>, c: RunCheckpoint, d: ResumeDecision, id: string, at: string)
    requires LegalLog(log) && c in log
    ensures IsWrite(log, Some(c), ClarifyOutcome(log, Some(c), d, id, at))
  {
    var notes := NO_CHANGES.(runtimeEvidence := Some(MergedEvidence(c, d)));
    var o := ClarifyOutcome(log, Some(c), d, id, at);
    if o != Outcome(log, Some(c), o.result) || o.result.Success? {
      assert o == Transition(log, Some(c), c, WaitingUser, id, at, notes);
      OtherChangesMonotone(c, d);
      MonotoneTransitionIsWrite(log, c, WaitingUser, id, at, notes);
    }
  }

  lemma ResumeRunningIsWrite(log: seq<RunCheckpoint>, c: RunCheckpoint, d: ResumeDecision, id: string, at: string)
    requires LegalLog(log) && c in log
    ensures IsWrite(log, Some(c), ResumeRunning(log, Some(c), c, d, id, at))
  {
    OtherChangesMonotone(c, d);
    MonotoneTransitionIsWrite(log, c, Running, id, at, ResumeChanges(c, d));
  }

  /** Resuming is one write, or two in a row by the same recorder. */
  lemma ResumeIsOneOrTwoWrites(
    log: seq<RunCheckpoint>, c: RunCheckpoint, d: ResumeDecision, ids: (string, string), times: (string, string))
    returns (mid: Outcome)
    requires WellBuilt(log) && LegalLog(log) && c in log
    ensures IsWrite(log, Some(c), mid)
    ensures var o := ResumeOutcome(log, Some(c), d, ids, times);
            o == mid || (mid.result.Success? && IsWrite(mid.log, mid.current, o))
  {
    var notes := NO_CHANGES.(runtimeEvidence := Some(MergedEvidence(c, d)));
    if DecisionBindsTo(d, c) && Consumable(d) && (c.status == FailedRecoverable || c.status == WaitingUser) {
      MonotoneTransitionIsWrite(log, c, Suspended, ids.0, times.0, notes);
      mid := Transition(log, Some(c), c, Suspended, ids.0, times.0, notes);
      WriteStaysBound(log, Some(c), mid);
      if mid.result.Success? { ResumeRunningIsWrite(mid.log, mid.result.value, d, ids.1, times.1); }
    } else {
      ResumeRunningIsWrite(log, c, d, ids.1, times.1);
      mid := ResumeOutcome(log, Some(c), d, ids, times);
    }
  }

  /** Starting is one or two writes as well: the CREATED checkpoint, then the RUNNING one. */
  lemma StartIsWrites(log: seq<RunCheckpoint>, raw: RunCheckpoint, id: string, at: string)
    requires WellBuilt(log) && LegalLog(log)
    requires Construct(raw).Success? && MayWrite(None, Construct(raw).value)
    ensures var first := Commit(log, None, Construct(raw).value);
            IsWrite(log, None, first)
            && (first.result.Success? ==>
                  IsWrite(first.log, first.current, Transition(first.log, first.current, first.result.value, Running, id, at, NO_CHANGES)))
  {
    var first := Commit(log, None, Construct(raw).value);
    assert IsWrite(log, None, first);
    if first.result.Success? {
      WriteStaysBound(log, None, first);
      MonotoneTransitionIsWrite(first.log, first.result.value, Running, id, at, NO_CHANGES);
    }
  }
}

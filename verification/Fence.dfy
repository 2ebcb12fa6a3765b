/** How long a failed effect fences its run: through every operation, until its task is recorded again. */
module Fence {
  import opened Text
  import opened PlanValues
  import opened Contracts
  import opened Compatibility
  import opened Lifecycle
  import opened Codec
  import opened Store
  import opened Recorder
  import opened Protocol
  import opened ResumePolicy
  import opened ResumeSafety
  import opened Operations

  function Latest(log: seq<RunCheckpoint>, run: string, workflow: string): RunCheckpoint
    requires Chain(log, run, workflow) != []
  {
    Chain(log, run, workflow)[|Chain(log, run, workflow)| - 1]
  }

  /** The newest checkpoint of the lineage holds this effect record. */
  predicate OnRecord(log: seq<RunCheckpoint>, run: string, workflow: string, r: TaskEffectRecord) {
    Chain(log, run, workflow) != [] && r in Latest(log, run, workflow).taskEffectRecords
  }

  /** A recorder that holds a checkpoint of the lineage records this task anew. */
  predicate RecordsAgain(current: Option<RunCheckpoint>, op: Operation, run: string, workflow: string, task: string) {
    && current.Some? && current.value.runId == run && current.value.workflowId == workflow
    && op.RecordStage? && op.stageResult.taskId == task
  }

  predicate ActRecordsAgain(w: World, act: Act, run: string, workflow: string, task: string) {
    act.Operate? && act.i < |w.currents| && RecordsAgain(w.currents[act.i], act.op, run, workflow, task)
  }

  ghost predicate NeverRecordedAgain(w: World, acts: seq<Act>, run: string, workflow: string, task: string) {
    forall n :: 0 <= n < |acts| ==> !ActRecordsAgain(AfterActs(w, acts[..n]), acts[n], run, workflow, task)
  }

  // One save, one transition, one operation.

  /** A save takes the record over unless it puts a checkpoint without it at the end of the lineage. */
  lemma CommitKeepsRecord(
    log: seq<RunCheckpoint>, current: Option<RunCheckpoint>, c: RunCheckpoint, run: string, workflow: string, r: TaskEffectRecord)
    requires WellBuilt(log) && OnRecord(log, run, workflow, r)
    requires Fits(log, c) && c.runId == run && c.workflowId == workflow ==> r in c.taskEffectRecords
    ensures WellBuilt(Commit(log, current, c).log) && OnRecord(Commit(log, current, c).log, run, workflow, r)
    ensures var o := Commit(log, current, c); o.result.Success? ==> o.current == Some(o.result.value) && o.result.value in o.log
  {
    hide WellBuilt, Find, Chain, RunLog, Digest, Fits, SaveOutcome, LogAfter;
    SaveKeepsWellBuilt(log, c);
    AcceptedIsStored(log, c);
    Appended(log, c, run, workflow, "");
  }

  lemma TransitionKeepsRecord(
    log: seq<RunCheckpoint>, c: RunCheckpoint, status: CheckpointStatus, id: string, at: string, changes: Changes,
    run: string, workflow: string, r: TaskEffectRecord)
    requires WellBuilt(log) && c in log && OnRecord(log, run, workflow, r)
    requires c.runId == run && c.workflowId == workflow && r in c.taskEffectRecords ==>
               r in changes.taskEffectRecords.GetOr(c.taskEffectRecords)
    ensures var o := Transition(log, Some(c), c, status, id, at, changes);
            && WellBuilt(o.log) && OnRecord(o.log, run, workflow, r)
            && (o.result.Success? ==> o.current == Some(o.result.value) && o.result.value in o.log)
  {
    hide WellBuilt, Fits, Commit, Chain, ChildOf, Freeze, NonBlank;
    if ChildOf(c, status, id, at, changes).Success? {
      var child := ChildOf(c, status, id, at, changes).value;
      ChildFields(c, status, id, at, changes);
      if Fits(log, child) && child.runId == run && child.workflowId == workflow {
        AcceptedParentIsLatest(log, c, child);
      }
      CommitKeepsRecord(log, Some(c), child, run, workflow, r);
    }
  }

  /** A first checkpoint never joins a lineage that exists. */
  lemma StartKeepsRecord(
    log: seq<RunCheckpoint>, raw: RunCheckpoint, id: string, at: string, run: string, workflow: string, r: TaskEffectRecord)
    requires WellBuilt(log) && OnRecord(log, run, workflow, r) && raw.parentCheckpointId == None
    ensures OnRecord(StartOutcome(log, None, raw, id, at).log, run, workflow, r)
  {
    hide WellBuilt, Commit, Transition, Chain, LineageFault, ListFault, Freeze, NonBlank, Find;
    if Construct(raw).Success? {
      var initial := Construct(raw).value;
      CommitKeepsRecord(log, None, initial, run, workflow, r);
      var first := Commit(log, None, initial);
      if first.result.Success? {
        TransitionKeepsRecord(first.log, first.result.value, Running, id, at, NO_CHANGES, run, workflow, r);
      }
    }
  }

  lemma ResumeKeepsRecord(
    log: seq<RunCheckpoint>, c: RunCheckpoint, d: ResumeDecision, ids: (string, string), times: (string, string),
    run: string, workflow: string, r: TaskEffectRecord)
    requires WellBuilt(log) && c in log && OnRecord(log, run, workflow, r)
    ensures OnRecord(ResumeOutcome(log, Some(c), d, ids, times).log, run, workflow, r)
  {
    hide WellBuilt, Transition, OnRecord, MergedEvidence;
    TransitionKeepsRecord(log, c, Running, ids.1, times.1, ResumeChanges(c, d), run, workflow, r);
    if PassesThroughSuspended(c.status) {
      var notes := NO_CHANGES.(runtimeEvidence := Some(MergedEvidence(c, d)));
      TransitionKeepsRecord(log, c, Suspended, ids.0, times.0, notes, run, workflow, r);
      var half := Transition(log, Some(c), c, Suspended, ids.0, times.0, notes);
      if half.result.Success? {
        var t := half.result.value;
        TransitionKeepsRecord(half.log, t, Running, ids.1, times.1, ResumeChanges(t, d), run, workflow, r);
      }
    }
  }

  /** No operation drops the record, except recording its task again. */
  lemma OperationKeepsRecord(
    log: seq<RunCheckpoint>, current: Option<RunCheckpoint>, op: Operation, run: string, workflow: string, r: TaskEffectRecord)
    requires WellBuilt(log) && Bound(log, current) && OnRecord(log, run, workflow, r)
    requires !RecordsAgain(current, op, run, workflow, r.taskId)
    ensures OnRecord(Perform(log, current, op).log, run, workflow, r)
  {
    hide WellBuilt, Transition, OnRecord, MergedEvidence, ResumeOutcome, StartOutcome, Snapshots, WithoutTask, StageEffect, StageStatus;
    match op {
      case StartRun(_, _, _, _, _, _, _, _, ids, times) =>
        if current.None? {
          StartKeepsRecord(log, FirstCheckpoint(op), ids.1, times.2, run, workflow, r);
        } else {
          BoundStartsNothing(log, current, op);
        }
      case ResumeRun(d, ids, times) =>
        if current.None? {
          NothingToResume(log, d, ids, times);
        } else {
          ResumeKeepsRecord(log, current.value, d, ids, times, run, workflow, r);
        }
      case Clarify(d, id, at) =>
        if current.Some? {
          var c := current.value;
          var notes := NO_CHANGES.(runtimeEvidence := Some(MergedEvidence(c, d)));
          TransitionKeepsRecord(log, c, WaitingUser, id, at, notes, run, workflow, r);
        }
      case RecordStage(s, failureId, id, at) =>
        if current.Some? {
          var c := current.value;
          WithoutTaskMeaning(c.taskEffectRecords, s.taskId);
          TransitionKeepsRecord(log, c, StageStatus(s), id, at, StageChanges(c, s, failureId), run, workflow, r);
        }
      case SuspendRun(reason, id, at) =>
        if current.Some? {
          TransitionKeepsRecord(log, current.value, Suspended, id, at, SuspendChanges(current.value, reason), run, workflow, r);
        }
      case CompleteRun(artifacts, summary, id, at) =>
        if current.Some? {
          var changes := CompleteChanges(current.value, artifacts, summary);
          TransitionKeepsRecord(log, current.value, Completed, id, at, changes, run, workflow, r);
        }
    }
  }

  lemma BoundStartsNothing(log: seq<RunCheckpoint>, current: Option<RunCheckpoint>, op: Operation)
    requires op.StartRun? && current.Some?
    ensures StartOutcome(log, current, FirstCheckpoint(op), op.startIds.1, op.startTimes.2).log == log
  {
  }

  lemma NothingToResume(log: seq<RunCheckpoint>, d: ResumeDecision, ids: (string, string), times: (string, string))
    ensures ResumeOutcome(log, None, d, ids, times).log == log
  {
  }

  // Runs.

  lemma {:induction false} RunKeepsRecord(w: World, acts: seq<Act>, run: string, workflow: string, r: TaskEffectRecord)
    requires Sound(w) && OnRecord(w.log, run, workflow, r) && NeverRecordedAgain(w, acts, run, workflow, r.taskId)
    ensures Sound(AfterActs(w, acts)) && OnRecord(AfterActs(w, acts).log, run, workflow, r)
  {
    hide WellBuilt, LegalLog, OnRecord, Perform, RecordsAgain, Find;
    if acts != [] {
      var front, act := acts[..|acts| - 1], acts[|acts| - 1];
      forall n | 0 <= n < |front| ensures !ActRecordsAgain(AfterActs(w, front[..n]), front[n], run, workflow, r.taskId) {
        assert front[..n] == acts[..n];
      }
      RunKeepsRecord(w, front, run, workflow, r);
      var before := AfterActs(w, front);
      assert !ActRecordsAgain(before, act, run, workflow, r.taskId);
      ActKeepsSound(before, act);
      if act.Operate? && act.i < |before.currents| {
        OperationKeepsRecord(before.log, before.currents[act.i], act.op, run, workflow, r);
      }
    }
  }

  /**
   * What an unsafe effect on record leaves the validator to allow: abandoning; an exact resume that continues its
   * task under a confirmation of that very effect; or the replay of a stage whose task is another.
   */
  lemma UnsafeRecordFences(
    c: RunCheckpoint, r: TaskEffectRecord, action: ResumeAction, ctx: ResumeContext, obs: seq<ExternalStateGuard>,
    conf: Option<NoEffectConfirmation>, registry: CompatibilityRegistry, p: Platform)
    requires r in c.taskEffectRecords && Unsafe(r) && Allowed(action, c, ctx, obs, conf, registry, p)
    ensures || action == AbandonAndRestart
            || (action == ResumeExact && r.taskId == c.activeTaskId && conf.Some? && Attests(conf.value, r, c, p))
            || (action == ReplayFromStage && r.taskId != c.activeTaskId)
  {
    hide Admissible, Positioned, ExactVersions, WorkflowMigratable, Attests;
    var records := c.taskEffectRecords;
    var j :| 0 <= j < |records| && records[j] == r;
    match action {
      case AbandonAndRestart =>
      case ReplayFromStage => assert r.taskId == c.activeTaskId ==> !BlocksReplay(records[j]);
      case ReplanFromCheckpoint => assert false;
      case ResumeExact =>
        assert EffectsSettled(c, conf, p);
        if conf.Some? {
          var i :| 0 <= i < |records| && OnlyUnsafe(records, i) && records[i].taskId == c.activeTaskId
                   && Attests(conf.value, records[i], c, p);
          assert i == j;
        } else {
          assert false;
        }
    }
  }

  /** Why a replay is left: it only looks at the effects of the active task. */
  lemma ReplayIgnoresOtherTasks(
    c: RunCheckpoint, r: TaskEffectRecord, ctx: ResumeContext, obs: seq<ExternalStateGuard>,
    conf: Option<NoEffectConfirmation>, registry: CompatibilityRegistry, p: Platform)
    requires r.taskId != c.activeTaskId
    ensures var fenced := c.(taskEffectRecords := c.taskEffectRecords + [r]);
            Allowed(ReplayFromStage, fenced, ctx, obs, conf, registry, p) <==> Allowed(ReplayFromStage, c, ctx, obs, conf, registry, p)
  {
    var fenced := c.(taskEffectRecords := c.taskEffectRecords + [r]);
    assert ReplaySafe(fenced) <==> ReplaySafe(c) by {
      assert forall i :: 0 <= i < |c.taskEffectRecords| ==> fenced.taskEffectRecords[i] == c.taskEffectRecords[i];
    }
    assert CommittedActiveTask(fenced) <==> CommittedActiveTask(c) by {
      assert forall i :: 0 <= i < |c.taskEffectRecords| ==> fenced.taskEffectRecords[i] == c.taskEffectRecords[i];
    }
  }

  lemma OnRecordMeaning(log: seq<RunCheckpoint>, run: string, workflow: string, r: TaskEffectRecord)
    requires OnRecord(log, run, workflow, r)
    ensures Chain(log, run, workflow) != [] && r in Latest(log, run, workflow).taskEffectRecords
  {
  }

  lemma EffectIsOfTask(c: RunCheckpoint, s: StageResult)
    ensures StageEffect(c, s).taskId == s.taskId
    ensures StageEffect(c, s).effectState == EffectStateForTask(s.taskVerb, s.success, s.metadata.sideEffectState)
  {
  }

  lemma ChangedByCommit(log: seq<RunCheckpoint>, current: Option<RunCheckpoint>, c: RunCheckpoint)
    requires WellBuilt(log) && Commit(log, current, c).log != log
    ensures Commit(log, current, c).log == log + [c]
    ensures Chain(log + [c], c.runId, c.workflowId) != [] && Latest(log + [c], c.runId, c.workflowId) == c
  {
    hide WellBuilt, Chain, Find, Digest, Fits, SaveOutcome;
    SaveKeepsWellBuilt(log, c);
    Appended(log, c, c.runId, c.workflowId, "");
  }

  lemma StageChild(c: RunCheckpoint, s: StageResult, failureId: string, id: string, at: string)
    requires ChildOf(c, StageStatus(s), id, at, StageChanges(c, s, failureId)).Success?
    ensures var child := ChildOf(c, StageStatus(s), id, at, StageChanges(c, s, failureId)).value;
            StageEffect(c, s) in child.taskEffectRecords && child.runId == c.runId && child.workflowId == c.workflowId
  {
    hide ChildOf, Freeze, NonBlank, StageEffect, StageStatus, WithoutTask, JsonFact, Distinct, Snapshots, IdempotencyKey;
    ChildFields(c, StageStatus(s), id, at, StageChanges(c, s, failureId));
  }

  /** A stage that was recorded is on record. */
  lemma StageIsOnRecord(log: seq<RunCheckpoint>, c: RunCheckpoint, op: Operation)
    requires WellBuilt(log) && op.RecordStage? && Perform(log, Some(c), op).log != log
    ensures OnRecord(Perform(log, Some(c), op).log, c.runId, c.workflowId, StageEffect(c, op.stageResult))
  {
    hide WellBuilt, Chain, ChildOf, StageChanges, StageEffect, StageStatus, Commit, Latest;
    var changes := StageChanges(c, op.stageResult, op.failureId);
    var child := ChildOf(c, StageStatus(op.stageResult), op.id, op.at, changes).value;
    StageChild(c, op.stageResult, op.failureId, op.id, op.at);
    ChangedByCommit(log, Some(c), child);
  }

  /**
   * Once a failed stage whose effect may have happened is recorded, then through any operations of any recorders
   * the newest checkpoint of that lineage keeps the record, and only those actions stay open, until a recorder
   * of the lineage records that task again.
   */
  lemma FailedEffectFencesRun(
    w: World, i: nat, op: Operation, acts: seq<Act>,
    action: ResumeAction, ctx: ResumeContext, obs: seq<ExternalStateGuard>,
    conf: Option<NoEffectConfirmation>, registry: CompatibilityRegistry, p: Platform)
    requires Sound(w) && i < |w.currents| && w.currents[i].Some? && op.RecordStage?
    requires var s := op.stageResult; !s.success && UnsafeState(EffectStateForTask(s.taskVerb, false, s.metadata.sideEffectState))
    requires AfterAct(w, Operate(i, op)).log != w.log
    requires var c := w.currents[i].value;
             NeverRecordedAgain(AfterAct(w, Operate(i, op)), acts, c.runId, c.workflowId, op.stageResult.taskId)
    ensures var c := w.currents[i].value;
            var r := StageEffect(c, op.stageResult);
            var log := AfterActs(AfterAct(w, Operate(i, op)), acts).log;
            && OnRecord(log, c.runId, c.workflowId, r)
            && var newest := Latest(log, c.runId, c.workflowId);
               Allowed(action, newest, ctx, obs, conf, registry, p) ==>
                 || action == AbandonAndRestart
                 || (action == ResumeExact && r.taskId == newest.activeTaskId && conf.Some? && Attests(conf.value, r, newest, p))
                 || (action == ReplayFromStage && r.taskId != newest.activeTaskId)
  {
    hide WellBuilt, LegalLog, OnRecord, Perform, StageEffect, Allowed, Attests, AfterActs, NeverRecordedAgain;
    var c := w.currents[i].value;
    var r := StageEffect(c, op.stageResult);
    var begun := AfterAct(w, Operate(i, op));
    ActKeepsSound(w, Operate(i, op));
    StageIsOnRecord(w.log, c, op);
    EffectIsOfTask(c, op.stageResult);
    RunKeepsRecord(begun, acts, c.runId, c.workflowId, r);
    var log := AfterActs(begun, acts).log;
    OnRecordMeaning(log, c.runId, c.workflowId, r);
    var newest := Latest(log, c.runId, c.workflowId);
    if Allowed(action, newest, ctx, obs, conf, registry, p) {
      UnsafeRecordFences(newest, r, action, ctx, obs, conf, registry, p);
    }
  }
}

/**
 * Many recorders over one store: what every interleaving of their saves keeps.
 */
module Protocol {
  import opened Text
  import opened PlanValues
  import opened Contracts
  import opened Lifecycle
  import opened Codec
  import opened Store
  import opened Recorder

  /** The unprotected fields that no recorder operation passes on changed. */
  predicate SameOrigin(a: RunCheckpoint, b: RunCheckpoint) {
    && a.createdAt == b.createdAt && a.schemaVersion == b.schemaVersion && a.contractVersion == b.contractVersion
    && a.activationAttemptId == b.activationAttemptId && a.supersedesRunId == b.supersedesRunId
    && a.externalStateGuards == b.externalStateGuards
  }

  /** A legal step that keeps the run's origin and only ever adds completed work and registered keys. */
  ghost predicate Grows(parent: RunCheckpoint, child: RunCheckpoint) {
    && LegalStep(parent, child)
    && Canonical(child)
    && SameOrigin(parent, child)
    && parent.completedStageIds <= child.completedStageIds
    && parent.completedTaskIds <= child.completedTaskIds
    && parent.idempotencyKeys <= child.idempotencyKeys
    && parent.invalidationReasons == child.invalidationReasons
  }

  ghost predicate Initial(c: RunCheckpoint) {
    WellFormed(c) && Canonical(c) && c.status == Created && c.sequenceNumber == 0
  }

  /** What a recorder holding `current` can try to save. */
  ghost predicate MayWrite(current: Option<RunCheckpoint>, c: RunCheckpoint) {
    match current
    case None => Initial(c)
    case Some(parent) => Grows(parent, c)
  }

  // Legal logs.

  ghost predicate LegalLog(log: seq<RunCheckpoint>) {
    log == [] || (LegalLog(log[..|log| - 1]) && LegalEntry(log[..|log| - 1], log[|log| - 1]))
  }

  ghost predicate LegalEntry(log: seq<RunCheckpoint>, c: RunCheckpoint) {
    var chain := Chain(log, c.runId, c.workflowId);
    if chain == [] then Initial(c) else Grows(chain[|chain| - 1], c)
  }

  /** One lineage read as a run: it starts CREATED and every next entry is a legal, growing step. */
  ghost predicate LegalHistory(h: seq<RunCheckpoint>) {
    h == [] || (LegalHistory(h[..|h| - 1]) && LegalNext(h[..|h| - 1], h[|h| - 1]))
  }

  ghost predicate LegalNext(h: seq<RunCheckpoint>, c: RunCheckpoint) {
    if h == [] then Initial(c) else Grows(h[|h| - 1], c)
  }

  lemma LegalHistorySnoc(h: seq<RunCheckpoint>, c: RunCheckpoint)
    requires LegalHistory(h) && LegalNext(h, c)
    ensures LegalHistory(h + [c])
  {
    hide Grows, Initial;
    assert (h + [c])[..|h|] == h;
  }

  /** The last entry of a legal log is the next of its own chain. */
  lemma LastIsNext(log: seq<RunCheckpoint>)
    requires LegalLog(log) && log != []
    ensures var front, last := log[..|log| - 1], log[|log| - 1];
            LegalLog(front) && LegalNext(Chain(front, last.runId, last.workflowId), last)
  {
    hide Grows, Initial, Chain;
  }

  lemma ChainOfLog(log: seq<RunCheckpoint>, run: string, workflow: string)
    ensures log == [] ==> Chain(log, run, workflow) == []
    ensures log != [] ==>
              var h, last := Chain(log[..|log| - 1], run, workflow), log[|log| - 1];
              Chain(log, run, workflow) == if last.runId == run && last.workflowId == workflow then h + [last] else h
  {
  }

  lemma EmptyIsLegal()
    ensures LegalHistory([])
  {
  }

  /** Every lineage of a legal log is a legal history. */
  lemma {:induction false} LegalLogMeaning(log: seq<RunCheckpoint>, run: string, workflow: string)
    requires LegalLog(log)
    ensures LegalHistory(Chain(log, run, workflow))
  {
    hide *;
    ChainOfLog(log, run, workflow);
    EmptyIsLegal();
    if log != [] {
      var front, last := log[..|log| - 1], log[|log| - 1];
      LastIsNext(log);
      LegalLogMeaning(front, run, workflow);
      if last.runId == run && last.workflowId == workflow {
        LegalHistorySnoc(Chain(front, run, workflow), last);
      }
    }
  }

  /** Neighbours in a legal history are a legal, growing step. */
  lemma {:induction false} HistoryStep(h: seq<RunCheckpoint>, i: nat)
    requires LegalHistory(h) && i + 1 < |h|
    ensures Grows(h[i], h[i + 1])
  {
    if i + 1 < |h| - 1 { HistoryStep(h[..|h| - 1], i); }
  }

  lemma {:induction false} HistoryBegins(h: seq<RunCheckpoint>)
    requires LegalHistory(h) && h != []
    ensures Initial(h[0])
  {
    if |h| > 1 { HistoryBegins(h[..|h| - 1]); }
  }

  /** What one checkpoint of a lineage tells about a later one: same identity, facts only added, terminal kept. */
  ghost predicate Carries(earlier: RunCheckpoint, later: RunCheckpoint) {
    && SameRun(earlier, later) && SameOrigin(earlier, later)
    && earlier.completedStageIds <= later.completedStageIds
    && earlier.completedTaskIds <= later.completedTaskIds
    && earlier.idempotencyKeys <= later.idempotencyKeys
    && (Terminal(earlier.status) ==> later.status == earlier.status)
    && (later.status == Created ==> earlier.status == Created)
  }

  lemma GrowsCarries(parent: RunCheckpoint, child: RunCheckpoint)
    requires Grows(parent, child)
    ensures Carries(parent, child)
  {
    TerminalMovesNowhere(parent.status, child.status);
  }

  lemma TerminalMovesNowhere(s: CheckpointStatus, t: CheckpointStatus)
    requires s == t || AllowedTransition(s, t)
    ensures Terminal(s) ==> t == s
    ensures t == Created ==> s == Created
  {
  }

  lemma StepCarries(h: seq<RunCheckpoint>, i: nat)
    requires LegalHistory(h) && i + 1 < |h|
    ensures Carries(h[i], h[i + 1])
  {
    HistoryStep(h, i);
    GrowsCarries(h[i], h[i + 1]);
  }

  lemma CarriesTransitive(a: RunCheckpoint, b: RunCheckpoint, c: RunCheckpoint)
    requires Carries(a, b) && Carries(b, c)
    ensures Carries(a, c)
  {
  }

  /** A history begins CREATED; over any stretch of it: one identity, growing facts, and a terminal status is never left. */
  lemma {:induction false} HistoryIsALegalRun(h: seq<RunCheckpoint>, i: nat, j: nat)
    requires LegalHistory(h) && i <= j < |h|
    ensures Initial(h[0]) && Carries(h[i], h[j])
    decreases j
  {
    hide Grows, LegalHistory;
    HistoryBegins(h);
    if i < j {
      HistoryIsALegalRun(h, i, j - 1);
      StepCarries(h, j - 1);
      CarriesTransitive(h[i], h[j - 1], h[j]);
    }
  }

  // Worlds: one log, and the possibly stale `current` of every recorder.

  datatype World = World(log: seq<RunCheckpoint>, currents: seq<Option<RunCheckpoint>>)

  function AfterSave(w: World, i: nat, c: RunCheckpoint): World
    requires i < |w.currents|
  {
    match SaveOutcome(w.log, c)
    case Success(stored) => World(LogAfter(w.log, c), w.currents[i := Some(stored)])
    case Failure(_) => w
  }

  function Rebound(w: World, i: nat, bound: Option<RunCheckpoint>): World
    requires i < |w.currents|
  {
    w.(currents := w.currents[i := bound])
  }

  /** Recorder `i` saves something it may write, or is replaced by a recorder bound to nothing or to a stored checkpoint. */
  ghost predicate Step(w: World, w': World) {
    || (exists i: nat, c | i < |w.currents| && MayWrite(w.currents[i], c) :: w' == AfterSave(w, i, c))
    || (exists i: nat, bound: Option<RunCheckpoint> | i < |w.currents| && Bound(w.log, bound) :: w' == Rebound(w, i, bound))
  }

  ghost predicate Bound(log: seq<RunCheckpoint>, current: Option<RunCheckpoint>) {
    current.Some? ==> current.value in log
  }

  ghost predicate Sound(w: World) {
    && WellBuilt(w.log) && LegalLog(w.log)
    && forall i :: 0 <= i < |w.currents| ==> Bound(w.log, w.currents[i])
  }

  ghost predicate IsRun(ws: seq<World>) {
    |ws| > 0 && Sound(ws[0]) && forall i :: 0 <= i < |ws| - 1 ==> Step(ws[i], ws[i + 1])
  }

  /** A stored parent whose child is accepted is the latest of its chain. */
  lemma AcceptedParentIsLatest(log: seq<RunCheckpoint>, parent: RunCheckpoint, c: RunCheckpoint)
    requires WellBuilt(log) && parent in log && Fits(log, c)
    requires c.parentCheckpointId == Some(parent.checkpointId) && c.runId == parent.runId && c.workflowId == parent.workflowId
    ensures var chain := Chain(log, c.runId, c.workflowId); chain != [] && chain[|chain| - 1] == parent
  {
    var chain := Chain(log, c.runId, c.workflowId);
    ChainMeaning(log, c.runId, c.workflowId);
    assert parent in chain;
    assert chain[|chain| - 1] in chain;
    StoredUnderId(log, parent);
    StoredUnderId(log, chain[|chain| - 1]);
  }

  lemma LegalAppend(log: seq<RunCheckpoint>, c: RunCheckpoint)
    requires LegalLog(log) && LegalEntry(log, c)
    ensures LegalLog(log + [c])
  {
    assert (log + [c])[..|log|] == log && (log + [c])[|log|] == c;
  }

  /** Saving what a bound recorder may write keeps the log well built and legal. */
  lemma WriteKeepsLegal(log: seq<RunCheckpoint>, current: Option<RunCheckpoint>, c: RunCheckpoint)
    requires WellBuilt(log) && LegalLog(log) && Bound(log, current) && MayWrite(current, c)
    ensures WellBuilt(LogAfter(log, c)) && LegalLog(LogAfter(log, c)) && log <= LogAfter(log, c)
    ensures SaveOutcome(log, c).Success? ==> SaveOutcome(log, c).value in LogAfter(log, c)
  {
    SaveKeepsWellBuilt(log, c);
    AcceptedIsStored(log, c);
    if Fits(log, c) {
      match current
      case Some(parent) =>
        AcceptedParentIsLatest(log, parent, c);
        LegalAppend(log, c);
      case None =>
        LegalAppend(log, c);
    }
  }

  lemma AcceptedIsStored(log: seq<RunCheckpoint>, c: RunCheckpoint)
    requires WellBuilt(log)
    ensures SaveOutcome(log, c).Success? ==> SaveOutcome(log, c).value in LogAfter(log, c)
  {
    SaveKeepsWellBuilt(log, c);
    FollowsMeaning(log, c);
    FindMeaning(log, c.checkpointId);
  }

  lemma SaveKeepsSound(w: World, i: nat, c: RunCheckpoint)
    requires Sound(w) && i < |w.currents| && MayWrite(w.currents[i], c)
    ensures Sound(AfterSave(w, i, c)) && w.log <= AfterSave(w, i, c).log
  {
    hide MayWrite, WellBuilt, LegalLog, Commit;
    assert Bound(w.log, w.currents[i]);
    WriteKeepsLegal(w.log, w.currents[i], c);
    var w' := AfterSave(w, i, c);
    forall k | 0 <= k < |w'.currents| ensures Bound(w'.log, w'.currents[k]) {
      assert Bound(w.log, w.currents[k]);
    }
  }

  /** Every step of every recorder keeps the world sound. */
  lemma StepKeepsSound(w: World, w': World)
    requires Sound(w) && Step(w, w')
    ensures Sound(w') && w.log <= w'.log
  {
    if i: nat, c :| i < |w.currents| && MayWrite(w.currents[i], c) && w' == AfterSave(w, i, c) {
      SaveKeepsSound(w, i, c);
    }
  }

  /**
   * Any number of recorders, any interleaving: the log only grows, every (run,
   * workflow) in it is one unforked chain, and that chain is a legal run.
   */
  lemma {:induction false} EveryRunStaysLinearAndLegal(ws: seq<World>, n: nat, run: string, workflow: string)
    requires IsRun(ws) && n < |ws|
    ensures Sound(ws[n]) && ws[0].log <= ws[n].log
    ensures UniqueIds(ws[n].log)
    ensures IsChain(Chain(ws[n].log, run, workflow)) && LegalHistory(Chain(ws[n].log, run, workflow))
    decreases n
  {
    if n > 0 {
      EveryRunStaysLinearAndLegal(ws, n - 1, run, workflow);
      assert Step(ws[n - 1], ws[n]);
      StepKeepsSound(ws[n - 1], ws[n]);
    }
    WellBuiltMeaning(ws[n].log);
    LegalLogMeaning(ws[n].log, run, workflow);
  }

  /**
   * A child of a stored checkpoint that is no longer the latest never changes the
   * log; it is refused unless that very document is already stored.
   */
  lemma StaleSaveChangesNothing(w: World, i: nat, c: RunCheckpoint)
    requires Sound(w) && i < |w.currents| && w.currents[i].Some? && LegalStep(w.currents[i].value, c)
    requires var chain := Chain(w.log, c.runId, c.workflowId); chain == [] || chain[|chain| - 1] != w.currents[i].value
    ensures AfterSave(w, i, c).log == w.log
    ensures SaveOutcome(w.log, c).Success? <==> exists e :: e in w.log && e.checkpointId == c.checkpointId && Digest(e) == Digest(c)
    ensures SaveOutcome(w.log, c).Failure? ==> AfterSave(w, i, c) == w
  {
    hide WellBuilt, LegalLog, Chain, Find, Digest, IsChain;
    assert Bound(w.log, w.currents[i]);
    if Fits(w.log, c) { AcceptedParentIsLatest(w.log, w.currents[i].value, c); }
    SaveKeepsWellBuilt(w.log, c);
    FollowsMeaning(w.log, c);
    FindMeaning(w.log, c.checkpointId);
    SaveAccepts(w.log, c);
    WellBuiltIsChain(w.log, c.runId, c.workflowId);
    ChainExtends(Chain(w.log, c.runId, c.workflowId), c);
  }

  // Every recorder operation writes only what `MayWrite` allows.

  /** Changes that keep facts, over a checkpoint the recorder built. */
  ghost predicate Monotone(c: RunCheckpoint, changes: Changes) {
    && (changes.executionPlan.Some? ==> changes.executionPlan.value.Dict? && IsJson(changes.executionPlan.value))
    && (changes.artifacts.Some? ==> CanonicalArtifacts(changes.artifacts.value))
    && (changes.completedStageIds.Some? ==> ExtendsByOne(c.completedStageIds, changes.completedStageIds.value))
    && (changes.completedTaskIds.Some? ==> ExtendsByOne(c.completedTaskIds, changes.completedTaskIds.value))
    && (changes.idempotencyKeys.Some? ==> ExtendsByOne(c.idempotencyKeys, changes.idempotencyKeys.value))
    && (changes.invalidationReasons.Some? ==> changes.invalidationReasons.value == c.invalidationReasons)
    && KeepsOrigin(changes)
  }

  predicate KeepsOrigin(changes: Changes) {
    && changes.activationAttemptId == None && changes.externalStateGuards == None && changes.schemaVersion == None
    && changes.contractVersion == None && changes.createdAt == None && changes.supersedesRunId == None
  }

  ghost predicate ExtendsByOne(before: seq<string>, after: seq<string>) {
    after == before || (exists x :: x !in before && after == before + [x])
  }

  lemma NonBlankExtends(before: seq<string>, after: seq<string>)
    requires NoneBlank(before) && NoDuplicates(before) && ExtendsByOne(before, after)
    ensures ExtendsByOne(before, NonBlank(after))
  {
    NonBlankMeaning(before);
    if after != before {
      var x :| x !in before && after == before + [x];
      NonBlankAppend(before, x);
      assert before + [] == before;
    }
  }

  lemma ExtensionMeaning(before: seq<string>, after: seq<string>)
    requires NoDuplicates(before) && ExtendsByOne(before, after)
    ensures before <= after && NoDuplicates(after)
  {
  }

  /** The built child's fields: the raw ones, with the lists cleaned and the plan frozen. */
  lemma ChildFields(c: RunCheckpoint, status: CheckpointStatus, id: string, at: string, changes: Changes)
    requires ChildOf(c, status, id, at, changes).Success?
    ensures var raw := RawChild(c, status, id, at, changes);
            Freeze(raw.executionPlan).Some? && ChildOf(c, status, id, at, changes).value == Normalise(raw, Freeze(raw.executionPlan).value)
  {
  }

  lemma ListGrows(before: seq<string>, change: Option<seq<string>>)
    requires NoneBlank(before) && NoDuplicates(before)
    requires change.Some? ==> ExtendsByOne(before, change.value)
    ensures ExtendsByOne(before, NonBlank(change.GetOr(before)))
    ensures before <= NonBlank(change.GetOr(before)) && NoDuplicates(NonBlank(change.GetOr(before)))
  {
    NonBlankExtends(before, change.GetOr(before));
    ExtensionMeaning(before, NonBlank(change.GetOr(before)));
  }

  lemma PlanStaysCanonical(plan: Value, change: Option<Value>)
    requires IsFrozen(plan) && !HasFrozenSet(plan)
    requires change.Some? ==> change.value.Dict? && IsJson(change.value)
    ensures Freeze(change.GetOr(plan)).Some? && !HasFrozenSet(Freeze(change.GetOr(plan)).value)
  {
    if change.Some? { ThawUndoesFreeze(change.value); } else { Refreeze(plan); }
  }

  /** A derived child is well formed, grows from its parent, and is canonical whenever the change is monotone. */
  lemma ChildGrows(c: RunCheckpoint, status: CheckpointStatus, id: string, at: string, changes: Changes)
    requires WellFormed(c) && Canonical(c) && Monotone(c, changes)
    requires ChildOf(c, status, id, at, changes).Success?
    ensures Grows(c, ChildOf(c, status, id, at, changes).value)
  {
    var child := ChildOf(c, status, id, at, changes).value;
    assert LegalStep(c, child) by { DeriveIsLegal(c, status, id, at, changes); }
    ChildFields(c, status, id, at, changes);
    ListGrows(c.completedStageIds, changes.completedStageIds);
    ListGrows(c.completedTaskIds, changes.completedTaskIds);
    ListGrows(c.idempotencyKeys, changes.idempotencyKeys);
    NonBlankMeaning(c.invalidationReasons);
    PlanStaysCanonical(c.executionPlan, changes.executionPlan);
  }

  /** Keys are never blank, so they are always registered. */
  lemma KeyNotBlank(run: string, task: string)
    ensures !IsBlank(IdempotencyKey(run, task))
  {
    assert IdempotencyKey(run, task)[|run|] == ':';
  }

  lemma DistinctExtends(before: seq<string>, x: string)
    requires NoDuplicates(before)
    ensures ExtendsByOne(before, Distinct(before + [x])) && x in Distinct(before + [x])
  {
    DistinctAppend(before, x);
  }

  lemma StageChangesMonotone(c: RunCheckpoint, s: StageResult, failureId: string)
    requires WellFormed(c)
    ensures Monotone(c, StageChanges(c, s, failureId))
  {
    JsonFactMeaning(Dict(s.executionPlan));
    SnapshotsCanonical(s.artifacts);
    DistinctExtends(c.completedStageIds, s.stageId);
    DistinctExtends(c.completedTaskIds, s.taskId);
    DistinctExtends(c.idempotencyKeys, IdempotencyKey(c.runId, s.taskId));
  }

  lemma {:induction false} WithoutTaskMeaning(records: seq<TaskEffectRecord>, task: string)
    ensures forall r :: r in WithoutTask(records, task) <==> r in records && r.taskId != task
    ensures DistinctTasks(records) ==> DistinctTasks(WithoutTask(records, task))
  {
    if records != [] {
      WithoutTaskMeaning(records[1..], task);
      assert records == [records[0]] + records[1..];
      var rest := WithoutTask(records[1..], task);
      if DistinctTasks(records) {
        assert DistinctTasks(records[1..]);
        forall i | 0 <= i < |rest| ensures rest[i].taskId != records[0].taskId {
          assert rest[i] in records[1..];
        }
      }
    }
  }

  ghost predicate DistinctTasks(records: seq<TaskEffectRecord>) {
    forall i, j :: 0 <= i < j < |records| ==> records[i].taskId != records[j].taskId
  }

  lemma DistinctTasksMeaning(records: seq<TaskEffectRecord>)
    ensures NoDuplicates(EffectTaskIds(records)) <==> DistinctTasks(records)
  {
    var ids := EffectTaskIds(records);
    assert |ids| == |records| && forall i :: 0 <= i < |ids| ==> ids[i] == records[i].taskId;
    if NoDuplicates(ids) {
      forall i, j | 0 <= i < j < |records| ensures records[i].taskId != records[j].taskId { assert ids[i] != ids[j]; }
    }
  }

  /** Replacing a task's record by a new one, and registering its key, keeps the effect records valid. */
  lemma EffectReplaced(records: seq<TaskEffectRecord>, keys: seq<string>, effect: TaskEffectRecord)
    requires DistinctTasks(records) && EffectKeysRegistered(records, keys)
    ensures var all := WithoutTask(records, effect.taskId) + [effect];
            DistinctTasks(all) && forall keys' | keys <= keys' && effect.idempotencyKey in keys' :: EffectKeysRegistered(all, keys')
  {
    var kept := WithoutTask(records, effect.taskId);
    WithoutTaskMeaning(records, effect.taskId);
    forall i | 0 <= i < |kept| ensures kept[i].taskId != effect.taskId && (kept[i].idempotencyKey != "" ==> kept[i].idempotencyKey in keys) {
      assert kept[i] in kept;
    }
  }

  /** Recording a stage keeps the effect records valid: one per task, every key registered. */
  lemma StageEffectsWellFormed(c: RunCheckpoint, s: StageResult)
    requires WellFormed(c)
    ensures var all := WithoutTask(c.taskEffectRecords, s.taskId) + [StageEffect(c, s)];
            var keys := Distinct(c.idempotencyKeys + [IdempotencyKey(c.runId, s.taskId)]);
            NoDuplicates(EffectTaskIds(all)) && NonBlank(keys) == keys && EffectKeysRegistered(all, keys)
  {
    var key := IdempotencyKey(c.runId, s.taskId);
    KeyNotBlank(c.runId, s.taskId);
    DistinctAppend(c.idempotencyKeys, key);
    var keys := Distinct(c.idempotencyKeys + [key]);
    NonBlankMeaning(c.idempotencyKeys);
    NonBlankAppend(c.idempotencyKeys, key);
    DistinctTasksMeaning(c.taskEffectRecords);
    EffectReplaced(c.taskEffectRecords, c.idempotencyKeys, StageEffect(c, s));
    DistinctTasksMeaning(WithoutTask(c.taskEffectRecords, s.taskId) + [StageEffect(c, s)]);
    assert c.idempotencyKeys <= keys && key in keys;
  }

  lemma StageListsAreValid(c: RunCheckpoint, s: StageResult, failureId: string, id: string, at: string)
    requires WellFormed(c)
    ensures var raw := RawChild(c, StageStatus(s), id, at, StageChanges(c, s, failureId));
            raw.executionPlan.Dict? && Freeze(raw.executionPlan).Some?
            && ListFault(Normalise(raw, Freeze(raw.executionPlan).value)).None?
  {
    var changes := StageChanges(c, s, failureId);
    StageEffectsWellFormed(c, s);
    DistinctExtends(c.completedStageIds, s.stageId);
    DistinctExtends(c.completedTaskIds, s.taskId);
    DistinctExtends(c.idempotencyKeys, IdempotencyKey(c.runId, s.taskId));
    ListGrows(c.completedStageIds, changes.completedStageIds);
    ListGrows(c.completedTaskIds, changes.completedTaskIds);
    ListGrows(c.idempotencyKeys, changes.idempotencyKeys);
    JsonFactMeaning(Dict(s.executionPlan));
    ThawUndoesFreeze(JsonFact(Dict(s.executionPlan)));
  }

  lemma ChildLineageIsValid(c: RunCheckpoint, status: CheckpointStatus, id: string, at: string, changes: Changes)
    requires LineageWellFormed(c) && !IsBlank(id) && id != c.checkpointId
    ensures Contracts.LineageFault(RawChild(c, status, id, at, changes)).None?
  {
  }

  /**
   * `record_stage` always re-establishes the constructor's invariants: it fails only
   * for an undeclared transition, a blank id, or the parent's own id.
   */
  lemma RecordStageSucceedsWhen(c: RunCheckpoint, s: StageResult, failureId: string, id: string, at: string)
    requires WellFormed(c)
    ensures ChildOf(c, StageStatus(s), id, at, StageChanges(c, s, failureId)).Success? <==>
            && (StageStatus(s) == c.status || AllowedTransition(c.status, StageStatus(s)))
            && !IsBlank(id) && id != c.checkpointId
  {
    hide StageChanges, RawChild, StageStatus, Normalise, ListFault;
    StageListsAreValid(c, s, failureId, id, at);
    if !IsBlank(id) && id != c.checkpointId {
      ChildLineageIsValid(c, StageStatus(s), id, at, StageChanges(c, s, failureId));
    }
  }

  /** Resuming, waiting, suspending and completing change facts only by addition. */
  lemma OtherChangesMonotone(c: RunCheckpoint, d: ResumeDecision)
    ensures Monotone(c, NO_CHANGES) && Monotone(c, ResumeChanges(c, d))
    ensures Monotone(c, NO_CHANGES.(runtimeEvidence := Some(MergedEvidence(c, d))))
  {
  }

  lemma EndingChangesMonotone(c: RunCheckpoint, reason: string, artifacts: seq<LiveArtifact>, summary: string)
    ensures Monotone(c, SuspendChanges(c, reason)) && Monotone(c, CompleteChanges(c, artifacts, summary))
  {
    SnapshotsCanonical(artifacts);
  }

  /** A transition with monotone changes is one save the protocol allows, or no effect at all. */
  lemma TransitionIsAWrite(
    log: seq<RunCheckpoint>, current: Option<RunCheckpoint>,
    c: RunCheckpoint, status: CheckpointStatus, id: string, at: string, changes: Changes)
    requires WellFormed(c) && Canonical(c) && Monotone(c, changes)
    ensures var o := Transition(log, current, c, status, id, at, changes);
            || (o.log == log && o.current == current && o.result.Failure?)
            || (exists child :: MayWrite(Some(c), child) && o == Commit(log, current, child))
  {
    if ChildOf(c, status, id, at, changes).Success? {
      ChildGrows(c, status, id, at, changes);
      assert MayWrite(Some(c), ChildOf(c, status, id, at, changes).value);
    }
  }

  /** What `start` saves first is a legal beginning. */
  lemma StartIsInitial(
    q: Request, workflowId: string, workflowVersion: string, stage: string, task: string,
    plan: map<string, Value>, target: string, attempt: string, id: string, createdAt: string, updatedAt: string)
    ensures var raw := InitialCheckpoint(q, workflowId, workflowVersion, stage, task, plan, target, attempt, id, createdAt, updatedAt);
            Construct(raw).Success? ==> MayWrite(None, Construct(raw).value)
  {
    var raw := InitialCheckpoint(q, workflowId, workflowVersion, stage, task, plan, target, attempt, id, createdAt, updatedAt);
    if Construct(raw).Success? {
      ConstructAccepts(raw);
      JsonFactMeaning(Dict(plan));
      ThawUndoesFreeze(JsonFact(Dict(plan)));
    }
  }
}

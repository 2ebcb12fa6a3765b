/** Which checkpoints a recorder may be handed: exactly when everything it then does stays legal. */
module Binding {
  import opened Text
  import opened PlanValues
  import opened Contracts
  import opened Lifecycle
  import opened Codec
  import opened Store
  import opened Recorder
  import opened Protocol
  import opened ResumeSafety
  import opened Operations

  /** The statuses the recorder's operations write onto a current checkpoint of this status. */
  function Writes(s: CheckpointStatus): set<CheckpointStatus> {
    match s
    case Created => {Running}
    case Running => {Running, Suspended, WaitingUser, FailedRecoverable, Completed}
    case Suspended => {Suspended, Running, WaitingUser}
    case WaitingUser => {WaitingUser, Suspended}
    case FailedRecoverable => {FailedRecoverable, WaitingUser, Suspended}
    case Completed => {Completed}
    case FailedTerminal => {}
    case Cancelled => {}
  }

  /** The statuses a legal child may have. */
  function NextStatuses(s: CheckpointStatus): set<CheckpointStatus> {
    AllowedTransitions(s) + {s}
  }

  /**
   * `given` may stand in for the stored checkpoint: nothing is written from it at all; or it is of the same
   * run and origin, forgets no completed work or key, has the same invalidation reasons, and what is
   * written from it may follow the stored status.
   */
  predicate StandsIn(stored: RunCheckpoint, given: RunCheckpoint) {
    Writes(given.status) != {} ==>
      && SameRun(stored, given) && SameOrigin(stored, given)
      && stored.completedStageIds <= given.completedStageIds
      && stored.completedTaskIds <= given.completedTaskIds
      && stored.idempotencyKeys <= given.idempotencyKeys
      && stored.invalidationReasons == given.invalidationReasons
      && Writes(given.status) <= NextStatuses(stored.status)
  }

  /** The store takes `given` for the latest of its lineage: it only looks at id and sequence. */
  predicate TakenForLatest(log: seq<RunCheckpoint>, given: RunCheckpoint) {
    var chain := Chain(log, given.runId, given.workflowId);
    chain != [] && chain[|chain| - 1].checkpointId == given.checkpointId && chain[|chain| - 1].sequenceNumber == given.sequenceNumber
  }

  /** The store does not take `given` for the latest of its lineage, or it may stand in for that one. */
  predicate MayBeHanded(log: seq<RunCheckpoint>, given: RunCheckpoint) {
    var chain := Chain(log, given.runId, given.workflowId);
    TakenForLatest(log, given) ==> StandsIn(chain[|chain| - 1], given)
  }

  /** The world of one recorder that was handed `given`. */
  function Handed(log: seq<RunCheckpoint>, given: RunCheckpoint): World { World(log, [Some(given)]) }

  /** Whatever that recorder goes on to do, the log stays legal. */
  ghost predicate OperatesLegally(log: seq<RunCheckpoint>, given: RunCheckpoint) {
    forall acts :: LegalLog(AfterActs(Handed(log, given), acts).log)
  }

  // A checkpoint that may be handed over keeps every history legal.

  /** The recorder's own target statuses are legal exactly where `Writes` lists them. */
  lemma WritesMeaning(s: CheckpointStatus, t: CheckpointStatus)
    ensures t in Writes(s) <==>
            t in {Running, Suspended, WaitingUser, FailedRecoverable, Completed} && (t == s || AllowedTransition(s, t))
  {
  }

  lemma StandInGrows(stored: RunCheckpoint, given: RunCheckpoint, child: RunCheckpoint)
    requires StandsIn(stored, given) && Grows(given, child) && child.status in Writes(given.status)
    requires stored.checkpointId == given.checkpointId && stored.sequenceNumber == given.sequenceNumber
    ensures Grows(stored, child)
  {
  }

  /** A child that fits was derived from what the store takes for the latest. */
  lemma FittingChildHasLatestParent(log: seq<RunCheckpoint>, given: RunCheckpoint, child: RunCheckpoint)
    requires WellBuilt(log) && Fits(log, child)
    requires child.parentCheckpointId == Some(given.checkpointId) && child.sequenceNumber == given.sequenceNumber + 1
    requires child.runId == given.runId && child.workflowId == given.workflowId
    ensures TakenForLatest(log, given)
  {
    var chain := Chain(log, given.runId, given.workflowId);
    WellBuiltIsChain(log, given.runId, given.workflowId);
    if chain != [] { ChainPositions(chain, |chain| - 1); }
  }

  lemma StandInWritesLegally(log: seq<RunCheckpoint>, given: RunCheckpoint, child: RunCheckpoint)
    requires WellBuilt(log) && LegalLog(log) && MayBeHanded(log, given)
    requires Grows(given, child) && child.status in Writes(given.status)
    ensures StaysLegal(log, Commit(log, Some(given), child)) || Unmoved(log, given, Commit(log, Some(given), child))
  {
    hide WellFormed, Canonical, Writes, Chain, WellBuilt, Find, Digest;
    SaveKeepsWellBuilt(log, child);
    AcceptedIsStored(log, child);
    if Fits(log, child) {
      var chain := Chain(log, given.runId, given.workflowId);
      FittingChildHasLatestParent(log, given, child);
      StandInGrows(chain[|chain| - 1], given, child);
      LegalAppend(log, child);
    }
  }

  /** The operation failed and had no effect. */
  predicate Unmoved(log: seq<RunCheckpoint>, given: RunCheckpoint, o: Outcome) {
    o.log == log && o.current == Some(given) && o.result.Failure?
  }

  ghost predicate Harmless(log: seq<RunCheckpoint>, given: RunCheckpoint, o: Outcome) {
    Unmoved(log, given, o) || (StaysLegal(log, o) && (o.result.Success? ==> o.current == Some(o.result.value)))
  }

  lemma TransitionIsHarmless(
    log: seq<RunCheckpoint>, given: RunCheckpoint, status: CheckpointStatus, id: string, at: string, changes: Changes)
    requires WellBuilt(log) && LegalLog(log) && WellFormed(given) && Canonical(given) && MayBeHanded(log, given)
    requires Monotone(given, changes) && status in {Running, Suspended, WaitingUser, FailedRecoverable, Completed}
    ensures Harmless(log, given, Transition(log, Some(given), given, status, id, at, changes))
  {
    hide WellFormed, Canonical, MayBeHanded, Grows, WellBuilt, LegalLog, Writes, Monotone, SaveOutcome, LogAfter;
    if ChildOf(given, status, id, at, changes).Success? {
      ChildGrows(given, status, id, at, changes);
      ChildFields(given, status, id, at, changes);
      WritesMeaning(given.status, status);
      StandInWritesLegally(log, given, ChildOf(given, status, id, at, changes).value);
    }
  }

  lemma ResumeIsHarmless(
    log: seq<RunCheckpoint>, given: RunCheckpoint, d: ResumeDecision, ids: (string, string), times: (string, string))
    requires WellBuilt(log) && LegalLog(log) && WellFormed(given) && Canonical(given) && MayBeHanded(log, given)
    ensures Harmless(log, given, ResumeOutcome(log, Some(given), d, ids, times))
  {
    hide WellFormed, Canonical, MayBeHanded, WellBuilt, LegalLog, Transition, IsWrite, Monotone, MergedEvidence;
    OtherChangesMonotone(given, d);
    TransitionIsHarmless(log, given, Running, ids.1, times.1, ResumeChanges(given, d));
    var notes := NO_CHANGES.(runtimeEvidence := Some(MergedEvidence(given, d)));
    TransitionIsHarmless(log, given, Suspended, ids.0, times.0, notes);
    var half := Transition(log, Some(given), given, Suspended, ids.0, times.0, notes);
    if PassesThroughSuspended(given.status) && half.result.Success? {
      ResumeRunningIsWrite(half.log, half.result.value, d, ids.1, times.1);
      WriteIsLegal(half.log, half.current, ResumeRunning(half.log, half.current, half.result.value, d, ids.1, times.1));
    }
  }

  lemma OperationIsHarmless(log: seq<RunCheckpoint>, given: RunCheckpoint, op: Operation)
    requires WellBuilt(log) && LegalLog(log) && WellFormed(given) && Canonical(given) && MayBeHanded(log, given)
    ensures Harmless(log, given, Perform(log, Some(given), op))
  {
    hide WellFormed, Canonical, MayBeHanded, WellBuilt, LegalLog, Transition, Monotone, ResumeOutcome, FirstCheckpoint;
    hide MergedEvidence, StageChanges, StageStatus, SuspendChanges, CompleteChanges;
    match op {
      case StartRun(_, _, _, _, _, _, _, _, _, _) =>
      case ResumeRun(d, ids, times) => ResumeIsHarmless(log, given, d, ids, times);
      case Clarify(d, id, at) =>
        OtherChangesMonotone(given, d);
        TransitionIsHarmless(
          log, given, WaitingUser, id, at, NO_CHANGES.(runtimeEvidence := Some(MergedEvidence(given, d))));
      case RecordStage(s, failureId, id, at) =>
        StageChangesMonotone(given, s, failureId);
        StageTargets(s);
        TransitionIsHarmless(log, given, StageStatus(s), id, at, StageChanges(given, s, failureId));
      case SuspendRun(reason, id, at) =>
        EndingChangesMonotone(given, reason, [], "");
        TransitionIsHarmless(log, given, Suspended, id, at, SuspendChanges(given, reason));
      case CompleteRun(artifacts, summary, id, at) =>
        EndingChangesMonotone(given, "", artifacts, summary);
        TransitionIsHarmless(log, given, Completed, id, at, CompleteChanges(given, artifacts, summary));
    }
  }

  lemma StageTargets(s: StageResult)
    ensures StageStatus(s) in {Running, WaitingUser, FailedRecoverable}
  {
  }

  /** Until its first success the recorder still holds `given` over the same log; from then on the world is sound. */
  lemma {:induction false} HandedRun(log: seq<RunCheckpoint>, given: RunCheckpoint, acts: seq<Act>)
    requires WellBuilt(log) && LegalLog(log) && WellFormed(given) && Canonical(given) && MayBeHanded(log, given)
    ensures AfterActs(Handed(log, given), acts) == Handed(log, given) || Sound(AfterActs(Handed(log, given), acts))
  {
    hide WellFormed, Canonical, MayBeHanded, WellBuilt, LegalLog, Perform, Find;
    if acts != [] {
      var before, act := AfterActs(Handed(log, given), acts[..|acts| - 1]), acts[|acts| - 1];
      HandedRun(log, given, acts[..|acts| - 1]);
      if Sound(before) {
        ActKeepsSound(before, act);
      } else if act.i == 0 {
        match act
        case Operate(_, op) => OperationIsHarmless(log, given, op);
        case Bind(_, id) => FindMeaning(log, id);
      }
    }
  }

  // The converse: from a checkpoint that may not stand in, some operation breaks a history.

  function Longest(texts: seq<string>): nat {
    if texts == [] then 0
    else
      var before, last := Longest(texts[..|texts| - 1]), |texts[|texts| - 1]|;
      if before < last then last else before
  }

  /** A text longer than all of these. */
  function NewText(texts: seq<string>): string { seq(Longest(texts) + 1, _ => 'x') }

  lemma {:induction false} LongestMeaning(texts: seq<string>, i: nat)
    requires i < |texts|
    ensures |texts[i]| <= Longest(texts)
  {
    if i < |texts| - 1 { LongestMeaning(texts[..|texts| - 1], i); }
  }

  lemma NewTextIsLonger(texts: seq<string>)
    ensures !IsBlank(NewText(texts)) && forall t :: t in texts ==> |t| < |NewText(texts)|
  {
    forall t | t in texts ensures |t| < |NewText(texts)| {
      var i :| 0 <= i < |texts| && texts[i] == t;
      LongestMeaning(texts, i);
    }
    assert !IsSpace(NewText(texts)[0]);
  }

  function NewId(log: seq<RunCheckpoint>): string { NewText(Ids(log)) }

  lemma NewIdIsNew(log: seq<RunCheckpoint>)
    ensures Fresh(log, NewId(log)) && forall c :: c in log ==> c.checkpointId != NewId(log)
  {
    hide NewText;
    NewTextIsLonger(Ids(log));
    forall i | 0 <= i < |log| ensures log[i].checkpointId != NewId(log) {
      assert Ids(log)[i] in Ids(log);
    }
    FindMeaning(log, NewId(log));
  }

  /** A stage and task neither checkpoint has heard of. */
  function NewName(a: RunCheckpoint, b: RunCheckpoint): string {
    NewText(a.completedStageIds + a.completedTaskIds + a.idempotencyKeys
            + b.completedStageIds + b.completedTaskIds + b.idempotencyKeys)
  }

  /** The name, and the key of the task it names, are in none of the checkpoint's lists. */
  predicate Unheard(c: RunCheckpoint, run: string, x: string) {
    x !in c.completedStageIds && x !in c.completedTaskIds && IdempotencyKey(run, x) !in c.idempotencyKeys
  }

  lemma NewNameIsUnheard(a: RunCheckpoint, b: RunCheckpoint, run: string)
    ensures !IsBlank(NewName(a, b)) && Unheard(a, run, NewName(a, b)) && Unheard(b, run, NewName(a, b))
  {
    hide NewText;
    var x := NewName(a, b);
    NewTextIsLonger(a.completedStageIds + a.completedTaskIds + a.idempotencyKeys
                    + b.completedStageIds + b.completedTaskIds + b.idempotencyKeys);
    assert |IdempotencyKey(run, x)| > |x|;
  }

  function ProbeStage(x: string, success: bool, effect: Option<string>): StageResult {
    StageResult(x, x, map[], success, "", StageMetadata("", effect, "", ""), "", "", "", [], "")
  }

  /** An operation that writes this status. */
  function Probe(t: CheckpointStatus, id: string, x: string): Operation {
    match t
    case Suspended => SuspendRun("", id, "")
    case Completed => CompleteRun([], "", id, "")
    case WaitingUser => RecordStage(ProbeStage(x, false, Some("UNKNOWN")), "", id, "")
    case FailedRecoverable => RecordStage(ProbeStage(x, false, None), "", id, "")
    case _ => RecordStage(ProbeStage(x, true, None), "", id, "")
  }

  function ProbeChanges(given: RunCheckpoint, op: Operation): Changes {
    match op
    case SuspendRun(reason, _, _) => SuspendChanges(given, reason)
    case CompleteRun(artifacts, summary, _, _) => CompleteChanges(given, artifacts, summary)
    case RecordStage(s, failureId, _, _) => StageChanges(given, s, failureId)
    case _ => NO_CHANGES
  }

  lemma ProbePerforms(log: seq<RunCheckpoint>, given: RunCheckpoint, t: CheckpointStatus, id: string, x: string)
    requires t in Writes(given.status)
    ensures Perform(log, Some(given), Probe(t, id, x)) ==
            Transition(log, Some(given), given, t, id, "", ProbeChanges(given, Probe(t, id, x)))
  {
    hide Transition, StageChanges, SuspendChanges, CompleteChanges;
    WritesMeaning(given.status, t);
    ProbeStatus(x);
  }

  lemma ProbeStatus(x: string)
    ensures StageStatus(ProbeStage(x, true, None)) == Running
    ensures StageStatus(ProbeStage(x, false, Some("UNKNOWN"))) == WaitingUser
    ensures StageStatus(ProbeStage(x, false, None)) == FailedRecoverable
  {
    assert Lower("") == "";
  }

  /** Ending a run derives a child whose lists are the parent's. */
  lemma EndingIsBuilt(c: RunCheckpoint, status: CheckpointStatus, id: string, changes: Changes)
    requires WellFormed(c) && Canonical(c) && (status == c.status || AllowedTransition(c.status, status))
    requires changes == SuspendChanges(c, "") || changes == CompleteChanges(c, [], "")
    requires !IsBlank(id) && id != c.checkpointId
    ensures ChildOf(c, status, id, "", changes) == Success(RawChild(c, status, id, "", changes))
  {
    var raw := RawChild(c, status, id, "", changes);
    ChildLineageIsValid(c, status, id, "", changes);
    LineageFaultMeaning(raw);
    assert WellFormed(raw);
    ConstructKeeps(raw);
  }

  lemma ProbeIsBuilt(given: RunCheckpoint, t: CheckpointStatus, id: string, x: string)
    requires WellFormed(given) && Canonical(given) && t in Writes(given.status)
    requires !IsBlank(id) && id != given.checkpointId
    ensures ChildOf(given, t, id, "", ProbeChanges(given, Probe(t, id, x))).Success?
  {
    hide WellFormed, Canonical, ChildOf, StageChanges, SuspendChanges, CompleteChanges, StageStatus;
    WritesMeaning(given.status, t);
    ProbeStatus(x);
    match t
    case Suspended => EndingIsBuilt(given, t, id, SuspendChanges(given, ""));
    case Completed => EndingIsBuilt(given, t, id, CompleteChanges(given, [], ""));
    case WaitingUser => RecordStageSucceedsWhen(given, ProbeStage(x, false, Some("UNKNOWN")), "", id, "");
    case FailedRecoverable => RecordStageSucceedsWhen(given, ProbeStage(x, false, None), "", id, "");
    case _ => RecordStageSucceedsWhen(given, ProbeStage(x, true, None), "", id, "");
  }

  lemma ProbeIsMonotone(given: RunCheckpoint, t: CheckpointStatus, id: string, x: string)
    requires WellFormed(given)
    ensures Monotone(given, ProbeChanges(given, Probe(t, id, x)))
  {
    hide WellFormed, Monotone, StageChanges, SuspendChanges, CompleteChanges;
    EndingChangesMonotone(given, "", [], "");
    StageChangesMonotone(given, ProbeStage(x, true, None), "");
    StageChangesMonotone(given, ProbeStage(x, false, None), "");
    StageChangesMonotone(given, ProbeStage(x, false, Some("UNKNOWN")), "");
  }

  /** The list, or the list and one more name. */
  predicate AtMost(before: seq<string>, after: seq<string>, x: string) {
    after == before || after == before + [x]
  }

  lemma CleanedAtMost(before: seq<string>, x: string)
    requires NoneBlank(before) && NoDuplicates(before) && x !in before && !IsBlank(x)
    ensures AtMost(before, NonBlank(before), x) && AtMost(before, NonBlank(Distinct(before + [x])), x)
  {
    DistinctAppend(before, x);
    NonBlankMeaning(before);
    NonBlankAppend(before, x);
  }

  /** The probe adds no more to the lists than its own names. */
  lemma ProbeAddsOwnNames(given: RunCheckpoint, t: CheckpointStatus, id: string, x: string)
    requires WellFormed(given) && !IsBlank(x) && Unheard(given, given.runId, x)
    requires ChildOf(given, t, id, "", ProbeChanges(given, Probe(t, id, x))).Success?
    ensures var child := ChildOf(given, t, id, "", ProbeChanges(given, Probe(t, id, x))).value;
            && AtMost(given.completedStageIds, child.completedStageIds, x)
            && AtMost(given.completedTaskIds, child.completedTaskIds, x)
            && AtMost(given.idempotencyKeys, child.idempotencyKeys, IdempotencyKey(given.runId, x))
  {
    hide AtMost, Freeze, JsonFact, Distinct, IsBlank, NonBlank, ChildOf, IdempotencyKey;
    KeyNotBlank(given.runId, x);
    ChildFields(given, t, id, "", ProbeChanges(given, Probe(t, id, x)));
    CleanedAtMost(given.completedStageIds, x);
    CleanedAtMost(given.completedTaskIds, x);
    CleanedAtMost(given.idempotencyKeys, IdempotencyKey(given.runId, x));
  }

  /** What a legal child with no more than new names in its lists says about its parent's stand-in. */
  lemma GrowsReadOff(stored: RunCheckpoint, given: RunCheckpoint, child: RunCheckpoint, x: string)
    requires Grows(stored, child) && Grows(given, child) && Unheard(stored, given.runId, x)
    requires AtMost(given.completedStageIds, child.completedStageIds, x)
    requires AtMost(given.completedTaskIds, child.completedTaskIds, x)
    requires AtMost(given.idempotencyKeys, child.idempotencyKeys, IdempotencyKey(given.runId, x))
    ensures child.status in NextStatuses(stored.status)
    ensures StandsIn(stored, given) <==> Writes(given.status) <= NextStatuses(stored.status)
  {
    hide WellFormed, Canonical, IdempotencyKey, Writes, AllowedTransitions, AtMost;
    PrefixDrops(stored.completedStageIds, given.completedStageIds, child.completedStageIds, x);
    PrefixDrops(stored.completedTaskIds, given.completedTaskIds, child.completedTaskIds, x);
    PrefixDrops(stored.idempotencyKeys, given.idempotencyKeys, child.idempotencyKeys, IdempotencyKey(given.runId, x));
  }

  lemma PrefixDrops(a: seq<string>, before: seq<string>, after: seq<string>, x: string)
    requires a <= after && AtMost(before, after, x) && x !in a
    ensures a <= before
  {
    assert (before + [x])[|before|] == x;
    assert forall k :: 0 <= k < |a| ==> a[k] == after[k];
  }

  lemma ChildFits(log: seq<RunCheckpoint>, given: RunCheckpoint, child: RunCheckpoint)
    requires WellBuilt(log) && TakenForLatest(log, given) && Grows(given, child) && Find(log, child.checkpointId).None?
    ensures Fits(log, child)
  {
    hide WellFormed, Canonical;
    var chain := Chain(log, given.runId, given.workflowId);
    WellBuiltIsChain(log, given.runId, given.workflowId);
    ChainPositions(chain, |chain| - 1);
  }

  lemma LegalLast(log: seq<RunCheckpoint>, child: RunCheckpoint)
    requires LegalLog(log + [child])
    ensures LegalEntry(log, child)
  {
    hide Grows, Initial, Chain;
    assert (log + [child])[..|log|] == log && (log + [child])[|log|] == child;
  }

  /** One probe, performed. */
  lemma ProbeIsStored(log: seq<RunCheckpoint>, given: RunCheckpoint, t: CheckpointStatus, x: string) returns (child: RunCheckpoint)
    requires WellBuilt(log) && WellFormed(given) && Canonical(given) && TakenForLatest(log, given)
    requires t in Writes(given.status) && !IsBlank(x) && Unheard(given, given.runId, x)
    ensures Perform(log, Some(given), Probe(t, NewId(log), x)).log == log + [child]
    ensures Grows(given, child) && child.status == t && child.checkpointId == NewId(log)
    ensures AtMost(given.completedStageIds, child.completedStageIds, x)
    ensures AtMost(given.completedTaskIds, child.completedTaskIds, x)
    ensures AtMost(given.idempotencyKeys, child.idempotencyKeys, IdempotencyKey(given.runId, x))
  {
    hide WellBuilt, WellFormed, Canonical, Writes, Perform, Probe, ProbeChanges, Grows, Chain, NewId, Find, AtMost, Fits, Unheard;
    var id := NewId(log);
    var chain := Chain(log, given.runId, given.workflowId);
    NewIdIsNew(log);
    ChainMeaning(log, given.runId, given.workflowId);
    assert chain[|chain| - 1] in log;
    ProbePerforms(log, given, t, id, x);
    ProbeIsBuilt(given, t, id, x);
    ProbeIsMonotone(given, t, id, x);
    ProbeAddsOwnNames(given, t, id, x);
    var changes := ProbeChanges(given, Probe(t, id, x));
    child := ChildOf(given, t, id, "", changes).value;
    ChildGrows(given, t, id, "", changes);
    ChildFields(given, t, id, "", changes);
    ChildFits(log, given, child);
    SaveKeepsWellBuilt(log, child);
    FitsIsSaved(log, child);
  }

  lemma OneAct(w: World, act: Act)
    ensures AfterActs(w, [act]) == AfterAct(w, act)
  {
    hide AfterAct;
    assert AfterActs(w, []) == w;
    assert [act][..0] == [];
  }

  /** A legal recorder's probe shows how `given` relates to what is stored. */
  lemma ProbeReadsOff(log: seq<RunCheckpoint>, given: RunCheckpoint, t: CheckpointStatus)
    requires WellBuilt(log) && WellFormed(given) && Canonical(given)
    requires TakenForLatest(log, given) && OperatesLegally(log, given) && t in Writes(given.status)
    ensures var chain := Chain(log, given.runId, given.workflowId);
            var stored := chain[|chain| - 1];
            t in NextStatuses(stored.status)
            && (StandsIn(stored, given) <==> Writes(given.status) <= NextStatuses(stored.status))
  {
    hide WellBuilt, WellFormed, Canonical, Writes, NextStatuses, Perform, Probe, Grows, Chain, NewId, AtMost, Unheard, NewName, StandsIn;
    hide AfterActs, LegalLog;
    var chain := Chain(log, given.runId, given.workflowId);
    var stored := chain[|chain| - 1];
    var x := NewName(stored, given);
    NewNameIsUnheard(stored, given, given.runId);
    var child := ProbeIsStored(log, given, t, x);
    var act := Operate(0, Probe(t, NewId(log), x));
    OneAct(Handed(log, given), act);
    assert LegalLog(AfterActs(Handed(log, given), [act]).log);
    LegalLast(log, child);
    ChildIsOfLineage(given, child);
    GrowsReadOff(stored, given, child, x);
  }

  lemma ChildIsOfLineage(given: RunCheckpoint, child: RunCheckpoint)
    requires Grows(given, child)
    ensures child.runId == given.runId && child.workflowId == given.workflowId
  {
  }

  lemma LegalRecordersStandIn(log: seq<RunCheckpoint>, given: RunCheckpoint)
    requires WellBuilt(log) && WellFormed(given) && Canonical(given)
    requires TakenForLatest(log, given) && OperatesLegally(log, given)
    ensures var chain := Chain(log, given.runId, given.workflowId); StandsIn(chain[|chain| - 1], given)
  {
    hide WellBuilt, WellFormed, Canonical, OperatesLegally, Chain, NextStatuses;
    var chain := Chain(log, given.runId, given.workflowId);
    forall t | t in Writes(given.status)
      ensures t in NextStatuses(chain[|chain| - 1].status)
      ensures StandsIn(chain[|chain| - 1], given) <==> Writes(given.status) <= NextStatuses(chain[|chain| - 1].status)
    {
      ProbeReadsOff(log, given, t);
    }
  }

  /**
   * Everything a recorder handed `given` may do, in any order and number, keeps the log legal exactly when
   * the store does not take `given` for the latest of its lineage, or it may stand in for that one.
   */
  lemma OperatesLegallyExactly(log: seq<RunCheckpoint>, given: RunCheckpoint)
    requires WellBuilt(log) && LegalLog(log) && WellFormed(given) && Canonical(given)
    ensures OperatesLegally(log, given) <==> MayBeHanded(log, given)
  {
    hide WellBuilt, WellFormed, Canonical, Chain, StandsIn, LegalLog, AfterActs;
    if MayBeHanded(log, given) {
      forall acts ensures LegalLog(AfterActs(Handed(log, given), acts).log) {
        HandedRun(log, given, acts);
      }
    }
    if TakenForLatest(log, given) && OperatesLegally(log, given) {
      LegalRecordersStandIn(log, given);
    }
  }

  // A checkpoint that may not stand in.

  function Sample(id: string, parent: Option<string>, sequence: int, status: CheckpointStatus): RunCheckpoint {
    RunCheckpoint("r", id, parent, sequence, "s", "c", "u", "w", "1", "1", "", "", status, Dict(map[]), "", "",
                  [], [], [], "UNKNOWN", None, None, [], [], [], [], [], "1.0", "v2.2A", "", "", None)
  }

  lemma SampleIsWellFormed(id: string, parent: Option<string>, sequence: nat, status: CheckpointStatus)
    requires id == "a" || id == "b"
    requires parent == if sequence == 0 then None else Some("a")
    requires parent != Some(id)
    ensures WellFormed(Sample(id, parent, sequence, status)) && Canonical(Sample(id, parent, sequence, status))
  {
    var c := Sample(id, parent, sequence, status);
    assert !IsSpace(c.runId[0]) && !IsSpace(c.checkpointId[0]) && !IsSpace(c.sessionId[0]) && !IsSpace(c.conversationId[0]);
    assert !IsSpace(c.userScope[0]) && !IsSpace(c.workflowId[0]) && !IsSpace(c.workflowVersion[0]) && !IsSpace(c.planVersion[0]);
  }

  lemma SampleLog(id: string)
    requires id == "a"
    ensures var stored := Sample(id, None, 0, Created);
            WellBuilt([stored]) && LegalLog([stored]) && Chain([stored], "r", "w") == [stored]
  {
    var stored := Sample(id, None, 0, Created);
    assert [stored][..0] == [];
    assert Chain([], "r", "w") == [];
    assert Find([], id).None?;
    SampleIsWellFormed(id, None, 0, Created);
    assert Initial(stored);
    assert LegalEntry([], stored);
  }

  /**
   * A recorder handed a checkpoint that shares the id of the stored latest one, but not
   * its status, can extend the history illegally: completing it puts COMPLETED after CREATED.
   */
  lemma ForgedCurrentBreaksHistory()
    ensures var stored, forged := Sample("a", None, 0, Created), Sample("a", None, 0, Running);
            var after := Perform([stored], Some(forged), CompleteRun([], "", NewId([stored]), ""));
            && WellBuilt([stored]) && LegalLog([stored]) && WellFormed(forged) && Canonical(forged)
            && |after.log| == 2 && after.log[0] == stored && after.log[1].status == Completed
            && Chain(after.log, "r", "w") == after.log && !LegalHistory(after.log)
  {
    var stored, forged := Sample("a", None, 0, Created), Sample("a", None, 0, Running);
    hide WellFormed, Canonical, Chain, LegalLog, WellBuilt, Perform, NewId, NewText, Grows;
    SampleLog("a");
    SampleIsWellFormed("a", None, 0, Running);
    NewTextIsLonger([]);
    var child := ProbeIsStored([stored], forged, Completed, NewText([]));
    ChildIsOfLineage(forged, child);
    Appended([stored], child, "r", "w", "");
    assert ([stored] + [child])[..1] == [stored];
    CreatedIsNotCompleted(stored, child);
  }

  lemma CreatedIsNotCompleted(stored: RunCheckpoint, child: RunCheckpoint)
    requires stored.status == Created && child.status == Completed
    ensures !Grows(stored, child)
  {
  }
}

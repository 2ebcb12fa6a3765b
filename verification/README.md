# Checkpoints, completion and plans: a verified model

This project models the parts of the agent runtime that decide what has really
happened, what may happen next, and when a run may be called complete.

* **Checkpoint and resume protocol.** A recorder derives immutable checkpoints
  and saves them in an append-only store with three indexes. The store's meaning
  is one insertion log; any number of recorders, some holding stale checkpoints,
  interleave their saves on it. `validate_resume` is modelled as its cascade of
  early returns and proved equal to one order-free condition per action; what a refusal
  says, where an allowed run continues, and what each operation writes down are
  stated field by field.
* **Completion truth.** Effects and outcomes resolved by verifier-backed
  evidence, the gate that withdraws COMPLETED, the goal verifier with its greedy
  delivery assignment, and the projection that publishes a run's status.
* **Scheduling and budget.** One model step's tool calls as an event trace in
  any completion order, the tool loop with the transcript it shows its model, and
  the state machine around it with what it finally tells the user.
* **Plans.** Lowering of bound tools, the single-assignment check, the executor
  that substitutes `$` references, and what a lowered tool does when it runs.
* **Smaller pieces.** The memory pipeline from evidence to a versioned row, the
  search-result printer and parser, and the history splitter.

Files, in the order they build on each other: `Text`, `PlanValues`,
`Contracts`, `Lifecycle`, `Compatibility`, `Codec`, `DocumentKeys`, `Documents`,
`DocumentShape`, `Store`, `Recorder`, `Protocol`, `ResumePolicy`, `Refusals`, `Validator`,
`ResumeSafety`, `Recording`, `Operations`, `Binding`, `Fence`; `Delivery`,
`DeliveryOrder`, `EffectTruth`, `Evidence`, `GoalGate`, `GoalGaps`, `Feedback`;
`Scheduling`, `Transcript`, `Loop`; `Plan`, `Lowering`; `Memory`,
`MemoryReasons`; `SearchText`, `SearchFields`; `History`. `dafny verify dfyconfig.toml` checks all of them.

## How the source is read

* Objects that change in place (`InMemoryCheckpointStore`, `CheckpointRecorder`,
  the agent state, `RunBudget`, the fact table) are classes whose methods are
  proved against functions of the old state; loops are loops. Frozen records and
  branching functions are datatypes and functions.
* Timestamps are text; reading one (with its timezone flag) and case folding are
  a parameter, `ResumePolicy.Platform`. Clocks, new ids, model turns, tool
  results and the state they leave are parameters too, so every statement holds for all
  of them. The memory policy's regular expressions are the predicates of
  `Memory.Classifiers`.
* A checkpoint document is first a record of encoded fields (`Codec`) and then a
  JSON object whose every field has its own key (`Documents`).
* A digest is the canonical document itself: two documents have equal digests
  exactly when they are equal, which is what SHA-256 over key-sorted JSON is used
  for.
* Status and error names the modelled code compares with are constructors; any
  other text is kept as text.

## Where the code differs from what one might expect

Each of these is the code's behaviour, kept as it is, with a member that states it.

* A plan that holds a set freezes to a frozen set and can then never be frozen
  again: constructing a child checkpoint raises (`Contracts.ConstructKeeps`,
  `PlanValues.Refreeze`). Plans that went through `json_fact` hold none.
* A refused save of a new lineage leaves an empty history behind in the store;
  no query can see it (`Store.InMemoryCheckpointStore.SaveNew`).
* A recorder handed a checkpoint that merely shares the stored latest one's id
  can extend a history illegally (`Binding.ForgedCurrentBreaksHistory`). For any
  checkpoint in the canonical form decoding gives, everything the recorder then
  does stays legal exactly when the store does not take the checkpoint for the
  latest, or it may stand in for that one (`Binding.OperatesLegallyExactly`); the
  run theorems let recorders start from stored checkpoints.
* An effect that may have happened fences its run through every later operation,
  until its task is recorded again (`Fence.FailedEffectFencesRun`); but a replay
  only looks at the active task's effects, so once the run has moved on to
  another task one may be allowed (`Fence.ReplayIgnoresOtherTasks`).
* An allowed decision about a checkpoint that is no longer the newest of its
  lineage is refused by the store, not by the recorder
  (`ResumeSafety.AllowedResumeExactly`).
* A backed effect result does not verify an effect that already has a record with
  another status (`EffectTruth.BackedResultResolves`).
* Evidence of a verified file is recorded once per full path, but stores the path
  cut to 240 characters, so a longer path is recorded again when the same result
  is delivered again (`EffectTruth.RedeliveryAddsNothingExactly`).
* A record that is not verified keeps a backed result about the same outcome and
  target from resolving that outcome (`EffectTruth.BackedExecutionResolves`).
* Greedy delivery can fail on files that cover all requirements, exactly when a
  target is listed before one it is wider than (`DeliveryOrder.NeverFailsExactly`).
* The scan for fresh evidence stops at the first successful source observation,
  even one without URLs (`GoalGate.FirstSourceDecides`).
* The tool loop does not send a run back for a missing list of delivery
  requirements, an unverified effect, an unmet acceptance criterion or an
  unfinished task, only for the rest (`Feedback.FeedbackGapsMeaning`).
* The later guards of `_build_run_evidence` against a stale COMPLETED can no
  longer apply once the first choice is made (`GoalGate.Settle`).
* A goal round is also refused, after being counted, when the goal already
  carries a failure (`Loop.RunState.AdvanceGoalRound`).
* The static check lets a step cite its own output; the executor then leaves the
  reference literal (`Plan.CitationResolves`). A written content reading `$path`
  is replaced by the resolved path (`Plan.WrittenContentMayBeReplaced`).
* A kept history tail can exceed its budget when the newest pair alone does,
  although the documentation says it always fits (`History.KeptFitsExactly`).
* A rendered result with neither title nor URL is lost when parsed, and its
  snippet falls to the result before it (`SearchText.UnheadedEntryIsLost`). A
  line break in a source can plant a result (`SearchText.SourceInjectsResult`).

## Model

| member | source | states |
|---|---|---|
| PlanValues.JsonFactMeaning | agent/checkpoint/recorder.py:53-70 | a plan fact keeps only JSON, and leaves JSON as it is |
| PlanValues.ThawUndoesFreeze | agent/checkpoint/contracts.py:24-49 | JSON of any nesting freezes without error and thaws back unchanged |
| PlanValues.FreezeUndoesThaw | agent/checkpoint/contracts.py:24-49 | a frozen plan survives thaw and freeze exactly when no set was frozen in it |
| PlanValues.Refreeze | agent/checkpoint/contracts.py:24-40 | freezing a frozen plan keeps it, or raises exactly when it holds a frozen set |
| Contracts.ConstructAccepts | agent/checkpoint/contracts.py:413-478 | whatever the constructor accepts meets all checkpoint invariants |
| Contracts.ConstructKeeps | agent/checkpoint/contracts.py:413-478 | reconstructing a valid checkpoint returns it, or raises exactly when its plan holds a frozen set |
| Contracts.ConstructRefuses | agent/checkpoint/contracts.py:413-478 | a refused construction names a fault that is there |
| Contracts.ConstructChangesOnly | agent/checkpoint/contracts.py:439-447 | an accepted checkpoint is the given one with its plan frozen and the blank entries of four lists dropped |
| Contracts.NonBlankMeaning | agent/checkpoint/contracts.py:52-54 | list normalisation drops exactly the blank entries |
| Lifecycle.DeriveIsLegal | agent/checkpoint/lifecycle.py:66-145 | whatever unprotected fields change, an advanced or appended child has a declared status step, the same protected fields, the next sequence and its parent's id |
| Lifecycle.DerivationRefused | agent/checkpoint/lifecycle.py:66-145 | a child is refused exactly for an undeclared move, then a blank id, then the parent's own id, then what the constructor refuses |
| Codec.NamesReadBack | agent/checkpoint/contracts.py:549-600 | every status, effect, guard and action name decodes to the member it was written for |
| Codec.MetadataReadsBack | agent/checkpoint/contracts.py:230-252 | artifact metadata survives a document exactly when it is key-sorted and unique |
| Codec.DecodeEncoded | agent/checkpoint/codec.py:16-49 | decoding the encoded fields of a checkpoint succeeds exactly when the schema major fits, and yields its canonical form |
| Codec.DecodeEncodeIdentity | agent/checkpoint/codec.py:16-49 | on encoded fields the round trip is the identity exactly on canonical checkpoints of a fitting schema |
| Codec.ReencodeIsStable | agent/checkpoint/codec.py:16-53 | encoding what was decoded gives the same document, so the digest is stable |
| Codec.DigestIdentifies | agent/checkpoint/codec.py:52-53 | canonical checkpoints with equal digests are equal |
| DocumentKeys.NameReadsBack | agent/checkpoint/contracts.py:510-547 | no two keys of the documents have the same name |
| Documents.GetObject | agent/checkpoint/contracts.py:510-547 | an object holds what was written under each key and nothing under any other |
| Documents.ObjectReadsBack | agent/checkpoint/contracts.py:510-601 | each of the 32 fields, and those of evidence, guards, effects, artifacts and failure event, is read from the key it was written under |
| DocumentShape.AbsentFieldsOfRecords | agent/checkpoint/contracts.py:87-295 | the value each field of evidence, guards, effects, artifacts and failure events has when it is absent |
| DocumentShape.AbsentFieldsOfCheckpoint | agent/checkpoint/contracts.py:549-601 | the value each field of a checkpoint has when it is absent |
| Documents.ObjectRoundTrip | agent/checkpoint/codec.py:16-49 | through the JSON object the round trip is the identity exactly on canonical checkpoints of a fitting schema |
| DocumentShape.DocumentIsJson | agent/checkpoint/contracts.py:510-547 | the document of a well-formed checkpoint holds nothing but JSON, whatever sets its frozen plan holds |
| Documents.ObjectIdentifies | agent/checkpoint/codec.py:52-53 | two checkpoints have the same JSON object exactly when they have the same digest |
| Compatibility.MigrationForMeaning | agent/checkpoint/compatibility.py:43-56 | a migration is found exactly when one is declared for this workflow and these versions |
| Compatibility.MajorVersionReads | agent/checkpoint/compatibility.py:11-14 | behind blanks and at most one v, a version's major number is its first digits, whatever follows them |
| Compatibility.NoMajorVersion | agent/checkpoint/compatibility.py:11-14 | a version without a digit there has none |
| Compatibility.MajorsCompared | agent/checkpoint/compatibility.py:82-128 | `1.2` and `v1` share a major version, `2.0` does not, and a name without a number shares one with nothing, itself included |
| Compatibility.AssessCompatibility | agent/checkpoint/compatibility.py:72-186 | exact and replay need the same workflow and plan version, replan the same or a migratable workflow; an unreadable schema or contract denies all; the findings are reported one by one |
| Compatibility.FindingsReport | agent/checkpoint/compatibility.py:82-176 | the findings in order, each with what was expected, observed and whether it fits |
| Compatibility.FindingNamesMigration | agent/checkpoint/compatibility.py:135-158 | the workflow finding names a declared migration exactly where there is one |
| Store.ChainPositions | agent/checkpoint/store.py:55-88 | entry i of a history has sequence i and entry i-1 as its parent |
| Store.WellBuiltMeaning | agent/checkpoint/store.py:55-88 | the store's invariant means no id twice and one unforked chain per run and workflow |
| Store.SaveKeepsWellBuilt | agent/checkpoint/store.py:55-88 | any save, accepted or not, keeps the invariant and everything stored |
| Store.SaveAccepts | agent/checkpoint/store.py:55-88 | a save is accepted exactly for an identical copy of a stored checkpoint or a new id that extends its chain by one |
| Store.SaveRefuses | agent/checkpoint/store.py:55-81 | a refused save changes nothing and names its fault: other content under a stored id, or the first thing wrong with the place in its chain |
| Store.ResaveIsNoOp | agent/checkpoint/store.py:55-62 | saving identical content again returns the stored checkpoint and changes nothing |
| Store.ResavingDecodedCopy | agent/checkpoint/store.py:55-62 | re-saving a decoded copy of a stored checkpoint is a no-op |
| Store.RunLogHoldsChains | agent/checkpoint/store.py:83-120 | filtering a run's history by workflow gives that workflow's history |
| Store.HistoriesRepeatNothing | agent/checkpoint/store.py:83-88 | each stored id occurs once in each history |
| Store.IndexMeaning | agent/checkpoint/store.py:50-53 | the maps by id, by run and by run and workflow agree with the insertion log |
| Store.InMemoryCheckpointStore.CheckLineage | agent/checkpoint/store.py:64-81 | the lineage test against the latest entry finds exactly the faults of the chain position |
| Store.InMemoryCheckpointStore.SaveNew | agent/checkpoint/store.py:64-88 | a new id is appended to the log and all three indexes, or refused with the log unchanged and at most an empty history added |
| Store.InMemoryCheckpointStore.Save | agent/checkpoint/store.py:55-88 | the in-place save behaves as the log says, and the indexes stay in agreement |
| Store.InMemoryCheckpointStore.Get | agent/checkpoint/store.py:90-91 | returns the stored checkpoint of that id, or nothing exactly when there is none |
| Store.InMemoryCheckpointStore.Latest | agent/checkpoint/store.py:93-97 | returns the last checkpoint logged for the run |
| Store.InMemoryCheckpointStore.LatestForWorkflow | agent/checkpoint/store.py:99-114 | equals a backward scan of the whole log for that run, workflow and attempt |
| Store.InMemoryCheckpointStore.History | agent/checkpoint/store.py:116-120 | returns the run's part of the log, in order |
| Recorder.SnapshotArtifacts | agent/checkpoint/recorder.py:82-101 | every live artifact is snapshot in order with key-sorted, unique metadata |
| Recorder.CheckpointRecorder.SaveTransition | agent/checkpoint/recorder.py:215-239 | derives a child and saves it; store and current change together or not at all |
| Recorder.CheckpointRecorder.Start | agent/checkpoint/recorder.py:241-277 | a bound recorder refuses; a free one saves the CREATED and then the RUNNING checkpoint |
| Recorder.CheckpointRecorder.Resume | agent/checkpoint/recorder.py:279-325 | consumes an EXACT or REPLAY decision, through SUSPENDED when waiting or failed |
| Recorder.CheckpointRecorder.RequireClarification | agent/checkpoint/recorder.py:327-349 | moves to WAITING_USER on a clarification decision about the current checkpoint |
| Recorder.CheckpointRecorder.RecordStage | agent/checkpoint/recorder.py:351-435 | one transition from the current checkpoint, or none bound; what it writes is stated by the lemmas of `Recording` |
| Recorder.CheckpointRecorder.Suspend | agent/checkpoint/recorder.py:437-451 | one transition to SUSPENDED |
| Recorder.CheckpointRecorder.Complete | agent/checkpoint/recorder.py:453-465 | one transition to COMPLETED with the snapshot artifacts |
| Protocol.HistoryIsALegalRun | agent/checkpoint/lifecycle.py:11-64 | a history begins CREATED, and across any stretch of it identity never changes, completed work and keys only grow, a terminal status is never left |
| Protocol.EveryRunStaysLinearAndLegal | agent/checkpoint/recorder.py:215-239 | with any number of recorders and any interleaving of saves every history is one unforked chain and a legal run, and the log only grows |
| Protocol.StaleSaveChangesNothing | agent/checkpoint/store.py:55-88 | a child of a checkpoint that is no longer the latest never changes the log, and is refused unless that document is already stored |
| Protocol.RecordStageSucceedsWhen | agent/checkpoint/recorder.py:351-435 | recording a stage re-establishes the constructor's invariants; it fails exactly for an undeclared transition, a blank id or the parent's own id |
| Protocol.StageEffectsWellFormed | agent/checkpoint/recorder.py:369-435 | after a stage there is one effect record per task and every effect key is registered |
| Protocol.StartIsInitial | agent/checkpoint/recorder.py:255-277 | what a start saves first is a well-formed beginning of a history |
| Protocol.TransitionIsAWrite | agent/checkpoint/recorder.py:215-239 | a transition with growing changes is one save the protocol allows, or no effect |
| ResumePolicy.GuardsRefusalMeaning | agent/checkpoint/validator.py:234-454 | the guard checks pass exactly when each guard has one fresh equal observation and nothing else is observed |
| ResumePolicy.EffectRefusalMeaning | agent/checkpoint/validator.py:633-770 | the effect checks pass exactly when no effect is unsafe, or the only one is attested not to have happened |
| ResumePolicy.VerdictMeaning | agent/checkpoint/validator.py:136-784 | the ordered cascade allows an action exactly when its order-free condition holds |
| ResumePolicy.RefusalsRefuse | agent/checkpoint/validator.py:106-134 | a refusal never carries ALLOW, and asks a question exactly when it wants clarification |
| Refusals.TargetsAgree | agent/checkpoint/validator.py:48-49 | two targets agree exactly when, trimmed, with backslashes as slashes and case folded, they differ at most in slashes at the end |
| Refusals.GuardRefusalSays | agent/checkpoint/validator.py:290-411 | an observed guard is confirmed, rejected as a mismatch, or asked about in one of three ways, each under its own condition |
| Refusals.UnobservedGuardSays | agent/checkpoint/validator.py:290-305 | a guard nobody observed is asked about |
| Refusals.FreshExactly | agent/checkpoint/validator.py:361-381 | an observation is fresh when aware and strictly later than the guard's own aware check, if there was one |
| Refusals.UnguardedSays | agent/checkpoint/validator.py:419-454 | without guards a mismatch is rejected and anything else unverified is asked about |
| Refusals.GuardedSays | agent/checkpoint/validator.py:234-418 | with guards, missing observations are asked for, a repeated or unexpected one is rejected, and else the first failing guard decides |
| Refusals.AdmissionSays | agent/checkpoint/validator.py:136-474 | the reason a refused admission names is true of the checkpoint and the request, with its own disposition and question |
| Refusals.AdmissionOrder | agent/checkpoint/validator.py:136-474 | no earlier check fails: of several faults the first in the order of the checks is told |
| Refusals.PositionSays | agent/checkpoint/validator.py:487-524 | a half-done active task, a moved workflow, no position or another stage is told as such, rejecting or asking as the requested action demands |
| Refusals.ReplaySays | agent/checkpoint/validator.py:526-571 | a replay is rejected for other versions, then a stage that may not be repeated, then an unknown, then any other blocking effect of the active task |
| Refusals.ActionSays | agent/checkpoint/validator.py:476-784 | each allowed action has its own reason, and each refused one is told by the first part that refuses it |
| Refusals.UnsafeEffectsSay | agent/checkpoint/validator.py:735-771 | unsafe effects are asked about, as in progress exactly when one was started or failed after its commit |
| Refusals.UnsafeEffectsAsk | agent/checkpoint/validator.py:755-769 | the question is about the one unsafe effect, by whether it can be bound, or about each of them |
| Refusals.ConfirmationSays | agent/checkpoint/validator.py:633-733 | a confirmation that settles nothing is rejected or asked about by what is wrong with it: nothing unsafe, too broad, unbound, mismatched, stale |
| Refusals.ConfirmedAfterExactly | agent/checkpoint/validator.py:688-705 | a confirmation counts exactly when both times are aware and it was made strictly after the checkpoint was written |
| Validator.IndexObservations | agent/checkpoint/validator.py:253-269 | the loop over observations accepts exactly lists without a repeated guard identity, and indexes them |
| Validator.CheckGuards | agent/checkpoint/validator.py:234-454 | the guard part of the cascade returns the refusal the guards deserve, with one fact for each guard judged in order, or for the repeated, unexpected or doubtful observation |
| Validator.CheckConfirmation | agent/checkpoint/validator.py:629-740 | a confirmation is accepted exactly for the one unsafe effect it names, dated after the checkpoint, and leaves an attestation |
| Validator.DecideAction | agent/checkpoint/validator.py:476-784 | the action part of the cascade announces the action's verdict, continues where that action continues, and keeps the evidence gathered before |
| Validator.ValidateResume | agent/checkpoint/validator.py:136-784 | the whole cascade allows an action exactly under its condition, for all inputs, with a valid decision about this checkpoint, whose evidence ends with a used confirmation word for word, or with the fact that explains the refusal; an exact resume, a replay or a defaulted replan continues at its active stage and task, a requested replan at those that are not empty, abandoning nowhere; the status follows the disposition and action |
| Validator.AnnouncedPosition | agent/checkpoint/validator.py:526-784 | whatever the verdict announces, an allowed decision carries the stage and task its action continues from |
| ResumeSafety.FailedEffectFencesResume | agent/checkpoint/validator.py:526-770 | after a failed stage whose effect may have happened only abandoning is allowed, or an exact resume under a matching later confirmation |
| ResumeSafety.UnreferencedFailureOnlyAbandons | agent/checkpoint/recorder.py:104-123 | a failed write, modify, delete, move, copy or execute with no reported state and no reference can only be abandoned |
| ResumeSafety.ConfirmedExactResumeIsAllowed | agent/checkpoint/validator.py:633-770 | with nothing else unsafe the exact resume is allowed exactly under admission and that confirmation |
| ResumeSafety.AllowedResumeExactly | agent/checkpoint/recorder.py:279-325 | an ALLOW about any stored checkpoint ends RUNNING exactly when that is the newest of its lineage; otherwise the store refuses and nothing changes; a replay repeats no effect of the active task |
| ResumeSafety.CreatedIsNotResumed | agent/checkpoint/recorder.py:279-325 | a CREATED checkpoint is refused with no effect |
| ResumeSafety.WriteStaysBound | agent/checkpoint/recorder.py:215-239 | after any recorder write the log stays legal and the recorder holds a stored checkpoint |
| ResumeSafety.RecordStageIsWrite | agent/checkpoint/recorder.py:351-435 | recording a stage is one protocol write |
| ResumeSafety.SuspendAndCompleteAreWrites | agent/checkpoint/recorder.py:437-465 | so are suspending and completing |
| ResumeSafety.ClarifyIsWrite | agent/checkpoint/recorder.py:327-349 | so is waiting for a clarification |
| ResumeSafety.ResumeIsOneOrTwoWrites | agent/checkpoint/recorder.py:279-325 | resuming is one protocol write or two in a row |
| ResumeSafety.StartIsWrites | agent/checkpoint/recorder.py:241-277 | starting is one protocol write or two in a row |
| Recording.StageMovesOn | agent/checkpoint/recorder.py:351-435 | after a success the next stage and task are active, nothing has failed and VERIFIED is on record; after a failure the same stage and task, its failure with stage and error, and FAILED |
| Recording.StageKeepsFacts | agent/checkpoint/recorder.py:53-101 | the frozen plan thaws to the JSON of the given one, and every artifact is snapshot in order |
| Recording.StageRecordsEffect | agent/checkpoint/recorder.py:104-123 | the task has one effect record, under the run's key for it; a reported state stands, a successful effectful verb without one is COMMITTED, a failed one UNKNOWN |
| Recording.StageCompletes | agent/checkpoint/recorder.py:351-435 | completed stages, completed tasks and keys gain exactly the finished ones |
| Recording.StageLeavesRest | agent/checkpoint/recorder.py:351-435 | run, workflow, evidence, guards and the rest stay as they were |
| Recording.SuspensionRecorded | agent/checkpoint/recorder.py:437-451 | a suspension adds one piece of evidence with its reason and changes nothing else |
| Recording.CompletionRecorded | agent/checkpoint/recorder.py:453-465 | a completion clears the position, keeps the snapshots and the summary, and is reached from RUNNING only |
| Recording.ClarificationRecorded | agent/checkpoint/recorder.py:327-349 | waiting keeps everything and merges the decision's evidence |
| Recording.ResumptionRecorded | agent/checkpoint/recorder.py:305-324 | resuming keeps everything, merges the evidence and proposes the decided action |
| Recording.BeginningRecorded | agent/checkpoint/recorder.py:241-277 | the first checkpoint holds the request's and the call's own values, each in its field |
| Recording.BindingRefused | agent/checkpoint/recorder.py:241-465 | a recorder without a checkpoint does nothing but start, one with a checkpoint does not start |
| Recording.ResumeRefused | agent/checkpoint/recorder.py:279-325 | a resume is refused without effect for a decision about another checkpoint, an action it does not consume, or a status it cannot resume from |
| Recording.ClarifyRefused | agent/checkpoint/recorder.py:327-349 | waiting is refused likewise, and otherwise is one transition with the decision's evidence merged |
| Recording.RecordedStageContinues | agent/checkpoint/validator.py:772-784 | an allowed exact resume or replay after a recorded stage continues at the next stage and task on success and at the failed ones on failure |
| Binding.OperatesLegallyExactly | agent/checkpoint/recorder.py:205-465 | for any well-formed canonical checkpoint handed to a recorder: whatever operations it performs, every history stays legal exactly when the store does not take that checkpoint for the latest of its lineage, or it may stand in for that one |
| Binding.WritesMeaning | agent/checkpoint/recorder.py:241-465 | the statuses the operations write from each status are exactly the declared moves to their five targets |
| Binding.ForgedCurrentBreaksHistory | agent/checkpoint/recorder.py:205-213 | completing a forged checkpoint puts COMPLETED after CREATED |
| Operations.AnyOperationsStayLegal | agent/checkpoint/recorder.py:205-465 | any starts, resumes, clarifications, stages, suspensions and completions, by any recorders in any order, keep every history one unforked legal chain |
| Operations.ResumeInAnyRun | agent/checkpoint/recorder.py:279-325 | at any moment of such a run an ALLOW about a recorder's current checkpoint ends RUNNING exactly when that is still the newest, never meets a forbidden transition, and otherwise changes nothing |
| Fence.FailedEffectFencesRun | agent/checkpoint/recorder.py:392-435 | through any operations of any recorders the newest checkpoint of the lineage keeps a possibly happened effect on record until its task is recorded again, and until then the validator allows only abandoning, an exact resume of that task confirmed for that effect, or a replay of another task's stage |
| Fence.OperationKeepsRecord | agent/checkpoint/recorder.py:241-465 | no operation drops an effect record of a lineage's newest checkpoint, except recording its task again |
| Fence.UnsafeRecordFences | agent/checkpoint/validator.py:526-770 | what an unsafe effect on record leaves the validator to allow |
| Fence.ReplayIgnoresOtherTasks | agent/checkpoint/validator.py:526-571 | an effect of a task that is not active changes nothing about whether a replay is allowed |
| Delivery.CollectReceipts | agent/goal.py:332-338 | the files on offer are exactly the verified, digested ones, in first-seen order |
| Delivery.OnOfferExactly | agent/goal.py:329-338 | a path is on offer exactly when it is verified and some record of it has a digest |
| Delivery.DeliveryPaths | agent/goal.py:326-352 | the loop that takes files away computes the greedy assignment over those files |
| Delivery.AssignIsGreedy | agent/goal.py:340-351 | each requirement gets as many of the matching files still left as it asks for |
| Delivery.GreedyIsDisjoint | agent/goal.py:340-351 | no file is delivered twice, and each fits its requirement's target |
| Delivery.GreedyIsOptimal | agent/goal.py:340-351 | where each target nests in or is apart from the later ones on the files, all requirements are satisfied exactly when any assignment at all satisfies them |
| Delivery.NotWiderNests | agent/goal.py:343-348 | a target that is not wider than another lies inside it or shares no path with it, over all files |
| Delivery.FallingRankIsSafe | agent/goal.py:343-348 | requirements listed as exact paths, inner directories, outer directories and no target, in this order, have no target listed before one it is wider than |
| Delivery.DeliveredIffFeasible | agent/goal.py:326-352 | with no target listed before one it is wider than, requirements are delivered exactly when the files at hand can cover them |
| DeliveryOrder.NeverFailsExactly | agent/goal.py:326-352 | for all files and the positive quantities a requirement must have: delivery never fails a coverable list exactly when no target is wider than a later one, or an exact path is asked for twice so that nothing covers the list |
| DeliveryOrder.GeneralFirstCanFail | agent/goal.py:340-351 | a general requirement listed first takes the only file of a specific one |
| EffectTruth.UnverifiedMeaning | agent/effect_truth.py:144-152 | a required effect is unresolved exactly when no verified record names it |
| EffectTruth.UnevidencedMeaning | agent/effect_truth.py:153-163 | a requested outcome is unresolved exactly when it needs evidence and has none verified |
| EffectTruth.GateMeaning | agent/effect_truth.py:288-317 | the gate leaves an unresolved run with a non-COMPLETED status and a failure code, and others untouched |
| EffectTruth.GateIsIdempotent | agent/effect_truth.py:288-317 | running the gate again changes nothing |
| EffectTruth.AgentState.EnforceCompletionGate | agent/effect_truth.py:288-317 | the in-place gate computes that state |
| EffectTruth.AgentState.RecordEffectResult | agent/effect_truth.py:320-360 | the in-place update records a verified or failed effect, or nothing, as `Evidence` states |
| EffectTruth.AgentState.RecordExecutionEvidence | agent/effect_truth.py:377-436 | the in-place loops compute the recorded state, for every result, as `Evidence` states |
| EffectTruth.BackedExecutionResolves | agent/effect_truth.py:388-436 | after a backed result an outcome is verified exactly when it was before, or the result found evidence of it whose outcome and target were not on record |
| EffectTruth.ExecutionAddsOnce | agent/effect_truth.py:388-436 | one delivery adds one record for each identity not on record, however often it was found |
| EffectTruth.RedeliveryAddsNothingExactly | agent/effect_truth.py:377-436 | delivering a backed result again changes nothing exactly when each path has at most 240 characters or was on record before |
| EffectTruth.LongPathIsRecordedTwice | agent/effect_truth.py:377-436 | a path of 241 characters is recorded at each of two deliveries |
| EffectTruth.EvidenceOnlyShrinksUnresolved | agent/effect_truth.py:320-436 | over any sequence of recording calls the unresolved effects and outcomes only shrink |
| EffectTruth.UnbackedResolvesNothing | agent/effect_truth.py:336-341 | failures, other executors and unverified results resolve nothing |
| EffectTruth.BackedResultResolves | agent/effect_truth.py:342-351 | a backed result verifies its effect exactly when that had no record, or a verified one |
| Evidence.RecordsRead | agent/effect_truth.py:104-113 | a list is read as its mappings and a verified record for each bare id that is not blank |
| Evidence.ExecutionIsEvidenceOf | agent/effect_truth.py:363-436 | a backed result newly verifies a read exactly by a `filesystem.read` step, code exactly by `run_python` or `run_python_file`, a command exactly by `shell` or `process.execute`, a change exactly by a verified or consumed path, each about a target not on record, and nothing else |
| Evidence.FirstExecutionResolves | agent/effect_truth.py:363-436 | with nothing on record, exactly which requested outcomes stay unresolved, by the tools that ran and the paths reported |
| Evidence.ExecutionRecords | agent/effect_truth.py:397-436 | earlier records stay in place, and each new one is of a reported path or step, verified, with its source and its target cut to 240 characters |
| Evidence.VerifiedEffectRecorded | agent/effect_truth.py:342-352 | a backed success adds one verified record under its verifier, unless the effect has a record |
| Evidence.FailedEffectRecorded | agent/effect_truth.py:353-360 | a failure is always added as one, under its executor |
| Evidence.OtherResultsRecordNothing | agent/effect_truth.py:326-353 | a result without an effect, or a success nothing stands behind, records nothing |
| Evidence.FirstFailureCounts | agent/effect_truth.py:304-307 | the task code the gate may use is that of the first failed task that has one |
| Evidence.GatePublishes | agent/effect_truth.py:298-317 | the code and status an unresolved run ends with, and the projection of what is unresolved |
| GoalGate.HasFreshEvidence | agent/runtime_gates.py:48-72 | the scan finds fresh evidence exactly when flagged, or the first source observation names a URL |
| GoalGate.FirstSourceDecides | agent/runtime_gates.py:58-72 | no later observation repairs a first one without URLs |
| GoalGate.Verify | agent/goal.py:355-485 | the verifier's loops collect exactly the evidence and gaps, in order, and decide from them |
| GoalGate.GapsMeaning | agent/goal.py:377-445 | nothing is missing exactly when every demand on tasks, effects, outcomes, files, acceptance, output and freshness is met |
| GoalGate.SpecialGaps | agent/goal.py:438-445 | the output and freshness gaps are named exactly when they apply |
| GoalGate.VerifierCompletesExactly | agent/goal.py:355-485 | the verifier completes exactly the goals that are met |
| GoalGate.GateAgreesWithVerifier | agent/effect_truth.py:288-317 | a gated run completes exactly when the run did, and a met goal leaves nothing unresolved |
| GoalGaps.GapListedExactly | agent/goal.py:377-445 | each gap is listed exactly when what it says is so, for every kind of gap |
| GoalGaps.EvidenceGivenExactly | agent/goal.py:370-436 | each piece of evidence is given exactly when what it says is so |
| GoalGaps.FreshMeaning | agent/runtime_gates.py:48-72 | fresh means flagged, or a first successful source observation with a URL that is not blank |
| GoalGaps.DecisionSays | agent/goal.py:447-485 | status and blocker of the decision, from what is lacking, the run's status and its code |
| GoalGaps.DecisionNames | agent/goal.py:447-485 | the decision names every gap once, and beside them only why a run without gaps is not completed |
| GoalGaps.DecisionShows | agent/goal.py:447-485 | its evidence is what was given, and that the gate was passed exactly for a goal that is met |
| GoalGate.Settle | agent/runtime.py:194-253 | the reassignments of status and code come to four cases each; the later overrides never apply |
| GoalGate.Publish | agent/runtime.py:147-253 | the status is never empty, and COMPLETED exactly when allowed and met, exactly when the code is empty; otherwise blocked or failed by an order-free condition |
| GoalGaps.NoCodeExactly | agent/runtime.py:194-253 | no code is published exactly for a met goal whose run has no other ending on record |
| GoalGaps.PublishedCodeSays | agent/runtime.py:194-253 | which code is published, by missing source, missing answer, the run's own code, its status, an unsupported effect, or anything lacking |
| GoalGate.Run.BuildRunEvidence | agent/runtime.py:147-253 | the published status and code, with the decision written into the goal state |
| Feedback.VerificationGaps | agent/loop/runner.py:293-306 | the filtering loop collects exactly the gaps that are fed back, each once |
| Feedback.FeedbackGapsMeaning | agent/loop/runner.py:293-306 | nothing is fed back exactly when all files, evidence-bearing outcomes, fresh sources and the answer that were asked for are there |
| Scheduling.Answer | agent/loop/runner.py:387-420 | the answer carries its call's id and name, and the refusal if there is one |
| Scheduling.RefusedExactly | agent/loop/runner.py:398-420 | a call is executed exactly when its tool is known, its arguments parse and no required one is missing |
| Scheduling.RefusalSays | agent/loop/runner.py:398-420 | a refused call is told its fault under its code |
| Scheduling.Gather | agent/loop/runner.py:365-376 | a batch runs in any interleaving and its results come back in call order, each carrying what its call was answered |
| Scheduling.DispatchStepCalls | agent/loop/runner.py:335-385 | all calls are done and nothing runs, the index advances by their number, and message k answers call k: its refusal, or what its tool replied at some moment, cut to 8000 characters after an error prefix exactly when the reply is not ok |
| Scheduling.InFlight | agent/loop/runner.py:346-385 | at every moment at most four calls run, and an unsafe or unknown one runs alone |
| Scheduling.DispatchedOnce | agent/loop/runner.py:346-385 | every call is dispatched exactly once |
| Scheduling.Barrier | agent/loop/runner.py:346-385 | of two calls not both safe the earlier finishes before the later starts |
| Loop.InstallingContracts | agent/goal.py:198-236 | over any contract installations the version rises at most once each, rounds stay, and repeating the last is a no-op |
| Loop.InstalledContract | agent/goal.py:198-236 | a real revision of an installed contract starts the goal afresh, one version on; any other installation changes only contract and id |
| Loop.RunState.AdvanceGoalRound | agent/loop/runner.py:314-333 | a round is admitted exactly below the limit on a goal without a failure; a refusal sets the terminal facts and, at the limit, the round limit |
| Loop.RunBudget.ConsumeTransition | agent/runtime_budget.py:34-42 | counts one transition and grants it exactly while some are left and time is |
| Loop.StopAtLimit | agent/runtime_budget.py:48-56 | the code of the first exhausted limit, or of the budget as a whole |
| Transcript.CompactTranscript | agent/loop/runner.py:74-89 | over 48000 characters exactly the tool results that four more follow are shortened, to their name and first 200 characters; all else stays |
| Transcript.AnswerCalls | agent/loop/runner.py:278-291 | a turn with calls is told as its message, naming each call, and the answers in order with what the tools replied; all that came before stays but for shortened tool results, and the last four answers stay word for word |
| Loop.Run | agent/loop/runner.py:144-291 | model turns are paid from the budget, at most two feedback rounds, bounded goal rounds, an answer let through while feedback is left only when the run has all files, outcomes, fresh sources and output it was asked for; the transcript tells every turn before that, in order, with every answer and every feedback, and every tool call answered |
| Loop.SendBack | agent/loop/runner.py:247-275 | an answer is sent back, with the gaps in words, exactly when something is left to feed back, feedback rounds are left, and the goal has a round left and no failure |
| Loop.PassPhase | agent/runtime.py:809-868 | INIT leads to PLAN, an admitted PLAN says and leads where the planner does, LOOP says what the tool loop let through and ends |
| Loop.RunPhases | agent/runtime.py:787-868 | through INIT, PLAN and LOOP at most the remaining budget minus three model turns, and bounded rounds; the answer is the text the tool loop let through, or else the last the planner gave; a refused transition finishes with the last planned answer or the limit's text, FAILED_TERMINAL and the limit's code |
| Plan.StaticCheck | agent/compiler/tool_selector.py:383-422 | the check refuses exactly the plans that break the order-free contract, and names a real fault |
| Plan.SubstituteArgs | agent/executor/plan_executor.py:257-267 | each reference to a known variable becomes its text, everything else stays |
| Plan.Execute | agent/executor/plan_executor.py:73-255 | steps run in order with arguments substituted from earlier results until one fails; variables, calls, written paths and file operations are those of the completed steps |
| Plan.BoundValue | agent/executor/plan_executor.py:183-192 | an output is bound to its own field, or without a value there to the content |
| Plan.BoundToNothing | agent/executor/plan_executor.py:183-192 | without either it is bound to the only field there is, or else to the text None |
| Lowering.StepTraces | agent/executor/plan_executor.py:166-181 | a completed write or edit leaves its path, a copy, move or delete its operation, and nothing else leaves anything |
| Lowering.EmptyWriteExactly | agent/executor/plan_executor.py:124-132 | a call is refused before it is made exactly when it writes a file and is given no content but blanks |
| Plan.ValueIsKept | agent/executor/plan_executor.py:183-192 | in a single-assignment plan a variable keeps its producer's value to the end |
| Plan.CitationResolves | agent/executor/plan_executor.py:257-267 | in an accepted plan a reference becomes an earlier step's value, or stays literal exactly when the step cites its own output |
| Plan.AllReferencesResolve | agent/compiler/tool_selector.py:395-422 | all references of an accepted plan are replaced exactly when no step cites its own output |
| Plan.LoweredPlanPasses | agent/compiler/tool_selector.py:247-354 | a lowered plan passes the check exactly when its bound values cite only what the plan defines by then |
| Plan.PlainInputsLowerWell | agent/compiler/tool_selector.py:247-354 | with no bound value starting with a dollar sign it passes, and no step cites itself |
| Plan.WrittenContentMayBeReplaced | agent/compiler/tool_selector.py:293-312 | a content reading `$path` is replaced by the resolved path, any other is written as it is |
| Lowering.LoweredExactly | agent/compiler/tool_selector.py:69-96 | a tool is lowered exactly for a stage executed by tools that offers a branch, to the first it offers |
| Lowering.LoweredRunDoes | agent/compiler/tool_selector.py:247-354 | a lowered tool that ran through called its tools with the inputs as given, sources as sources and destinations as destinations, a write at the resolved path, and left that branch's traces |
| Memory.PolicyMeaning | agent/memory/learning.py:284-366 | the policy writes exactly the learnable evidence, as an update exactly over an existing value, and its decisions meet their invariants |
| Memory.ProviderOnlyVetoes | agent/memory/learning.py:369-403 | a provider can only veto: the outcome is IGNORE or the policy's own decision, the latter exactly on full agreement |
| MemoryReasons.IgnoredForAReason | agent/memory/learning.py:284-366 | evidence that is not learned is ignored for a reason that is true of it |
| MemoryReasons.IgnoredForTheFirstReason | agent/memory/learning.py:284-366 | of several reasons the first in the order of the checks is given |
| MemoryReasons.LearnedAs | agent/memory/learning.py:320-366 | what is learned is written trimmed in the policy's scope, for the reason its sensitivity, type and scope give |
| MemoryReasons.VetoSays | agent/memory/learning.py:369-403 | a veto names the provider |
| Memory.FactTable.PersistFact | agent/memory/long_term.py:227-289 | the in-place row update computes the versioned table |
| Memory.RevisionsCountUpdates | agent/memory/long_term.py:243-289 | over any run there is one row per key, with revision one plus the updates that changed it |
| Memory.OtherRowsStay | agent/memory/long_term.py:243-289 | a write touches no other key's row |
| Memory.RedeliveryIsNoOp | agent/memory/long_term.py:249-252 | delivering an accepted write again at once changes nothing and returns the same receipt |
| MemoryReasons.PersistFailsExactly | agent/memory/long_term.py:227-289 | a request fails exactly when it holds no value, or would store over a row of another value or other evidence |
| MemoryReasons.FirstRow | agent/memory/long_term.py:227-289 | the first row of an empty table has id 1 and revision 1 |
| MemoryReasons.PersistWrites | agent/memory/long_term.py:243-289 | a first write is the next row at revision one, an update keeps id and place and counts one revision |
| Memory.SplitKey | agent/memory/persistence.py:129 | a key splits at its first dot, exactly when it has one |
| Memory.AuthorizedFactsCommit | agent/memory/persistence.py:83-198 | on a faithful projection an authorized fact commits exactly when its key is dotted |
| Memory.LearnedFactIsStored | agent/memory/persistence.py:83-198 | learnable evidence ends as a row under its own key with its own value and evidence id |
| Memory.CommittedFactIsStored | agent/memory/persistence.py:124-198 | a committed fact can be read back, and committing it again changes nothing |
| Memory.HiddenRowIsNotOverwritten | agent/memory/long_term.py:249-254 | a STORE over an existing row is refused unless it is a redelivery |
| Memory.MemoryPersistenceBoundary.CommitDecision | agent/memory/persistence.py:83-198 | the boundary commits, refuses or fails as the decision, scope and store demand |
| Memory.CommitmentShowsTheWrite | agent/memory/persistence.py:83-198 | the commit evidence is committed exactly with a receipt and content, then those of the decision's own scope, key and evidence id; else, unless the decision was IGNORE, it names an error |
| Memory.CommitmentContent | agent/memory/persistence.py:83-198 | which store and content a durable write shows, by the type of memory |
| Memory.NotCommittedBecause | agent/memory/persistence.py:83-198 | why a decision was not written, and that the facts are then as they were |
| MemoryReasons.CommitmentNames | agent/memory/persistence.py:83-198 | a commitment names its decision's action, scope, key and evidence id |
| SearchText.ParseSearchResults | tools/web.py:32-81 | the one-pass parser with its draft computes the line-by-line meaning |
| SearchFields.BreaksExactly | tools/web.py:49 | the ten characters that break lines |
| SearchFields.SplitsAt | tools/web.py:49 | a text splits behind each break, a carriage return taking its line feed along |
| SearchFields.KeyedLineFills | tools/web.py:59-79 | a line of a key in any case, blanks, a colon and a value fills that key's field with the trimmed value |
| SearchText.RenderSearchResults | tools/web.py:84-118 | the renderer's text is the notice and every entry's lines, joined |
| SearchFields.EntryPrinted | tools/web.py:102-117 | the lines of a result with all its fields |
| SearchFields.BareEntryPrinted | tools/web.py:102-117 | the lines of a result with at most a URL |
| SearchText.QuietNoticeIsSkipped | tools/web.py:49-80 | a notice without numbered or field lines changes nothing of what is parsed |
| SearchText.RoundTrip | tools/web.py:32-118 | parsing rendered results returns them in order, with the parser's source |
| SearchText.RoundTripExactly | tools/web.py:32-118 | where sources and their dates hold no line break, it does so exactly when every result has a title or a URL and no line break in what comes back |
| SearchText.ParsedIsListed | tools/web.py:32-81 | whatever text is parsed, every result has single-line texts, and a title or a URL |
| SearchText.HeadedAreParsed | tools/web.py:32-118 | with single-line fields as many results come back as have a title or a URL |
| SearchText.SourceInjectsResult | tools/web.py:84-118 | a source with a line break can plant a result of its own |
| SearchText.UnheadedEntryIsLost | tools/web.py:102-116 | an entry with neither adds no result; its snippet and date fall to the result being read |
| History.SplitPairsForBudget | agent/context/conversation.py:75-95 | prefix and suffix make up the input; the kept tail is the longest that fits, or the newest pair |
| History.SplitIsUnique | agent/context/conversation.py:75-95 | these properties determine the split |
| History.KeptFitsExactly | agent/context/conversation.py:80-95 | the kept tail fits exactly when the newest pair alone does |
| History.OversizedPairOverflows | agent/context/conversation.py:80-95 | one pair over the budget is kept and does not fit |
| History.BudgetIsExact | agent/context/conversation.py:75-95 | a history that costs exactly the budget stays whole, one character more does not |
| History.FlattenPairs | agent/context/conversation.py:98-116 | messages are the summary's two and then each pair's two, word for word at their places |
| History.SummaryShown | agent/context/conversation.py:98-112 | a summary that is not blank is shown as two messages, with exactly the characters the budget counts for it |
| History.ShownHistoryIsBounded | agent/context/conversation.py:98-116 | speakers alternate from the user, within the budget and the fixed words around the summary |
| History.SplitLosesNothing | agent/context/conversation.py:75-116 | compacted and kept pairs together say what all the pairs say |

## Left out

- Recorder.CheckpointRecorder.RecordStage: fields the caller's result may lack or mistype are taken as read; ids and clock readings are arguments.
- Documents.ObjectRoundTrip: type coercions in `from_dict` are not modelled, since encoded documents need none; JSON text and hashing are the object itself.
- Codec.NamesReadBack: enumeration names only; other text stays text.
- Lifecycle.DeriveIsLegal: the error for replacing a protected field cannot arise, because the changes a caller may name exclude them.
- Validator.ValidateResume: of the evidence, the kept prefix and the last fact are stated, that of a rejected confirmation by kind and status only; clarification questions are names, not their wording.
- Loop.Run: a run without a budget, streaming of partial answers and cancellation, which only end a loop sooner, are not modelled; prompts are the opening messages.
- Loop.RunPhases: what planning writes into the state, interruption handling and finalization; a planner visit is a parameter.
- Scheduling.DispatchStepCalls: what executing a tool does; a reply is a parameter that may depend on the call and on the moment it finishes.
- Plan.Execute: the code-preservation check of a write, cancellation and research sources; the other lowering rules of the compiler.
- Memory.PolicyMeaning: the regular expressions themselves.
- Memory.MemoryPersistenceBoundary.CommitDecision: the summary and resolution stores, whose answer is a parameter; SQL and schema migration.
- GoalGate.Verify: gaps are values, not text, so two gaps are the same only when they name the same thing, and a failure code is never read as another gap's name; reading a malformed goal raises in the source and is not modelled.
- SearchText.ParseSearchResults: digits and letter case outside ASCII in line prefixes.
- SearchText.QuietNoticeIsSkipped: so a notice line numbered or labelled with those counts as quiet.
- The durable SQLite runtime store, leases and the interruption coordinator: their implementation is not part of this model.
- Tools, sandbox, provider clients, prompts and answer generation: effects and text without a provable meaning.
- Path normalisation in effect authorization: its meaning is the platform library's.
- Initialising the effect contract, the failure taxonomy, metrics and reflection tables: they would add only easy members.
- `derive_pairs` and the answer caps of history: formatting of a run's text.

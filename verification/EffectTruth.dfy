/** What the run has really established, and the gate that keeps COMPLETED honest. */
module EffectTruth {
  import opened Text
  import opened Delivery

  datatype Outcome = UserVisibleOutput | FileRead | FileMutation | CodeExecution | CommandExecution | OtherOutcome(text: string)

  /** `runtime_terminal_status`: unset, one of the names the code compares with, or anything else. */
  datatype RunStatus = Unset | Completed | Blocked | Cancelled | TimedOut | FailedTerminal | OtherStatus(text: string)

  /** `runtime_failure_code`: empty, one of the codes the modelled code reads or writes, or anything else. */
  datatype Code =
    | NoCode | UnsupportedCapability | ResearchToolUnavailable | EnvironmentUnavailable
    | MissingUserOutput | UnverifiedEffect | EvidenceMissing | GoalIncomplete
    | TaskExecutionFailed | RuntimeIncomplete | GoalRoundLimit
    | TransitionBudget | TimeBudget | RecoveryBudget | RuntimeBudget
    | StatusCode(status: RunStatus) | OtherCode(text: string)

  datatype TaskStatus = Succeeded | Skipped | Failed | NotFinished(text: string)

  datatype Source = Verifier(name: string) | FileVerifier | FileOperationVerifier | ToolExecutor | Executor(name: string) | Preset

  /** One record of a list in the state; `verified` says its status reads VERIFIED, which is also the default. */
  datatype Record = Record(effectId: Option<string>, verified: bool, outcome: Outcome, target: string, source: Source)

  /** A raw list entry: a mapping, a bare effect id, or something the readers skip. */
  datatype Item = Entry(record: Record) | Name(text: string) | Junk

  datatype Observation = Observation(succeeded: bool, fromSourceTool: bool, sources: seq<string>)

  datatype TaskState = TaskState(status: TaskStatus, errorCode: Code, observations: seq<Observation>)

  /** The keys of the agent state that decide completion. */
  datatype RunFacts = RunFacts(
    requiredEffects: seq<Item>,
    verifiedEffects: seq<Item>,
    unsupportedEffects: seq<Item>,
    failedEffects: seq<Item>,
    executionEvidence: seq<Item>,
    requestedOutcomes: seq<Outcome>,
    plan: seq<TaskState>,
    requirements: seq<Requirement>,
    criteria: seq<Criterion>,
    artifactRequired: bool,
    files: seq<FileEvidence>,
    verifiedPaths: set<string>,
    acceptance: set<(string, string)>,
    answerRequired: bool,
    freshnessRequired: bool,
    sourceGroundingRequired: bool,
    freshEvidence: bool,
    terminalStatus: RunStatus,
    failureCode: Code,
    unresolvedEffects: seq<Record>,
    unresolvedOutcomes: seq<Outcome>,
    effectTruthOk: bool)

  function CopyRecords(items: seq<Item>): seq<Record> {
    if items == [] then []
    else
      CopyRecords(items[..|items| - 1])
      + match items[|items| - 1]
        case Entry(r) => [r]
        case Name(text) => if Strip(text) != "" then [Record(Some(Strip(text)), true, OtherOutcome(""), "", Preset)] else []
        case Junk => []
  }

  function Entries(records: seq<Record>): seq<Item> {
    seq(|records|, i requires 0 <= i < |records| => Entry(records[i]))
  }

  predicate NeedsEvidence(o: Outcome) {
    o == FileRead || o == FileMutation || o == CodeExecution || o == CommandExecution
  }

  function VerifiedIds(items: seq<Item>): set<string> {
    var verified := CopyRecords(items);
    set i | 0 <= i < |verified| && verified[i].verified :: verified[i].effectId.GetOr("")
  }

  function VerifiedOutcomes(items: seq<Item>): set<Outcome> {
    var evidence := CopyRecords(items);
    set i | 0 <= i < |evidence| && evidence[i].verified :: evidence[i].outcome
  }

  function Unverified(records: seq<Record>, ids: set<string>): seq<Record> {
    if records == [] then []
    else (if records[0].effectId.GetOr("") in ids then [] else [records[0]]) + Unverified(records[1..], ids)
  }

  function Unevidenced(outcomes: seq<Outcome>, seen: set<Outcome>): seq<Outcome> {
    if outcomes == [] then []
    else
      (if NeedsEvidence(outcomes[0]) && outcomes[0] !in seen then [outcomes[0]] else []) + Unevidenced(outcomes[1..], seen)
  }

  function UnresolvedEffects(d: RunFacts): seq<Record> {
    Unverified(CopyRecords(d.requiredEffects), VerifiedIds(d.verifiedEffects))
  }

  function UnresolvedOutcomes(d: RunFacts): seq<Outcome> {
    Unevidenced(Distinct(d.requestedOutcomes), VerifiedOutcomes(d.executionEvidence))
  }

  predicate Unresolved(d: RunFacts) {
    UnresolvedEffects(d) != [] || UnresolvedOutcomes(d) != []
  }

  lemma {:induction false} UnverifiedMeaning(records: seq<Record>, ids: set<string>)
    ensures forall r :: r in Unverified(records, ids) <==> r in records && r.effectId.GetOr("") !in ids
    ensures Unverified(records, ids) == [] <==> forall r :: r in records ==> r.effectId.GetOr("") in ids
  {
    if records != [] {
      UnverifiedMeaning(records[1..], ids);
      assert records == [records[0]] + records[1..];
    }
  }

  lemma {:induction false} UnevidencedMeaning(outcomes: seq<Outcome>, seen: set<Outcome>)
    ensures forall o :: o in Unevidenced(outcomes, seen) <==> o in outcomes && NeedsEvidence(o) && o !in seen
    ensures Unevidenced(outcomes, seen) == [] <==> forall o :: o in outcomes && NeedsEvidence(o) ==> o in seen
  {
    if outcomes != [] {
      UnevidencedMeaning(outcomes[1..], seen);
      assert outcomes == [outcomes[0]] + outcomes[1..];
    }
  }

  // The completion gate.

  /** The first failed task's own error code, if any failed task has one. */
  function TaskFailure(plan: seq<TaskState>): Code {
    if plan == [] then NoCode
    else if plan[0].status == Failed && plan[0].errorCode != NoCode then plan[0].errorCode
    else TaskFailure(plan[1..])
  }

  /** The code and status to publish, given what is unresolved. */
  function GateVerdict(code: Code, status: RunStatus, taskFailure: Code, unsupported: bool, outcomesOpen: bool): (Code, RunStatus) {
    if unsupported then (UnsupportedCapability, Blocked)
    else
      var settled :=
        if code != NoCode then code
        else if taskFailure != NoCode then taskFailure
        else if outcomesOpen then EvidenceMissing
        else UnverifiedEffect;
      (settled,
       if status == Blocked || status == Cancelled || status == TimedOut then status
       else if settled == EnvironmentUnavailable then Blocked
       else FailedTerminal)
  }

  function VerdictOf(d: RunFacts): (Code, RunStatus) {
    if Unresolved(d)
    then GateVerdict(d.failureCode, d.terminalStatus, TaskFailure(d.plan), CopyRecords(d.unsupportedEffects) != [], UnresolvedOutcomes(d) != [])
    else (d.failureCode, d.terminalStatus)
  }

  /** The state after the gate: its projection of what is unresolved, and the code and status. */
  function Gated(d: RunFacts): RunFacts {
    Published(d, UnresolvedEffects(d), UnresolvedOutcomes(d), VerdictOf(d))
  }

  function Published(d: RunFacts, effects: seq<Record>, outcomes: seq<Outcome>, verdict: (Code, RunStatus)): RunFacts {
    d.(unresolvedEffects := effects, unresolvedOutcomes := outcomes, effectTruthOk := effects == [] && outcomes == [],
       failureCode := verdict.0, terminalStatus := verdict.1)
  }

  /** The gate withdraws COMPLETED from exactly the unresolved runs, and leaves the others' code and status alone. */
  lemma GateMeaning(d: RunFacts)
    ensures Unresolved(d) ==> Gated(d).terminalStatus in {Blocked, Cancelled, TimedOut, FailedTerminal} && Gated(d).failureCode != NoCode
    ensures !Unresolved(d) ==> Gated(d).terminalStatus == d.terminalStatus && Gated(d).failureCode == d.failureCode
    ensures Gated(d).effectTruthOk <==> !Unresolved(d)
  {
  }

  /** What the gate reads, other than the code and status, is nothing it writes. */
  lemma PublishingKeepsTheFacts(d: RunFacts, effects: seq<Record>, outcomes: seq<Outcome>, verdict: (Code, RunStatus))
    ensures var e := Published(d, effects, outcomes, verdict);
            && UnresolvedEffects(e) == UnresolvedEffects(d) && UnresolvedOutcomes(e) == UnresolvedOutcomes(d)
            && e.plan == d.plan && e.unsupportedEffects == d.unsupportedEffects
  {
  }

  lemma VerdictIsStable(code: Code, status: RunStatus, taskFailure: Code, unsupported: bool, outcomesOpen: bool)
    ensures var (c, s) := GateVerdict(code, status, taskFailure, unsupported, outcomesOpen);
            GateVerdict(c, s, taskFailure, unsupported, outcomesOpen) == (c, s)
  {
  }

  /** Running the gate again changes nothing. */
  lemma GateIsIdempotent(d: RunFacts)
    ensures Gated(Gated(d)) == Gated(d)
  {
    PublishingKeepsTheFacts(d, UnresolvedEffects(d), UnresolvedOutcomes(d), VerdictOf(d));
    VerdictIsStable(d.failureCode, d.terminalStatus, TaskFailure(d.plan), CopyRecords(d.unsupportedEffects) != [], UnresolvedOutcomes(d) != []);
    assert VerdictOf(Gated(d)) == VerdictOf(d);
  }

  // Recording evidence.

  /** The outcome a tool's execution is evidence of. */
  function StepOutcome(tool: string): Option<Outcome> {
    if tool == "filesystem.read" then Some(FileRead)
    else if tool in {"filesystem.write", "filesystem.edit", "filesystem.copy", "filesystem.move", "filesystem.delete"} then Some(FileMutation)
    else if tool == "run_python" || tool == "run_python_file" then Some(CodeExecution)
    else if tool == "shell" || tool == "process.execute" then Some(CommandExecution)
    else None
  }

  function Cap(s: string, n: nat): string {
    if |s| <= n then s else s[..n]
  }

  /** An executed step, with the target its arguments name. */
  datatype ExecutedStep = ExecutedStep(tool: string, target: string)

  /** The calls that record evidence after an execution. `verifier` is absent when it reads empty or "none". */
  datatype Call =
    | EffectResult(effectId: string, byTool: bool, executor: string, success: bool, verifier: Option<string>)
    | ExecutionResult(byTool: bool, success: bool, actionVerified: bool, verifier: Option<string>,
                      verifiedFiles: seq<string>, consumedFiles: seq<string>, steps: seq<ExecutedStep>)

  /** Only a successful tool execution with a verifier behind it counts. */
  predicate Backed(call: Call) {
    match call
    case EffectResult(_, byTool, _, success, verifier) => success && byTool && verifier.Some?
    case ExecutionResult(byTool, success, actionVerified, _, _, _, _) => success && byTool && actionVerified
  }

  datatype Finding = Finding(outcome: Outcome, key: string, record: Record)

  function FileFinding(path: string, source: Source): Finding {
    Finding(FileMutation, path, Record(None, true, FileMutation, Cap(path, 240), source))
  }

  function FileFindings(paths: seq<string>, source: Source): seq<Finding> {
    seq(|paths|, i requires 0 <= i < |paths| => FileFinding(paths[i], source))
  }

  function StepFinding(step: ExecutedStep, verifier: Option<string>): Option<Finding> {
    var outcome := StepOutcome(step.tool);
    if outcome.None? || outcome.value == FileMutation then None
    else
      var source := if verifier.Some? then Verifier(verifier.value) else ToolExecutor;
      Some(Finding(outcome.value, Cap(step.target, 240), Record(None, true, outcome.value, Cap(step.target, 240), source)))
  }

  function StepFindings(steps: seq<ExecutedStep>, verifier: Option<string>): seq<Finding> {
    if steps == [] then []
    else
      StepFindings(steps[..|steps| - 1], verifier)
      + match StepFinding(steps[|steps| - 1], verifier) case Some(f) => [f] case None => []
  }

  function Identities(records: seq<Record>): set<(Outcome, string)> {
    set i | 0 <= i < |records| :: (records[i].outcome, records[i].target)
  }

  /** Adds each finding whose identity was not seen before. */
  function AddFindings(records: seq<Record>, seen: set<(Outcome, string)>, findings: seq<Finding>): (seq<Record>, set<(Outcome, string)>) {
    if findings == [] then (records, seen)
    else
      var (before, known) := AddFindings(records, seen, findings[..|findings| - 1]);
      var f := findings[|findings| - 1];
      if (f.outcome, f.key) in known then (before, known)
      else (before + [f.record], known + {(f.outcome, f.key)})
  }

  function FindingsOf(call: Call): seq<Finding>
    requires call.ExecutionResult?
  {
    FileFindings(call.verifiedFiles, FileVerifier)
    + FileFindings(call.consumedFiles, FileOperationVerifier)
    + StepFindings(call.steps, call.verifier)
  }

  predicate HasId(records: seq<Record>, id: string) {
    exists i | 0 <= i < |records| :: records[i].effectId.GetOr("") == id
  }

  function VerifiedRecord(id: string, verifier: string): Record {
    Record(Some(id), true, OtherOutcome(""), "", Verifier(verifier))
  }

  function FailedRecord(id: string, executor: string): Record {
    Record(Some(id), false, OtherOutcome(""), "", Executor(if executor == "" then "executor" else executor))
  }

  function Apply(d: RunFacts, call: Call): RunFacts {
    match call
    case EffectResult(effectId, byTool, executor, success, verifier) =>
      var id := Strip(effectId);
      if id == "" then d
      else if Backed(call) then
        var values := CopyRecords(d.verifiedEffects);
        d.(verifiedEffects := Entries(if HasId(values, id) then values else values + [VerifiedRecord(id, verifier.value)]))
      else if !success then
        d.(failedEffects := Entries(CopyRecords(d.failedEffects) + [FailedRecord(id, executor)]))
      else d
    case ExecutionResult(_, _, _, _, _, _, _) =>
      if !Backed(call) then d
      else
        var records := CopyRecords(d.executionEvidence);
        d.(executionEvidence := Entries(AddFindings(records, Identities(records), FindingsOf(call)).0))
  }

  class AgentState {
    var facts: RunFacts

    constructor (facts: RunFacts)
      ensures this.facts == facts
    {
      this.facts := facts;
    }

    /** Projects what is unresolved, and withdraws COMPLETED while anything is. */
    method EnforceCompletionGate()
      modifies this
      ensures facts == Gated(old(facts))
    {
      var effects, outcomes := UnresolvedEffects(facts), UnresolvedOutcomes(facts);
      var code, status := facts.failureCode, facts.terminalStatus;
      if effects != [] || outcomes != [] {
        if CopyRecords(facts.unsupportedEffects) != [] {
          code, status := UnsupportedCapability, Blocked;
        } else {
          if code == NoCode {
            code := TaskFailure(facts.plan);
            if code == NoCode {
              code := if outcomes != [] then EvidenceMissing else UnverifiedEffect;
            }
          }
          if status != Blocked && status != Cancelled && status != TimedOut {
            status := if code == EnvironmentUnavailable then Blocked else FailedTerminal;
          }
        }
      }
      facts := facts.(
        unresolvedEffects := effects, unresolvedOutcomes := outcomes,
        effectTruthOk := effects == [] && outcomes == [], failureCode := code, terminalStatus := status);
    }

    method RecordEffectResult(effectId: string, byTool: bool, executor: string, success: bool, verifier: Option<string>)
      modifies this
      ensures facts == Apply(old(facts), EffectResult(effectId, byTool, executor, success, verifier))
    {
      var id := Strip(effectId);
      if id == "" {
        return;
      }
      if success && byTool && verifier.Some? {
        var values := CopyRecords(facts.verifiedEffects);
        if !HasId(values, id) {
          values := values + [VerifiedRecord(id, verifier.value)];
        }
        facts := facts.(verifiedEffects := Entries(values));
        return;
      }
      if !success {
        facts := facts.(failedEffects := Entries(CopyRecords(facts.failedEffects) + [FailedRecord(id, executor)]));
      }
    }

    method RecordExecutionEvidence(
      byTool: bool, success: bool, actionVerified: bool, verifier: Option<string>,
      verifiedFiles: seq<string>, consumedFiles: seq<string>, steps: seq<ExecutedStep>)
      modifies this
      ensures facts == Apply(old(facts), ExecutionResult(byTool, success, actionVerified, verifier, verifiedFiles, consumedFiles, steps))
    {
      if !success || !byTool || !actionVerified {
        return;
      }
      var evidence := CopyRecords(facts.executionEvidence);
      var files := FileFindings(verifiedFiles, FileVerifier) + FileFindings(consumedFiles, FileOperationVerifier);
      var existing;
      evidence, existing := AddNew(evidence, Identities(evidence), files, []);
      assert files + [] == files;
      var findings := CollectSteps(steps, verifier);
      evidence, existing := AddNew(evidence, existing, findings, files);
      facts := facts.(executionEvidence := Entries(evidence));
    }
  }

  /** One loop over findings: each new identity is recorded once. */
  method AddNew(records: seq<Record>, seen: set<(Outcome, string)>, findings: seq<Finding>, ghost before: seq<Finding>)
    returns (evidence: seq<Record>, existing: set<(Outcome, string)>)
    ensures forall start, known :: (records, seen) == AddFindings(start, known, before) ==>
              (evidence, existing) == AddFindings(start, known, before + findings)
    ensures before == [] ==> (evidence, existing) == AddFindings(records, seen, findings)
  {
    evidence, existing := records, seen;
    for i := 0 to |findings|
      invariant (evidence, existing) == AddFindings(records, seen, findings[..i])
    {
      assert findings[..i + 1][..i] == findings[..i];
      var identity := (findings[i].outcome, findings[i].key);
      if identity !in existing {
        evidence := evidence + [findings[i].record];
        existing := existing + {identity};
      }
    }
    assert findings[..|findings|] == findings;
    forall start, known | (records, seen) == AddFindings(start, known, before)
      ensures (evidence, existing) == AddFindings(start, known, before + findings)
    {
      AddInTwoParts(start, known, before, findings);
    }
  }

  lemma {:induction false} AddInTwoParts(records: seq<Record>, seen: set<(Outcome, string)>, first: seq<Finding>, second: seq<Finding>)
    ensures AddFindings(records, seen, first + second) ==
            AddFindings(AddFindings(records, seen, first).0, AddFindings(records, seen, first).1, second)
  {
    if second == [] {
      assert first + second == first;
    } else {
      var front := second[..|second| - 1];
      AddInTwoParts(records, seen, first, front);
      assert (first + second)[..|first + second| - 1] == first + front;
    }
  }

  method CollectSteps(steps: seq<ExecutedStep>, verifier: Option<string>) returns (findings: seq<Finding>)
    ensures findings == StepFindings(steps, verifier)
  {
    findings := [];
    for i := 0 to |steps|
      invariant findings == StepFindings(steps[..i], verifier)
    {
      assert steps[..i + 1][..i] == steps[..i];
      var finding := StepFinding(steps[i], verifier);
      if finding.Some? {
        findings := findings + [finding.value];
      }
    }
    assert steps[..|steps|] == steps;
  }

  // What any sequence of calls does to the unresolved facts.

  function ApplyAll(d: RunFacts, calls: seq<Call>): RunFacts {
    if calls == [] then d else Apply(ApplyAll(d, calls[..|calls| - 1]), calls[|calls| - 1])
  }

  lemma {:induction false} CopyOfEntries(records: seq<Record>)
    ensures CopyRecords(Entries(records)) == records
  {
    if records != [] {
      var front := records[..|records| - 1];
      CopyOfEntries(front);
      assert Entries(records)[..|records| - 1] == Entries(front);
      assert records == front + [records[|records| - 1]];
    }
  }

  lemma {:induction false} FindingsOnlyAdd(records: seq<Record>, seen: set<(Outcome, string)>, findings: seq<Finding>)
    ensures records <= AddFindings(records, seen, findings).0
  {
    if findings != [] { FindingsOnlyAdd(records, seen, findings[..|findings| - 1]); }
  }

  lemma MoreRecordsVerifyMore(before: seq<Item>, after: seq<Item>)
    requires CopyRecords(before) <= CopyRecords(after)
    ensures VerifiedIds(before) <= VerifiedIds(after) && VerifiedOutcomes(before) <= VerifiedOutcomes(after)
  {
    var few, many := CopyRecords(before), CopyRecords(after);
    forall id | id in VerifiedIds(before) ensures id in VerifiedIds(after) {
      var i :| 0 <= i < |few| && few[i].verified && few[i].effectId.GetOr("") == id;
      assert many[i] == few[i];
    }
    forall o | o in VerifiedOutcomes(before) ensures o in VerifiedOutcomes(after) {
      var i :| 0 <= i < |few| && few[i].verified && few[i].outcome == o;
      assert many[i] == few[i];
    }
  }

  /** Recording only ever adds records. */
  lemma EffectOnlyAdds(d: RunFacts, call: Call)
    requires call.EffectResult?
    ensures CopyRecords(d.verifiedEffects) <= CopyRecords(Apply(d, call).verifiedEffects)
    ensures Apply(d, call).executionEvidence == d.executionEvidence
  {
    hide CopyRecords, Strip, HasId;
    var effects := CopyRecords(d.verifiedEffects);
    CopyOfEntries(effects);
    CopyOfEntries(effects + [VerifiedRecord(Strip(call.effectId), call.verifier.GetOr(""))]);
  }

  lemma ExecutionOnlyAdds(d: RunFacts, call: Call)
    requires call.ExecutionResult?
    ensures CopyRecords(d.executionEvidence) <= CopyRecords(Apply(d, call).executionEvidence)
    ensures Apply(d, call).verifiedEffects == d.verifiedEffects
  {
    hide CopyRecords, FindingsOf, Identities, AddFindings;
    var evidence := CopyRecords(d.executionEvidence);
    FindingsOnlyAdd(evidence, Identities(evidence), FindingsOf(call));
    CopyOfEntries(AddFindings(evidence, Identities(evidence), FindingsOf(call)).0);
  }

  lemma ApplyOnlyAdds(d: RunFacts, call: Call)
    ensures CopyRecords(d.verifiedEffects) <= CopyRecords(Apply(d, call).verifiedEffects)
    ensures CopyRecords(d.executionEvidence) <= CopyRecords(Apply(d, call).executionEvidence)
    ensures Apply(d, call).requiredEffects == d.requiredEffects && Apply(d, call).requestedOutcomes == d.requestedOutcomes
  {
    hide CopyRecords, FindingsOf, Identities, AddFindings, Entries, Strip, HasId, Backed;
    if call.EffectResult? {
      EffectOnlyAdds(d, call);
    } else {
      ExecutionOnlyAdds(d, call);
    }
  }

  /** Everything unresolved afterwards was unresolved before. */
  ghost predicate OnlyShrinks(before: RunFacts, after: RunFacts) {
    && (forall r :: r in UnresolvedEffects(after) ==> r in UnresolvedEffects(before))
    && (forall o :: o in UnresolvedOutcomes(after) ==> o in UnresolvedOutcomes(before))
  }

  lemma CallShrinks(d: RunFacts, call: Call)
    ensures OnlyShrinks(d, Apply(d, call))
  {
    var e := Apply(d, call);
    ApplyOnlyAdds(d, call);
    MoreRecordsVerifyMore(d.verifiedEffects, e.verifiedEffects);
    MoreRecordsVerifyMore(d.executionEvidence, e.executionEvidence);
    UnverifiedMeaning(CopyRecords(d.requiredEffects), VerifiedIds(d.verifiedEffects));
    UnverifiedMeaning(CopyRecords(d.requiredEffects), VerifiedIds(e.verifiedEffects));
    UnevidencedMeaning(Distinct(d.requestedOutcomes), VerifiedOutcomes(d.executionEvidence));
    UnevidencedMeaning(Distinct(d.requestedOutcomes), VerifiedOutcomes(e.executionEvidence));
  }

  /** Over any sequence of calls the unresolved effects and outcomes only shrink. */
  lemma {:induction false} EvidenceOnlyShrinksUnresolved(d: RunFacts, calls: seq<Call>)
    ensures OnlyShrinks(d, ApplyAll(d, calls))
  {
    if calls != [] {
      EvidenceOnlyShrinksUnresolved(d, calls[..|calls| - 1]);
      CallShrinks(ApplyAll(d, calls[..|calls| - 1]), calls[|calls| - 1]);
    }
  }

  /** Failures, other executors and unverified results never resolve anything. */
  lemma UnbackedResolvesNothing(d: RunFacts, call: Call)
    requires !Backed(call)
    ensures UnresolvedEffects(Apply(d, call)) == UnresolvedEffects(d)
    ensures UnresolvedOutcomes(Apply(d, call)) == UnresolvedOutcomes(d)
  {
  }

  /** A backed result resolves its effect exactly when that effect had no record yet, or already a verified one. */
  lemma BackedResultResolves(d: RunFacts, call: Call)
    requires call.EffectResult? && Backed(call) && Strip(call.effectId) != ""
    ensures var id := Strip(call.effectId);
            id in VerifiedIds(Apply(d, call).verifiedEffects) <==>
            id in VerifiedIds(d.verifiedEffects) || !HasId(CopyRecords(d.verifiedEffects), id)
  {
    var id := Strip(call.effectId);
    var records := CopyRecords(d.verifiedEffects);
    var added := VerifiedRecord(id, call.verifier.value);
    CopyOfEntries(records);
    CopyOfEntries(records + [added]);
    if !HasId(records, id) {
      assert CopyRecords(Apply(d, call).verifiedEffects)[|records|] == added;
    } else {
      SameRecordsSameIds(d.verifiedEffects, Entries(records));
    }
  }

  lemma SameRecordsSameIds(a: seq<Item>, b: seq<Item>)
    requires CopyRecords(a) == CopyRecords(b)
    ensures VerifiedIds(a) == VerifiedIds(b)
  {
    MoreRecordsVerifyMore(a, b);
    MoreRecordsVerifyMore(b, a);
  }

  // What one execution result adds.

  function IdentityOf(f: Finding): (Outcome, string) { (f.outcome, f.key) }

  function FindingIds(findings: seq<Finding>): set<(Outcome, string)> {
    set i | 0 <= i < |findings| :: IdentityOf(findings[i])
  }

  /** Evidence that is verified, of the finding's outcome, and targets its key cut to 240 characters. */
  predicate Proper(f: Finding) {
    f.record.verified && f.record.outcome == f.outcome && f.record.target == Cap(f.key, 240)
  }

  lemma {:induction false} StepFindingsAreProper(steps: seq<ExecutedStep>, verifier: Option<string>)
    ensures forall f :: f in StepFindings(steps, verifier) ==> Proper(f) && |f.key| <= 240
  {
    if steps != [] { StepFindingsAreProper(steps[..|steps| - 1], verifier); }
  }

  lemma FindingsAreProper(call: Call)
    requires call.ExecutionResult?
    ensures forall f :: f in FindingsOf(call) ==> Proper(f)
  {
    StepFindingsAreProper(call.steps, call.verifier);
  }

  lemma FindingIdsSnoc(findings: seq<Finding>)
    requires findings != []
    ensures FindingIds(findings) == FindingIds(findings[..|findings| - 1]) + {IdentityOf(findings[|findings| - 1])}
  {
    var last := |findings| - 1;
    forall id | id in FindingIds(findings) ensures id in FindingIds(findings[..last]) || id == IdentityOf(findings[last]) {
      var i :| 0 <= i < |findings| && IdentityOf(findings[i]) == id;
      if i < last { assert findings[..last][i] == findings[i]; }
    }
    forall id | id in FindingIds(findings[..last]) ensures id in FindingIds(findings) {
      var i :| 0 <= i < last && IdentityOf(findings[..last][i]) == id;
      assert findings[i] == findings[..last][i];
    }
    assert IdentityOf(findings[last]) in FindingIds(findings);
  }

  /** One new record for each identity not seen before, however often it was found. */
  lemma {:induction false} OneRecordPerNewIdentity(records: seq<Record>, seen: set<(Outcome, string)>, findings: seq<Finding>)
    ensures AddFindings(records, seen, findings).1 == seen + FindingIds(findings)
    ensures |AddFindings(records, seen, findings).0| == |records| + |FindingIds(findings) - seen|
  {
    if findings != [] {
      var front, f := findings[..|findings| - 1], findings[|findings| - 1];
      OneRecordPerNewIdentity(records, seen, front);
      FindingIdsSnoc(findings);
      hide FindingIds;
      if IdentityOf(f) in seen + FindingIds(front) {
        assert FindingIds(findings) - seen == FindingIds(front) - seen;
      } else {
        assert FindingIds(findings) - seen == (FindingIds(front) - seen) + {IdentityOf(f)};
      }
    } else {
      assert FindingIds(findings) - seen == {};
    }
  }

  lemma IdentitiesSnoc(records: seq<Record>, r: Record)
    ensures Identities(records + [r]) == Identities(records) + {(r.outcome, r.target)}
  {
    var all := records + [r];
    assert all[|records|] == r && (r.outcome, r.target) in Identities(all);
    forall id | id in Identities(records) ensures id in Identities(all) {
      var i :| 0 <= i < |records| && (records[i].outcome, records[i].target) == id;
      assert all[i] == records[i];
    }
  }

  function Targets(ids: set<(Outcome, string)>): set<(Outcome, string)> {
    set id | id in ids :: (id.0, Cap(id.1, 240))
  }

  /** The identities on record afterwards: those before, and each new one with its target cut. */
  lemma {:induction false} RecordedIdentities(records: seq<Record>, seen: set<(Outcome, string)>, findings: seq<Finding>)
    requires forall f :: f in findings ==> Proper(f)
    ensures Identities(AddFindings(records, seen, findings).0) == Identities(records) + Targets(FindingIds(findings) - seen)
  {
    if findings != [] {
      var front, f := findings[..|findings| - 1], findings[|findings| - 1];
      RecordedIdentities(records, seen, front);
      OneRecordPerNewIdentity(records, seen, front);
      FindingIdsSnoc(findings);
      assert Proper(f);
      hide FindingIds, Identities;
      if IdentityOf(f) in seen + FindingIds(front) {
        assert FindingIds(findings) - seen == FindingIds(front) - seen;
      } else {
        IdentitiesSnoc(AddFindings(records, seen, front).0, f.record);
        assert FindingIds(findings) - seen == (FindingIds(front) - seen) + {IdentityOf(f)};
        assert Targets(FindingIds(findings) - seen) == Targets(FindingIds(front) - seen) + {(f.outcome, Cap(f.key, 240))};
      }
    } else {
      assert Targets(FindingIds(findings) - seen) == {};
    }
  }

  ghost predicate FindsNew(findings: seq<Finding>, seen: set<(Outcome, string)>, o: Outcome) {
    exists f :: f in findings && f.outcome == o && IdentityOf(f) !in seen
  }

  ghost predicate VerifiedFor(records: seq<Record>, o: Outcome) {
    exists r :: r in records && r.verified && r.outcome == o
  }

  lemma {:induction false} OutcomesRecorded(records: seq<Record>, seen: set<(Outcome, string)>, findings: seq<Finding>, o: Outcome)
    requires forall f :: f in findings ==> Proper(f)
    ensures VerifiedFor(AddFindings(records, seen, findings).0, o) <==> VerifiedFor(records, o) || FindsNew(findings, seen, o)
  {
    hide FindingIds, VerifiedFor, FindsNew;
    if findings == [] {
      NothingFound(seen, o);
    } else {
      var front, f := findings[..|findings| - 1], findings[|findings| - 1];
      OutcomesRecorded(records, seen, front, o);
      OneRecordPerNewIdentity(records, seen, front);
      assert findings == front + [f] && Proper(f);
      NewOrRepeated(front, f, seen, o);
      VerifiedSnoc(AddFindings(records, seen, front).0, f.record, o);
    }
  }

  lemma NothingFound(seen: set<(Outcome, string)>, o: Outcome)
    ensures !FindsNew([], seen, o)
  {
  }

  lemma VerifiedSnoc(records: seq<Record>, r: Record, o: Outcome)
    ensures VerifiedFor(records + [r], o) <==> VerifiedFor(records, o) || (r.verified && r.outcome == o)
  {
    assert r in records + [r] && forall x :: x in records ==> x in records + [r];
  }

  /** A finding already known is either an old one or repeats an earlier finding of the same outcome. */
  lemma NewOrRepeated(front: seq<Finding>, f: Finding, seen: set<(Outcome, string)>, o: Outcome)
    ensures FindsNew(front + [f], seen, o) <==> FindsNew(front, seen, o) || (f.outcome == o && IdentityOf(f) !in seen)
    ensures IdentityOf(f) in FindingIds(front) && IdentityOf(f) !in seen && f.outcome == o ==> FindsNew(front, seen, o)
  {
    assert f in front + [f] && forall g :: g in front ==> g in front + [f];
    if IdentityOf(f) in FindingIds(front) && IdentityOf(f) !in seen && f.outcome == o {
      var i :| 0 <= i < |front| && IdentityOf(front[i]) == IdentityOf(f);
      assert front[i] in front && front[i].outcome == o;
    }
  }

  lemma VerifiedForMeaning(items: seq<Item>, o: Outcome)
    ensures VerifiedFor(CopyRecords(items), o) <==> o in VerifiedOutcomes(items)
  {
    var records := CopyRecords(items);
    hide CopyRecords;
    if VerifiedFor(records, o) {
      var r :| r in records && r.verified && r.outcome == o;
      var i :| 0 <= i < |records| && records[i] == r;
      assert records[i].outcome in VerifiedOutcomes(items);
    }
  }

  function OnRecord(d: RunFacts): set<(Outcome, string)> { Identities(CopyRecords(d.executionEvidence)) }

  /**
   * A backed execution verifies an outcome exactly when it was verified before, or it finds evidence of it whose
   * identity is not on record yet. A record of that identity that is not verified keeps it from resolving.
   */
  lemma BackedExecutionResolves(d: RunFacts, call: Call, o: Outcome)
    requires call.ExecutionResult? && Backed(call)
    ensures o in VerifiedOutcomes(Apply(d, call).executionEvidence) <==>
            o in VerifiedOutcomes(d.executionEvidence) || FindsNew(FindingsOf(call), OnRecord(d), o)
  {
    var records := CopyRecords(d.executionEvidence);
    FindingsAreProper(call);
    OutcomesRecorded(records, OnRecord(d), FindingsOf(call), o);
    CopyOfEntries(AddFindings(records, OnRecord(d), FindingsOf(call)).0);
    VerifiedForMeaning(d.executionEvidence, o);
    VerifiedForMeaning(Apply(d, call).executionEvidence, o);
  }

  /** One delivery adds one record per full path, or per outcome and cut target of a step, that is not on record. */
  lemma ExecutionAddsOnce(d: RunFacts, call: Call)
    requires call.ExecutionResult? && Backed(call)
    ensures |CopyRecords(Apply(d, call).executionEvidence)| ==
            |CopyRecords(d.executionEvidence)| + |FindingIds(FindingsOf(call)) - OnRecord(d)|
    ensures OnRecord(Apply(d, call)) == OnRecord(d) + Targets(FindingIds(FindingsOf(call)) - OnRecord(d))
  {
    var records := CopyRecords(d.executionEvidence);
    FindingsAreProper(call);
    OneRecordPerNewIdentity(records, OnRecord(d), FindingsOf(call));
    RecordedIdentities(records, OnRecord(d), FindingsOf(call));
    CopyOfEntries(AddFindings(records, OnRecord(d), FindingsOf(call)).0);
  }

  predicate ShortOrOnRecord(path: string, d: RunFacts) { |path| <= 240 || (FileMutation, path) in OnRecord(d) }

  lemma FindingKeys(call: Call)
    requires call.ExecutionResult?
    ensures forall path :: path in call.verifiedFiles || path in call.consumedFiles ==> (FileMutation, path) in FindingIds(FindingsOf(call))
    ensures forall id :: id in FindingIds(FindingsOf(call)) ==>
              |id.1| <= 240 || (id.0 == FileMutation && (id.1 in call.verifiedFiles || id.1 in call.consumedFiles))
  {
    var verified, consumed := FileFindings(call.verifiedFiles, FileVerifier), FileFindings(call.consumedFiles, FileOperationVerifier);
    var steps := StepFindings(call.steps, call.verifier);
    var all := FindingsOf(call);
    StepFindingsAreProper(call.steps, call.verifier);
    forall path | path in call.verifiedFiles ensures (FileMutation, path) in FindingIds(all) {
      var i :| 0 <= i < |call.verifiedFiles| && call.verifiedFiles[i] == path;
      assert all[i] == verified[i] && IdentityOf(all[i]) == (FileMutation, path);
    }
    forall path | path in call.consumedFiles ensures (FileMutation, path) in FindingIds(all) {
      var i :| 0 <= i < |call.consumedFiles| && call.consumedFiles[i] == path;
      assert all[|verified| + i] == consumed[i] && IdentityOf(all[|verified| + i]) == (FileMutation, path);
    }
    forall id | id in FindingIds(all)
      ensures |id.1| <= 240 || (id.0 == FileMutation && (id.1 in call.verifiedFiles || id.1 in call.consumedFiles))
    {
      var i :| 0 <= i < |all| && IdentityOf(all[i]) == id;
      if i < |verified| {
        assert all[i] == verified[i] && call.verifiedFiles[i] == id.1;
      } else if i < |verified| + |consumed| {
        assert all[i] == consumed[i - |verified|] && call.consumedFiles[i - |verified|] == id.1;
      } else {
        assert all[i] == steps[i - |verified| - |consumed|] && all[i] in steps;
      }
    }
  }

  /** All found identities are on record after the delivery exactly when no long path was new. */
  lemma AllOnRecordAfter(d: RunFacts, call: Call)
    requires call.ExecutionResult? && Backed(call)
    ensures FindingIds(FindingsOf(call)) <= OnRecord(Apply(d, call)) <==>
            forall path :: path in call.verifiedFiles || path in call.consumedFiles ==> ShortOrOnRecord(path, d)
  {
    var ids, before, after := FindingIds(FindingsOf(call)), OnRecord(d), OnRecord(Apply(d, call));
    ExecutionAddsOnce(d, call);
    FindingKeys(call);
    hide FindingIds, OnRecord, FindingsOf;
    if ids <= after {
      forall path | path in call.verifiedFiles || path in call.consumedFiles ensures |path| <= 240 || (FileMutation, path) in before {
        assert (FileMutation, path) in after;
      }
    }
    if forall path :: path in call.verifiedFiles || path in call.consumedFiles ==> |path| <= 240 || (FileMutation, path) in before {
      forall id | id in ids ensures id in after {
        if id !in before { assert (id.0, Cap(id.1, 240)) in Targets(ids - before); }
      }
    }
  }

  /**
   * Delivering a backed execution result again changes nothing exactly when each of its paths has at most 240
   * characters or was on record before the first delivery; any other path is recorded a second time.
   */
  lemma RedeliveryAddsNothingExactly(d: RunFacts, call: Call)
    requires call.ExecutionResult? && Backed(call)
    ensures Apply(Apply(d, call), call) == Apply(d, call) <==>
            forall path :: path in call.verifiedFiles || path in call.consumedFiles ==> ShortOrOnRecord(path, d)
  {
    var e := Apply(d, call);
    var f := Apply(e, call);
    AllOnRecordAfter(d, call);
    ExecutionAddsOnce(e, call);
    CopyOfEntries(AddFindings(CopyRecords(d.executionEvidence), OnRecord(d), FindingsOf(call)).0);
    var records := CopyRecords(e.executionEvidence);
    assert e.executionEvidence == Entries(records);
    FindingsOnlyAdd(records, OnRecord(e), FindingsOf(call));
    CopyOfEntries(AddFindings(records, OnRecord(e), FindingsOf(call)).0);
    hide FindingIds, AddFindings, FindingsOf;
    if FindingIds(FindingsOf(call)) <= OnRecord(e) {
      assert FindingIds(FindingsOf(call)) - OnRecord(e) == {};
      assert CopyRecords(f.executionEvidence) == records;
    } else {
      var id :| id in FindingIds(FindingsOf(call)) && id !in OnRecord(e);
      assert id in FindingIds(FindingsOf(call)) - OnRecord(e);
      assert |CopyRecords(f.executionEvidence)| > |records|;
    }
  }

  /** The shortest such path: 241 characters, recorded at each of two deliveries. */
  lemma LongPathIsRecordedTwice(d: RunFacts)
    requires d.executionEvidence == []
    ensures var call := ExecutionResult(true, true, true, None, [seq(241, _ => 'a')], [], []);
            Backed(call) && Apply(Apply(d, call), call) != Apply(d, call)
  {
    var path := seq(241, _ => 'a');
    var call := ExecutionResult(true, true, true, None, [path], [], []);
    assert path in call.verifiedFiles && OnRecord(d) == {};
    assert !ShortOrOnRecord(path, d);
    RedeliveryAddsNothingExactly(d, call);
  }
}

/** What recorded evidence says of a run, in terms of the tools, paths and effect ids that were reported. */
module Evidence {
  import opened Text
  import opened Delivery
  import opened EffectTruth

  /** The records a list is read as: its mappings, and a verified record for each bare id that is not blank. */
  lemma {:induction false} RecordsRead(items: seq<Item>, r: Record)
    ensures r in CopyRecords(items) <==>
            || Entry(r) in items
            || (exists text :: Name(text) in items && Strip(text) != "" && r == Record(Some(Strip(text)), true, OtherOutcome(""), "", Preset))
  {
    if items != [] {
      var front, last := items[..|items| - 1], items[|items| - 1];
      RecordsRead(front, r);
      assert items == front + [last];
      hide Strip;
    }
  }

  /** Reading keeps the order of the list. */
  lemma {:induction false} RecordsReadInOrder(first: seq<Item>, second: seq<Item>)
    ensures CopyRecords(first + second) == CopyRecords(first) + CopyRecords(second)
  {
    if second == [] {
      assert first + second == first;
    } else {
      var front := second[..|second| - 1];
      RecordsReadInOrder(first, front);
      assert (first + second)[..|first + second| - 1] == first + front;
      hide Strip;
    }
  }

  // What an execution result is evidence of.

  /** The text up to its first 240 characters. */
  predicate IsCut(text: string, full: string) {
    text <= full && |text| <= 240 && (text == full || |text| == 240)
  }

  /** Evidence of this outcome and target is already on record, verified or not. */
  ghost predicate Known(d: RunFacts, o: Outcome, target: string) {
    exists r :: r in CopyRecords(d.executionEvidence) && r.outcome == o && r.target == target
  }

  ghost predicate VerifiedOutcome(d: RunFacts, o: Outcome) {
    exists r :: r in CopyRecords(d.executionEvidence) && r.verified && r.outcome == o
  }

  /** A step run by this tool whose cut target is not on record for the outcome. */
  ghost predicate NewStep(d: RunFacts, call: Call, tool: string, o: Outcome)
    requires call.ExecutionResult?
  {
    exists s, target :: s in call.steps && s.tool == tool && IsCut(target, s.target) && !Known(d, o, target)
  }

  /** A changed path that is not on record under its whole name. */
  ghost predicate NewPath(d: RunFacts, call: Call)
    requires call.ExecutionResult?
  {
    exists path :: (path in call.verifiedFiles || path in call.consumedFiles) && !Known(d, FileMutation, path)
  }

  lemma CapIsCut(full: string)
    ensures IsCut(Cap(full, 240), full)
    ensures forall text :: IsCut(text, full) ==> text == Cap(full, 240)
  {
  }

  lemma KnownMeaning(d: RunFacts, o: Outcome, target: string)
    ensures Known(d, o, target) <==> (o, target) in OnRecord(d)
  {
    var records := CopyRecords(d.executionEvidence);
    hide CopyRecords;
    if Known(d, o, target) {
      var r :| r in records && r.outcome == o && r.target == target;
      var i :| 0 <= i < |records| && records[i] == r;
      assert (records[i].outcome, records[i].target) in Identities(records);
    }
  }

  lemma {:induction false} StepFindingsMeaning(steps: seq<ExecutedStep>, verifier: Option<string>, f: Finding)
    ensures f in StepFindings(steps, verifier) <==> exists s :: s in steps && StepFinding(s, verifier) == Some(f)
  {
    if steps != [] {
      var front, last := steps[..|steps| - 1], steps[|steps| - 1];
      StepFindingsMeaning(front, verifier, f);
      assert steps == front + [last];
      hide StepFinding;
    }
  }

  lemma FindingsMeaning(call: Call, f: Finding)
    requires call.ExecutionResult?
    ensures f in FindingsOf(call) <==>
            || (exists path :: path in call.verifiedFiles && f == FileFinding(path, FileVerifier))
            || (exists path :: path in call.consumedFiles && f == FileFinding(path, FileOperationVerifier))
            || (exists s :: s in call.steps && StepFinding(s, call.verifier) == Some(f))
  {
    FileFindingsMeaning(call.verifiedFiles, FileVerifier, f);
    FileFindingsMeaning(call.consumedFiles, FileOperationVerifier, f);
    StepFindingsMeaning(call.steps, call.verifier, f);
    hide FileFinding, StepFinding, StepFindings, FileFindings;
  }

  lemma FileFindingsMeaning(paths: seq<string>, source: Source, f: Finding)
    ensures f in FileFindings(paths, source) <==> exists path :: path in paths && f == FileFinding(path, source)
  {
    var all := FileFindings(paths, source);
    hide FileFinding;
    if path :| path in paths && f == FileFinding(path, source) {
      var i :| 0 <= i < |paths| && paths[i] == path;
      assert all[i] == f;
    }
  }

  lemma VerifiedOutcomeMeaning(d: RunFacts, o: Outcome)
    ensures VerifiedOutcome(d, o) <==> o in VerifiedOutcomes(d.executionEvidence)
  {
    VerifiedForMeaning(d.executionEvidence, o);
  }

  /** What a step counts for: reads, code and commands by the tool that ran, and nothing else. */
  lemma StepCounts(step: ExecutedStep, verifier: Option<string>, f: Finding)
    ensures StepFinding(step, verifier) == Some(f) <==>
            && IsCut(f.key, step.target)
            && f.record == Record(None, true, f.outcome, f.key, if verifier.Some? then Verifier(verifier.value) else ToolExecutor)
            && match f.outcome
               case FileRead => step.tool == "filesystem.read"
               case CodeExecution => step.tool == "run_python" || step.tool == "run_python_file"
               case CommandExecution => step.tool == "shell" || step.tool == "process.execute"
               case _ => false
  {
    CapIsCut(step.target);
  }

  lemma StepsFound(d: RunFacts, call: Call, o: Outcome)
    requires call.ExecutionResult? && o != FileMutation
    ensures FindsNew(FindingsOf(call), OnRecord(d), o) <==>
            exists s, f :: s in call.steps && StepFinding(s, call.verifier) == Some(f) && f.outcome == o && !Known(d, o, f.key)
  {
    if FindsNew(FindingsOf(call), OnRecord(d), o) {
      var f :| f in FindingsOf(call) && f.outcome == o && IdentityOf(f) !in OnRecord(d);
      FindingsMeaning(call, f);
      KnownMeaning(d, o, f.key);
    }
    if s, f :| s in call.steps && StepFinding(s, call.verifier) == Some(f) && f.outcome == o && !Known(d, o, f.key) {
      FindingsMeaning(call, f);
      KnownMeaning(d, o, f.key);
    }
  }

  /** A step of that tool counts for the outcome. */
  lemma ToolFound(d: RunFacts, call: Call, tool: string, o: Outcome, s: ExecutedStep, target: string)
    requires call.ExecutionResult?
    requires s in call.steps && s.tool == tool && IsCut(target, s.target) && !Known(d, o, target)
    requires
      || (o == FileRead && tool == "filesystem.read")
      || (o == CodeExecution && (tool == "run_python" || tool == "run_python_file"))
      || (o == CommandExecution && (tool == "shell" || tool == "process.execute"))
    ensures FindsNew(FindingsOf(call), OnRecord(d), o)
  {
    var source := if call.verifier.Some? then Verifier(call.verifier.value) else ToolExecutor;
    var f := Finding(o, target, Record(None, true, o, target, source));
    StepCounts(s, call.verifier, f);
    hide *;
    StepsFound(d, call, o);
  }

  lemma PathsFound(d: RunFacts, call: Call)
    requires call.ExecutionResult?
    ensures FindsNew(FindingsOf(call), OnRecord(d), FileMutation) <==> NewPath(d, call)
  {
    if FindsNew(FindingsOf(call), OnRecord(d), FileMutation) {
      var f :| f in FindingsOf(call) && f.outcome == FileMutation && IdentityOf(f) !in OnRecord(d);
      FindingsMeaning(call, f);
      forall s | s in call.steps ensures StepFinding(s, call.verifier) != Some(f) { StepCounts(s, call.verifier, f); }
      KnownMeaning(d, FileMutation, f.key);
    }
    if NewPath(d, call) {
      var path :| (path in call.verifiedFiles || path in call.consumedFiles) && !Known(d, FileMutation, path);
      FindingKeys(call);
      var i :| 0 <= i < |FindingsOf(call)| && IdentityOf(FindingsOf(call)[i]) == (FileMutation, path);
      KnownMeaning(d, FileMutation, path);
    }
  }

  lemma StepsFoundByTool(d: RunFacts, call: Call, o: Outcome)
    requires call.ExecutionResult? && o != FileMutation && FindsNew(FindingsOf(call), OnRecord(d), o)
    ensures match o
            case FileRead => NewStep(d, call, "filesystem.read", o)
            case CodeExecution => NewStep(d, call, "run_python", o) || NewStep(d, call, "run_python_file", o)
            case CommandExecution => NewStep(d, call, "shell", o) || NewStep(d, call, "process.execute", o)
            case _ => false
  {
    StepsFound(d, call, o);
    var s, f :| s in call.steps && StepFinding(s, call.verifier) == Some(f) && f.outcome == o && !Known(d, o, f.key);
    StepCounts(s, call.verifier, f);
    hide Known, FindsNew, FindingsOf, OnRecord, StepFinding;
  }

  lemma ToolCounts(d: RunFacts, call: Call, tool: string, o: Outcome)
    requires call.ExecutionResult? && NewStep(d, call, tool, o)
    requires
      || (o == FileRead && tool == "filesystem.read")
      || (o == CodeExecution && (tool == "run_python" || tool == "run_python_file"))
      || (o == CommandExecution && (tool == "shell" || tool == "process.execute"))
    ensures FindsNew(FindingsOf(call), OnRecord(d), o)
  {
    var s, target :| s in call.steps && s.tool == tool && IsCut(target, s.target) && !Known(d, o, target);
    hide *;
    ToolFound(d, call, tool, o, s, target);
  }

  /**
   * What a backed execution newly verifies: a file was read exactly when `filesystem.read` ran, code exactly when
   * `run_python` or `run_python_file` did, a command exactly when `shell` or `process.execute` did, and a file was
   * changed exactly when a verified or consumed path is reported, in each case about a target not on record.
   */
  lemma ExecutionIsEvidenceOf(d: RunFacts, call: Call)
    requires call.ExecutionResult? && call.success && call.byTool && call.actionVerified
    ensures var e := Apply(d, call);
            && (VerifiedOutcome(e, FileRead) <==> VerifiedOutcome(d, FileRead) || NewStep(d, call, "filesystem.read", FileRead))
            && (VerifiedOutcome(e, CodeExecution) <==>
                || VerifiedOutcome(d, CodeExecution)
                || NewStep(d, call, "run_python", CodeExecution) || NewStep(d, call, "run_python_file", CodeExecution))
            && (VerifiedOutcome(e, CommandExecution) <==>
                || VerifiedOutcome(d, CommandExecution)
                || NewStep(d, call, "shell", CommandExecution) || NewStep(d, call, "process.execute", CommandExecution))
            && (VerifiedOutcome(e, FileMutation) <==> VerifiedOutcome(d, FileMutation) || NewPath(d, call))
            && (forall o :: VerifiedOutcome(e, o) && !VerifiedOutcome(d, o) ==> o in {FileRead, FileMutation, CodeExecution, CommandExecution})
  {
    forall o ensures VerifiedOutcome(Apply(d, call), o) <==> VerifiedOutcome(d, o) || FindsNew(FindingsOf(call), OnRecord(d), o) {
      BackedExecutionResolves(d, call, o);
      VerifiedOutcomeMeaning(d, o);
      VerifiedOutcomeMeaning(Apply(d, call), o);
    }
    hide *;
    PathsFound(d, call);
    forall o | o != FileMutation && FindsNew(FindingsOf(call), OnRecord(d), o)
      ensures match o
              case FileRead => NewStep(d, call, "filesystem.read", o)
              case CodeExecution => NewStep(d, call, "run_python", o) || NewStep(d, call, "run_python_file", o)
              case CommandExecution => NewStep(d, call, "shell", o) || NewStep(d, call, "process.execute", o)
              case _ => false
    {
      StepsFoundByTool(d, call, o);
    }
    if NewStep(d, call, "filesystem.read", FileRead) { ToolCounts(d, call, "filesystem.read", FileRead); }
    if NewStep(d, call, "run_python", CodeExecution) { ToolCounts(d, call, "run_python", CodeExecution); }
    if NewStep(d, call, "run_python_file", CodeExecution) { ToolCounts(d, call, "run_python_file", CodeExecution); }
    if NewStep(d, call, "shell", CommandExecution) { ToolCounts(d, call, "shell", CommandExecution); }
    if NewStep(d, call, "process.execute", CommandExecution) { ToolCounts(d, call, "process.execute", CommandExecution); }
  }

  lemma NothingKnown(d: RunFacts, call: Call)
    requires call.ExecutionResult? && d.executionEvidence == []
    ensures forall o :: !VerifiedOutcome(d, o)
    ensures forall tool, o :: NewStep(d, call, tool, o) <==> exists s :: s in call.steps && s.tool == tool
    ensures NewPath(d, call) <==> call.verifiedFiles != [] || call.consumedFiles != []
  {
    forall tool, o, s | s in call.steps && s.tool == tool ensures NewStep(d, call, tool, o) {
      CapIsCut(s.target);
      assert !Known(d, o, Cap(s.target, 240));
    }
    if call.verifiedFiles != [] { assert !Known(d, FileMutation, call.verifiedFiles[0]); }
    if call.consumedFiles != [] { assert !Known(d, FileMutation, call.consumedFiles[0]); }
  }

  lemma StillUnresolved(d: RunFacts, o: Outcome)
    ensures o in UnresolvedOutcomes(d) <==>
            o in d.requestedOutcomes && o in {FileRead, FileMutation, CodeExecution, CommandExecution} && !VerifiedOutcome(d, o)
  {
    DistinctMeaning(d.requestedOutcomes);
    UnevidencedMeaning(Distinct(d.requestedOutcomes), VerifiedOutcomes(d.executionEvidence));
    VerifiedOutcomeMeaning(d, o);
    hide Distinct, VerifiedOutcomes, VerifiedOutcome;
  }

  /** With nothing on record, what a backed execution leaves unresolved of what was requested. */
  lemma FirstExecutionResolves(d: RunFacts, call: Call)
    requires call.ExecutionResult? && call.success && call.byTool && call.actionVerified && d.executionEvidence == []
    ensures var open, ran := UnresolvedOutcomes(Apply(d, call)), set s | s in call.steps :: s.tool;
            && (FileRead in open <==> FileRead in d.requestedOutcomes && "filesystem.read" !in ran)
            && (CodeExecution in open <==> CodeExecution in d.requestedOutcomes && "run_python" !in ran && "run_python_file" !in ran)
            && (CommandExecution in open <==> CommandExecution in d.requestedOutcomes && "shell" !in ran && "process.execute" !in ran)
            && (FileMutation in open <==> FileMutation in d.requestedOutcomes && call.verifiedFiles == [] && call.consumedFiles == [])
            && (forall o :: o in open ==> o in {FileRead, FileMutation, CodeExecution, CommandExecution})
  {
    var e, ran := Apply(d, call), set s | s in call.steps :: s.tool;
    assert forall tool :: tool in ran <==> exists s :: s in call.steps && s.tool == tool;
    ApplyOnlyAdds(d, call);
    hide *;
    ExecutionIsEvidenceOf(d, call);
    NothingKnown(d, call);
    forall o
      ensures o in UnresolvedOutcomes(e) <==>
              o in e.requestedOutcomes && o in {FileRead, FileMutation, CodeExecution, CommandExecution} && !VerifiedOutcome(e, o)
    {
      StillUnresolved(e, o);
    }
  }

  /** A record made of a changed path, by the verifier of files or of file operations, or of a step that ran. */
  ghost predicate RecordOf(call: Call, r: Record)
    requires call.ExecutionResult?
  {
    && r.effectId == None && r.verified
    && if r.outcome == FileMutation
       then (exists path :: IsCut(r.target, path)
               && ((path in call.verifiedFiles && r.source == FileVerifier) || (path in call.consumedFiles && r.source == FileOperationVerifier)))
       else (exists s :: s in call.steps && IsCut(r.target, s.target))
            && r.source == if call.verifier.Some? then Verifier(call.verifier.value) else ToolExecutor
  }

  lemma {:induction false} AddedRecords(records: seq<Record>, seen: set<(Outcome, string)>, findings: seq<Finding>)
    ensures forall r :: r in AddFindings(records, seen, findings).0 ==> r in records || exists f :: f in findings && f.record == r
  {
    if findings != [] {
      var front, last := findings[..|findings| - 1], findings[|findings| - 1];
      AddedRecords(records, seen, front);
      assert findings == front + [last];
    }
  }

  lemma FindingRecord(call: Call, f: Finding)
    requires call.ExecutionResult? && f in FindingsOf(call)
    ensures RecordOf(call, f.record)
  {
    FindingsMeaning(call, f);
    if path :| path in call.verifiedFiles && f == FileFinding(path, FileVerifier) {
      CapIsCut(path);
    } else if path :| path in call.consumedFiles && f == FileFinding(path, FileOperationVerifier) {
      CapIsCut(path);
    } else {
      var s :| s in call.steps && StepFinding(s, call.verifier) == Some(f);
      StepCounts(s, call.verifier, f);
      hide StepFinding;
    }
  }

  /** Recording keeps every earlier record in its place, and adds only records of what was reported. */
  lemma ExecutionRecords(d: RunFacts, call: Call)
    requires call.ExecutionResult?
    ensures CopyRecords(d.executionEvidence) <= CopyRecords(Apply(d, call).executionEvidence)
    ensures forall r :: r in CopyRecords(Apply(d, call).executionEvidence) ==> r in CopyRecords(d.executionEvidence) || RecordOf(call, r)
    ensures Apply(d, call) == d.(executionEvidence := Apply(d, call).executionEvidence)
  {
    ExecutionOnlyAdds(d, call);
    if Backed(call) {
      var records, findings := CopyRecords(d.executionEvidence), FindingsOf(call);
      var after := AddFindings(records, Identities(records), findings).0;
      CopyOfEntries(after);
      AddedRecords(records, Identities(records), findings);
      forall f | f in findings ensures RecordOf(call, f.record) { FindingRecord(call, f); }
      hide CopyRecords, FindingsOf, AddFindings, RecordOf, Identities;
    }
  }

  // What the result of an effect records.

  /** A successful tool execution with a verifier behind it records its effect as verified, unless the effect has a record. */
  lemma VerifiedEffectRecorded(d: RunFacts, effectId: string, executor: string, verifier: string)
    requires Strip(effectId) != ""
    ensures var e, id := Apply(d, EffectResult(effectId, true, executor, true, Some(verifier))), Strip(effectId);
            var verified := CopyRecords(d.verifiedEffects);
            && e == d.(verifiedEffects := e.verifiedEffects)
            && CopyRecords(e.verifiedEffects) ==
               verified + if exists r :: r in verified && r.effectId.GetOr("") == id then []
                          else [Record(Some(id), true, OtherOutcome(""), "", Verifier(verifier))]
  {
    var id := Strip(effectId);
    var verified := CopyRecords(d.verifiedEffects);
    HasIdMeaning(verified, id);
    CopyOfEntries(verified);
    CopyOfEntries(verified + [VerifiedRecord(id, verifier)]);
    hide CopyRecords, Strip, HasId, Entries;
  }

  /** A failure is always recorded, under its executor, and verifies nothing. */
  lemma FailedEffectRecorded(d: RunFacts, effectId: string, byTool: bool, executor: string, verifier: Option<string>)
    requires Strip(effectId) != ""
    ensures var e := Apply(d, EffectResult(effectId, byTool, executor, false, verifier));
            && e == d.(failedEffects := e.failedEffects)
            && CopyRecords(e.failedEffects) ==
               CopyRecords(d.failedEffects)
               + [Record(Some(Strip(effectId)), false, OtherOutcome(""), "", Executor(if executor == "" then "executor" else executor))]
  {
    CopyOfEntries(CopyRecords(d.failedEffects) + [FailedRecord(Strip(effectId), executor)]);
    hide CopyRecords, Strip, HasId, Entries;
  }

  /** A result without an effect, and a success that no tool or no verifier stands behind, record nothing. */
  lemma OtherResultsRecordNothing(d: RunFacts, effectId: string, byTool: bool, executor: string, success: bool, verifier: Option<string>)
    requires Strip(effectId) == "" || (success && !(byTool && verifier.Some?))
    ensures Apply(d, EffectResult(effectId, byTool, executor, success, verifier)) == d
  {
  }

  lemma HasIdMeaning(records: seq<Record>, id: string)
    ensures HasId(records, id) <==> exists r :: r in records && r.effectId.GetOr("") == id
  {
    if r :| r in records && r.effectId.GetOr("") == id {
      var i :| 0 <= i < |records| && records[i] == r;
    }
  }

  // What the completion gate publishes.

  /** The failure code of the first failed task that has one. */
  lemma {:induction false} FirstFailureCounts(plan: seq<TaskState>)
    ensures TaskFailure(plan) == NoCode <==> forall k :: 0 <= k < |plan| && plan[k].status == Failed ==> plan[k].errorCode == NoCode
    ensures TaskFailure(plan) != NoCode ==>
              exists k :: 0 <= k < |plan| && plan[k].status == Failed && plan[k].errorCode == TaskFailure(plan)
                && forall j :: 0 <= j < k && plan[j].status == Failed ==> plan[j].errorCode == NoCode
  {
    if plan != [] && !(plan[0].status == Failed && plan[0].errorCode != NoCode) {
      FirstFailureCounts(plan[1..]);
      assert forall j :: 0 < j < |plan| ==> plan[j] == plan[1..][j - 1];
      if TaskFailure(plan) != NoCode {
        var k :| 0 <= k < |plan[1..]| && plan[1..][k].status == Failed && plan[1..][k].errorCode == TaskFailure(plan)
                 && forall j :: 0 <= j < k && plan[1..][j].status == Failed ==> plan[1..][j].errorCode == NoCode;
        assert plan[k + 1] == plan[1..][k];
      }
    }
  }

  /**
   * The code and status an unresolved run ends with. An unsupported effect blocks it. Otherwise the code it had
   * stays, else the first failed task's counts, else missing evidence, else the unverified effect; a
   * blocked, cancelled or timed out run stays so, and any other fails unless its environment is unavailable.
   */
  lemma GatePublishes(d: RunFacts)
    requires Unresolved(d)
    ensures CopyRecords(d.unsupportedEffects) != [] ==> Gated(d).failureCode == UnsupportedCapability && Gated(d).terminalStatus == Blocked
    ensures CopyRecords(d.unsupportedEffects) == [] ==>
              && Gated(d).failureCode ==
                 (if d.failureCode != NoCode then d.failureCode
                  else if TaskFailure(d.plan) != NoCode then TaskFailure(d.plan)
                  else if UnresolvedOutcomes(d) != [] then EvidenceMissing
                  else UnverifiedEffect)
              && Gated(d).terminalStatus ==
                 (if d.terminalStatus in {Blocked, Cancelled, TimedOut} then d.terminalStatus
                  else if Gated(d).failureCode == EnvironmentUnavailable then Blocked
                  else FailedTerminal)
    ensures Gated(d).unresolvedEffects == UnresolvedEffects(d) && Gated(d).unresolvedOutcomes == UnresolvedOutcomes(d)
  {
    hide Unresolved, UnresolvedEffects, UnresolvedOutcomes, CopyRecords, TaskFailure;
    assert VerdictOf(d) == GateVerdict(
                             d.failureCode, d.terminalStatus, TaskFailure(d.plan),
                             CopyRecords(d.unsupportedEffects) != [], UnresolvedOutcomes(d) != []);
  }
}

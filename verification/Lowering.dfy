/** What a bound tool does once it is lowered and run: which branch is taken, what the tools are called with, what is traced. */
module Lowering {
  import opened Text
  import opened Plan

  predicate Given(inputs: map<string, Option<string>>, name: string) { name in inputs && inputs[name].Some? }

  /** A branch is offered by a stage that may use its tool and has its inputs. */
  predicate Offered(branch: Branch, allowed: seq<string>, inputs: map<string, Option<string>>) {
    match branch
    case ReadFile => "read_file" in allowed && Given(inputs, "path")
    case RunPython => "run_python" in allowed && Given(inputs, "code")
    case WebSearch => "web_search" in allowed && (Given(inputs, "query") || Given(inputs, "path"))
    case WriteFile => "write_file" in allowed && Given(inputs, "path") && Given(inputs, "content")
    case CopyFile => "copy_file" in allowed && Given(inputs, "source") && Given(inputs, "destination")
    case MoveFile => "move_file" in allowed && Given(inputs, "source") && Given(inputs, "destination")
    case DeleteFile => "delete_file" in allowed && Given(inputs, "path")
  }

  /** The branch is offered, and none that comes before it is. */
  predicate FirstOffered(branch: Branch, allowed: seq<string>, inputs: map<string, Option<string>>) {
    && Offered(branch, allowed, inputs)
    && (branch != ReadFile ==> !Offered(ReadFile, allowed, inputs))
    && (branch !in {ReadFile, RunPython} ==> !Offered(RunPython, allowed, inputs))
    && (branch !in {ReadFile, RunPython, WebSearch} ==> !Offered(WebSearch, allowed, inputs))
    && (branch in {CopyFile, MoveFile, DeleteFile} ==> !Offered(WriteFile, allowed, inputs))
    && (branch in {MoveFile, DeleteFile} ==> !Offered(CopyFile, allowed, inputs))
    && (branch == DeleteFile ==> !Offered(MoveFile, allowed, inputs))
  }

  lemma DispatchTakesFirst(allowed: seq<string>, inputs: map<string, Option<string>>)
    ensures var taken := Dispatch(allowed, set name | name in inputs && inputs[name].Some?);
            && (taken.Some? ==> FirstOffered(taken.value, allowed, inputs))
            && (taken.None? ==> forall branch: Branch :: !Offered(branch, allowed, inputs))
  {
    var params := set name | name in inputs && inputs[name].Some?;
    assert forall name :: name in params <==> Given(inputs, name);
  }

  /** A tool is lowered exactly for a stage executed by tools that offers some branch. */
  lemma LoweredExactly(byTool: bool, allowed: seq<string>, inputs: map<string, Option<string>>)
    ensures LowerBoundTool(byTool, allowed, inputs).Some? <==> byTool && exists branch: Branch :: Offered(branch, allowed, inputs)
    ensures LowerBoundTool(byTool, allowed, inputs).Some? ==>
              exists branch :: FirstOffered(branch, allowed, inputs) && LowerBoundTool(byTool, allowed, inputs).value == StepsOf(branch, inputs)
  {
    DispatchTakesFirst(allowed, inputs);
    hide Dispatch, StepsOf;
    assert allowed == [] || inputs == map[] ==> forall branch: Branch :: !Offered(branch, allowed, inputs);
  }

  /** The run was completed: every step was called and returned. */
  ghost predicate RanThrough(steps: seq<Step>, tool: (nat, seq<Binding>) -> Reply, calls: seq<seq<Binding>>, results: seq<seq<Field>>) {
    Ran(steps, tool, calls, results) && |results| == |steps|
  }

  /** One call of one tool with exactly these arguments, and these traces of it. */
  ghost predicate CalledOnce(
    steps: seq<Step>, calls: seq<seq<Binding>>, tool: string, args: seq<Binding>, operations: seq<FileOperation>)
  {
    && |steps| == |calls| == 1 && steps[0].tool == tool && calls[0] == args
    && Written(steps, calls, 1) == [] && Operations(steps, calls, 1) == operations
  }

  /** What each branch is for. */
  ghost predicate Does(
    branch: Branch, inputs: map<string, Option<string>>, steps: seq<Step>, calls: seq<seq<Binding>>, results: seq<seq<Field>>)
    requires branch == ReadFile || branch == WriteFile || branch == DeleteFile ==> Given(inputs, "path")
    requires branch == RunPython ==> Given(inputs, "code")
    requires branch == WebSearch ==> Given(inputs, "query") || Given(inputs, "path")
    requires branch == WriteFile ==> Given(inputs, "content")
    requires branch == CopyFile || branch == MoveFile ==> Given(inputs, "source") && Given(inputs, "destination")
  {
    match branch
    case ReadFile => CalledOnce(steps, calls, "filesystem.read", [Binding("path", Literal(inputs["path"].value))], [])
    case RunPython => CalledOnce(steps, calls, "run_python", [Binding("code", Literal(inputs["code"].value))], [])
    case WebSearch =>
      CalledOnce(
        steps, calls, "web_search",
        [Binding("query", Literal(if Given(inputs, "query") then inputs["query"].value else inputs["path"].value))]
        + (if Given(inputs, "timeliness") then [Binding("timeliness", Literal(inputs["timeliness"].value))] else []),
        [])
    case WriteFile => Writes(inputs["path"].value, inputs["content"].value, inputs, steps, calls, results)
    case CopyFile => Transfers("filesystem.copy", "copy", inputs["source"].value, inputs["destination"].value, steps, calls)
    case MoveFile => Transfers("filesystem.move", "move", inputs["source"].value, inputs["destination"].value, steps, calls)
    case DeleteFile =>
      CalledOnce(steps, calls, "filesystem.delete", [Binding("path", Literal(inputs["path"].value)), Binding("exact", Flag)],
                 [FileOperation("delete", inputs["path"].value, "", "")])
  }

  ghost predicate Transfers(tool: string, operation: string, source: string, destination: string, steps: seq<Step>, calls: seq<seq<Binding>>) {
    CalledOnce(
      steps, calls, tool,
      [Binding("source", Literal(source)), Binding("destination", Literal(destination)), Binding("exact", Flag)],
      [FileOperation(operation, "", source, destination)])
  }

  /** The path is resolved first, and the content goes to what the workspace made of it, overwriting unless told otherwise. */
  ghost predicate Writes(
    path: string, content: string, inputs: map<string, Option<string>>, steps: seq<Step>, calls: seq<seq<Binding>>, results: seq<seq<Field>>)
  {
    && |steps| == |calls| == |results| == 2
    && steps[0].tool == "workspace" && calls[0] == [Binding("spec", Literal(path))]
    && steps[1].tool == "filesystem.write"
    && var resolved := OutputValue(results[0], "path");
       var mode := if Given(inputs, "mode") && inputs["mode"].value != "" then inputs["mode"].value else "overwrite";
       && calls[1] == [Binding("path", Literal(resolved)),
                       Binding("content", Literal(if content == "$path" then resolved else content)),
                       Binding("mode", Literal(if mode == "$path" then resolved else mode))]
       && Written(steps, calls, 2) == [resolved] && Operations(steps, calls, 2) == []
  }

  /** The first step is called with its arguments as they are. */
  lemma FirstCall(steps: seq<Step>, tool: (nat, seq<Binding>) -> Reply, calls: seq<seq<Binding>>, results: seq<seq<Field>>)
    requires RanThrough(steps, tool, calls, results) && steps != []
    ensures |calls| == |steps| && calls[0] == steps[0].args
  {
    assert CalledAt(steps, calls, results, 0);
    assert Substitute(steps[0].args, map[]) == steps[0].args;
  }

  lemma OneCallTraced(steps: seq<Step>, calls: seq<seq<Binding>>)
    requires |steps| == |calls| == 1
    ensures Operations(steps, calls, 1) == OperationOf(steps[0].tool, calls[0])
    ensures Written(steps, calls, 1) == if WritesFile(steps[0].tool) then [ArgText(calls[0], "path")] else []
  {
    hide OperationOf, ArgText, WritesFile;
    assert Operations(steps, calls, 0) == [] && Written(steps, calls, 0) == [];
  }

  lemma TransferDoes(
    operation: string, source: string, destination: string, inputs: map<string, Option<string>>, steps: seq<Step>,
    tool: (nat, seq<Binding>) -> Reply, calls: seq<seq<Binding>>, results: seq<seq<Field>>)
    requires operation == "copy" || operation == "move"
    requires steps == StepsOf(if operation == "copy" then CopyFile else MoveFile, inputs) && RanThrough(steps, tool, calls, results)
    requires Given(inputs, "source") && inputs["source"].value == source && Given(inputs, "destination") && inputs["destination"].value == destination
    ensures Transfers(if operation == "copy" then "filesystem.copy" else "filesystem.move", operation, source, destination, steps, calls)
  {
    FirstCall(steps, tool, calls, results);
    OneCallTraced(steps, calls);
    TransferTrace(operation, source, destination);
    hide OperationOf, RanThrough, ArgText;
  }

  /** The text of an argument is that of the first binding of its name, and empty without one. */
  lemma {:induction false} ArgTextMeaning(args: seq<Binding>, name: string, k: nat)
    requires k <= |args| && (forall j :: 0 <= j < k ==> args[j].name != name) && (k < |args| ==> args[k].name == name)
    ensures ArgText(args, name) == if k == |args| then "" else if args[k].value.Literal? then args[k].value.text else "True"
  {
    if k > 0 {
      forall j | 0 <= j < k - 1 ensures args[1..][j].name != name { assert args[1..][j] == args[j + 1]; }
      ArgTextMeaning(args[1..], name, k - 1);
    }
  }

  lemma TransferTrace(operation: string, source: string, destination: string)
    requires operation == "copy" || operation == "move"
    ensures OperationOf(
              if operation == "copy" then "filesystem.copy" else "filesystem.move",
              [Binding("source", Literal(source)), Binding("destination", Literal(destination)), Binding("exact", Flag)])
            == [FileOperation(operation, "", source, destination)]
  {
    var args := [Binding("source", Literal(source)), Binding("destination", Literal(destination)), Binding("exact", Flag)];
    hide ArgText;
    assert "source" != "destination" && "source" != "path" && "destination" != "path" && "exact" != "path";
    ArgTextMeaning(args, "source", 0);
    ArgTextMeaning(args, "destination", 1);
    ArgTextMeaning(args, "path", 3);
  }

  lemma DeleteTrace(path: string)
    ensures OperationOf("filesystem.delete", [Binding("path", Literal(path)), Binding("exact", Flag)]) == [FileOperation("delete", path, "", "")]
  {
    var args := [Binding("path", Literal(path)), Binding("exact", Flag)];
    hide ArgText;
    assert "path" != "source" && "exact" != "source" && "path" != "destination" && "exact" != "destination";
    ArgTextMeaning(args, "path", 0);
    ArgTextMeaning(args, "source", 2);
    ArgTextMeaning(args, "destination", 2);
  }

  /** Reading, running code and searching leave no trace of a file. */
  lemma UntracedDoes(
    branch: Branch, inputs: map<string, Option<string>>, steps: seq<Step>,
    tool: (nat, seq<Binding>) -> Reply, calls: seq<seq<Binding>>, results: seq<seq<Field>>)
    requires steps == StepsOf(branch, inputs) && RanThrough(steps, tool, calls, results)
    requires branch == ReadFile ==> Given(inputs, "path")
    requires branch == RunPython ==> Given(inputs, "code")
    requires branch == WebSearch ==> Given(inputs, "query") || Given(inputs, "path")
    requires branch == ReadFile || branch == RunPython || branch == WebSearch
    ensures Does(branch, inputs, steps, calls, results)
  {
    FirstCall(steps, tool, calls, results);
    OneCallTraced(steps, calls);
    hide RanThrough, ArgText;
  }

  lemma DeleteDoes(
    inputs: map<string, Option<string>>, steps: seq<Step>,
    tool: (nat, seq<Binding>) -> Reply, calls: seq<seq<Binding>>, results: seq<seq<Field>>)
    requires steps == StepsOf(DeleteFile, inputs) && RanThrough(steps, tool, calls, results) && Given(inputs, "path")
    ensures Does(DeleteFile, inputs, steps, calls, results)
  {
    FirstCall(steps, tool, calls, results);
    OneCallTraced(steps, calls);
    DeleteTrace(inputs["path"].value);
    hide RanThrough, ArgText, OperationOf;
  }

  lemma SubstitutedByPath(text: string, resolved: string)
    ensures SubstituteArg(Literal(text), map["path" := resolved]) == Literal(if text == "$path" then resolved else text)
  {
    assert "$path"[1..] == "path";
    if Cites(Literal(text)) { assert text == ['$'] + text[1..]; }
    assert text[..] == text;
    if Cites(Literal(text)) && Cited(Literal(text)) == "path" { assert text == "$path"; }
  }

  lemma WriteDoes(
    inputs: map<string, Option<string>>, steps: seq<Step>,
    tool: (nat, seq<Binding>) -> Reply, calls: seq<seq<Binding>>, results: seq<seq<Field>>)
    requires steps == StepsOf(WriteFile, inputs) && RanThrough(steps, tool, calls, results)
    requires Given(inputs, "path") && Given(inputs, "content")
    ensures Writes(inputs["path"].value, inputs["content"].value, inputs, steps, calls, results)
  {
    FirstCall(steps, tool, calls, results);
    var resolved := OutputValue(results[0], "path");
    var mode := if Given(inputs, "mode") && inputs["mode"].value != "" then inputs["mode"].value else "overwrite";
    assert CalledAt(steps, calls, results, 1);
    PathIsBound(steps, results);
    SubstitutedByPath("$path", resolved);
    SubstitutedByPath(inputs["content"].value, resolved);
    SubstitutedByPath(mode, resolved);
    hide SubstituteArg, OutputValue, Bind, VariablesAfter;
    WriteTraced(steps, calls, resolved);
  }

  lemma PathIsBound(steps: seq<Step>, results: seq<seq<Field>>)
    requires |steps| == |results| == 2 && steps[0].outputs == ["path"]
    ensures VariablesAfter(steps, results, 1) == map["path" := OutputValue(results[0], "path")]
  {
    hide OutputValue;
    assert VariablesAfter(steps, results, 0) == map[];
    assert ["path"][..0] == [] && Bind(map[], [], results[0]) == map[];
  }

  lemma WriteTraced(steps: seq<Step>, calls: seq<seq<Binding>>, resolved: string)
    requires |steps| == |calls| == 2 && steps[0].tool == "workspace" && steps[1].tool == "filesystem.write"
    requires |calls[1]| > 0 && calls[1][0] == Binding("path", Literal(resolved))
    ensures Written(steps, calls, 2) == [resolved] && Operations(steps, calls, 2) == []
  {
    assert Written(steps, calls, 0) == [] && Operations(steps, calls, 0) == [];
    assert Written(steps, calls, 1) == [] && Operations(steps, calls, 1) == [];
  }

  /** A bound tool that was lowered and ran through did what its first offered branch is for, to the inputs as given. */
  lemma LoweredRunDoes(
    byTool: bool, allowed: seq<string>, inputs: map<string, Option<string>>,
    tool: (nat, seq<Binding>) -> Reply, calls: seq<seq<Binding>>, results: seq<seq<Field>>)
    requires LowerBoundTool(byTool, allowed, inputs).Some?
    requires RanThrough(LowerBoundTool(byTool, allowed, inputs).value, tool, calls, results)
    ensures byTool
    ensures exists branch ::
              FirstOffered(branch, allowed, inputs) && Does(branch, inputs, LowerBoundTool(byTool, allowed, inputs).value, calls, results)
  {
    LoweredExactly(byTool, allowed, inputs);
    var steps := LowerBoundTool(byTool, allowed, inputs).value;
    var branch :| FirstOffered(branch, allowed, inputs) && steps == StepsOf(branch, inputs);
    hide LowerBoundTool, StepsOf, RanThrough, Transfers, Writes, CalledOnce;
    match branch
    case ReadFile => UntracedDoes(branch, inputs, steps, tool, calls, results);
    case RunPython => UntracedDoes(branch, inputs, steps, tool, calls, results);
    case WebSearch => UntracedDoes(branch, inputs, steps, tool, calls, results);
    case WriteFile => WriteDoes(inputs, steps, tool, calls, results);
    case CopyFile => TransferDoes("copy", inputs["source"].value, inputs["destination"].value, inputs, steps, tool, calls, results);
    case MoveFile => TransferDoes("move", inputs["source"].value, inputs["destination"].value, inputs, steps, tool, calls, results);
    case DeleteFile => DeleteDoes(inputs, steps, tool, calls, results);
  }

  // What any step leaves behind.

  /** One more completed step adds its path when it writes or edits a file, and its operation when it copies, moves or deletes one. */
  lemma StepTraces(steps: seq<Step>, calls: seq<seq<Binding>>, i: nat)
    requires i < |steps| && i < |calls|
    ensures var tool, args := steps[i].tool, calls[i];
            && Written(steps, calls, i + 1) ==
               Written(steps, calls, i) + (if tool == "filesystem.write" || tool == "filesystem.edit" then [ArgText(args, "path")] else [])
            && Operations(steps, calls, i + 1) ==
               Operations(steps, calls, i)
               + var path, source, destination := ArgText(args, "path"), ArgText(args, "source"), ArgText(args, "destination");
                 if tool == "filesystem.copy" then [FileOperation("copy", path, source, destination)]
                 else if tool == "filesystem.move" then [FileOperation("move", path, source, destination)]
                 else if tool == "filesystem.delete" then [FileOperation("delete", path, source, destination)]
                 else []
  {
    hide ArgText;
  }

  ghost predicate FirstOf(args: seq<Binding>, name: string, k: nat) {
    k < |args| && args[k].name == name && forall j :: 0 <= j < k ==> args[j].name != name
  }

  lemma FirstOrNone(args: seq<Binding>, name: string) returns (k: nat)
    ensures k <= |args| && (forall j :: 0 <= j < k ==> args[j].name != name) && (k < |args| ==> FirstOf(args, name, k))
  {
    k := 0;
    while k < |args| && args[k].name != name
      invariant k <= |args| && forall j :: 0 <= j < k ==> args[j].name != name
    {
      k := k + 1;
    }
  }

  /** A call is refused before it is made exactly when it writes a file and is given no content but blanks. */
  lemma EmptyWriteExactly(tool: string, args: seq<Binding>)
    ensures EmptyWrite(tool, args) <==>
            tool == "filesystem.write" && forall k: nat :: FirstOf(args, "content", k) ==> args[k].value.Literal? && Strip(args[k].value.text) == ""
  {
    var k := FirstOrNone(args, "content");
    ArgTextMeaning(args, "content", k);
    BlankStrips();
    hide ArgText, Strip;
    assert forall j: nat :: FirstOf(args, "content", j) ==> j == k;
  }

  lemma BlankStrips()
    ensures Strip("") == "" && Strip("True") == "True"
  {
    TrimmedStays("True");
  }
}
